# Shop resource model

A Dafny model of the logic in `ShopResource`, the REST resource of a small
Quarkus storefront service. The model covers two things:

- The name capitaliser `capitalizeAllFirstLetter`. It copies a string into a
  `char[]`, upper-cases the first character, and then upper-cases every
  character whose predecessor is whitespace. It is modelled as a method over
  an `array<char>` with a `for` loop. The method is proved equal to
  `Capitalize`, a left-to-right reference definition. Lemmas about
  `Capitalize` prove that it keeps the length and every word boundary, that
  it changes only word beginnings, and that applying it twice is the same as
  applying it once.
- How the endpoints `getUser`, `addUser`, `getRecommendation` and `products`
  turn the results of their store queries into the values they return. Each
  query is a parameter: the result it resolved to, given as an `Outcome`
  (a `Uni` that succeeded or failed) or an `Emission` (everything a finite
  `Multi` delivered, then how it ended).

Modules:

- `JavaLang` (`java_lang.dfy`): `Character.isWhitespace`,
  `Character.toUpperCase`, `StringValueOf` (how string concatenation renders
  a null string), and the two exceptions the resource can raise.
- `Reactive` (`reactive.dfy`): resolved `Uni` and `Multi` results and the
  four operators the resource uses to shape them: item transform, recovery,
  combining two results, and per-item transform of a stream.
- `ShopResource` (`shop_resource.dfy`): the capitaliser, with its
  reference definition `CapitalizeFrom`, and the four endpoints, with their
  mappers (`NewProductModel` is `ProductModel::new`).

Modelling decisions:

- A Panache lookup that finds nothing resolves to a null item, not to a
  failure. The model writes such items as `Option.None`. Mutiny turns an
  exception thrown inside a mapper into a failure. So `user -> user.name` on
  a null user fails with a `NullPointerException`; `getUser` recovers from
  it with `"anonymous"`, and `getRecommendation` fails with it.
- `products()` preserves order, and it preserves count only when no product
  name is empty. The capitaliser reads `array[0]`, so an empty product name
  throws an `ArrayIndexOutOfBoundsException` inside the stream's transform.
  The stream then fails at that product, and no later product is delivered.
  The model follows the code here.
- `Character.isWhitespace` is modelled for every character, as Java 9 and
  later define it (Unicode 6.3 onward). Java 8 also counts U+180E, the
  Mongolian vowel separator, as whitespace; the model does not.
  `Character.toUpperCase` is modelled on the Basic Latin and Latin-1
  blocks: `a`-`z`, the Latin-1 lower-case letters, `ÿ` (to U+0178) and `µ`
  (to U+039C). Every other character is left unchanged, `ß` included. The
  capitaliser's loop needs one fact about these tables, proved of the model:
  upper-casing keeps whitespace-ness. The lemmas about the capitalised
  string also use a second one: upper-casing is idempotent.

## Model

| member | source | states |
|---|---|---|
| `JavaLang.ToUpperCasePreservesWhitespace` | src/main/java/kz/sabyrzhan/ShopResource.java:104-108 | upper-casing a character never changes whether it is whitespace |
| `JavaLang.ToUpperCaseIdempotent` | src/main/java/kz/sabyrzhan/ShopResource.java:104-108 | upper-casing an upper-cased character changes nothing |
| `JavaLang.IsWhitespace` | src/main/java/kz/sabyrzhan/ShopResource.java:107 | among ASCII characters exactly tab, line feed, vertical tab, form feed, carriage return, the four separators U+001C..U+001F and space are whitespace; the no-break spaces U+00A0, U+2007, U+202F are not; the line and paragraph separators are |
| `JavaLang.ToUpperCase` | src/main/java/kz/sabyrzhan/ShopResource.java:104-108 | `a`-`z` and the Latin-1 lower-case letters U+00E0..U+00FE move to their capitals 32 code points lower; `ÿ` becomes U+0178 and `µ` becomes U+039C; `ß`, `÷` and every other ASCII character are unchanged |
| `Reactive.Transform` | src/main/java/kz/sabyrzhan/ShopResource.java:58 | the result succeeds exactly when the upstream succeeded and the mapper did not throw, and then holds the mapper's value; a failure carries the upstream's error, or else the mapper's |
| `Reactive.TransformCompose` | src/main/java/kz/sabyrzhan/ShopResource.java:58 | a general law of the operator: two transforms in a row equal one transform by the composed mapper, so a chain fails at its first failing step |
| `Reactive.RecoverWithItem` | src/main/java/kz/sabyrzhan/ShopResource.java:59 | the result always succeeds: with the original item, or with the fallback computed from the failure |
| `Reactive.CombineAll` | src/main/java/kz/sabyrzhan/ShopResource.java:144 | succeeds exactly when both components succeed, with the pair in argument order; otherwise fails with the first failing component's error |
| `Reactive.TransformItems` | src/main/java/kz/sabyrzhan/ShopResource.java:75-76 | items are mapped in order; the output stops at the first item whose mapper throws and fails with that error; if no mapper throws, the count and the end event are those of the input |
| `Reactive.TransformItemsCompose` | src/main/java/kz/sabyrzhan/ShopResource.java:74-76 | the two per-item transforms of the products stream equal one per-item transform by the composed mapper: the same items, the same stopping point, the same end |
| `ShopResource.Capitalize` | src/main/java/kz/sabyrzhan/ShopResource.java:103-112 | the capitalised string has the same length as the input |
| `ShopResource.CapitalizeFromAt` | src/main/java/kz/sabyrzhan/ShopResource.java:104-110 | at each position, the reference definition upper-cases the character exactly when it begins a word, with the first position controlled by the start flag |
| `ShopResource.CapitalizeAt` | src/main/java/kz/sabyrzhan/ShopResource.java:104-110 | position 0, and every position after whitespace, is upper-cased; every other position is kept |
| `ShopResource.CapitalizeAllFirstLetter` | src/main/java/kz/sabyrzhan/ShopResource.java:102-113 | on a non-empty name: same length; index 0 is upper-cased; every later index is upper-cased exactly when the ORIGINAL predecessor is whitespace, although the loop tests the already updated array; the result equals `Capitalize(name)` |
| `ShopResource.CapitalizeKeepsWhitespace` | src/main/java/kz/sabyrzhan/ShopResource.java:106-108 | every position keeps its whitespace-ness, so the words of the result begin where the words of the input do |
| `ShopResource.CapitalizeWordStarts` | src/main/java/kz/sabyrzhan/ShopResource.java:104-110 | every word of the result begins with an upper-case-stable character, and only word beginnings differ from the input |
| `ShopResource.CapitalizeIdempotent` | src/main/java/kz/sabyrzhan/ShopResource.java:102-113 | capitalising a capitalised string changes nothing |
| `ShopResource.CapitalizedName` | src/main/java/kz/sabyrzhan/ShopResource.java:75 | the mapper `p -> capitalizeAllFirstLetter(p.name)` throws the index exception exactly when the product name is empty, and otherwise returns `Capitalize(p.name)` |
| `ShopResource.Products` | src/main/java/kz/sabyrzhan/ShopResource.java:73-77 | each product, in store order, becomes a model carrying its capitalised name; all products are delivered, with the store's end event, exactly when no name is empty; otherwise the stream fails with the index exception at the first empty name |
| `ShopResource.UserName` | src/main/java/kz/sabyrzhan/ShopResource.java:58 | reading the name succeeds exactly when the user is not null, with `user.name`; otherwise it throws a null dereference |
| `ShopResource.GetUser` | src/main/java/kz/sabyrzhan/ShopResource.java:54-60 | never fails; the found user's name when the lookup succeeded with a user, and exactly `"anonymous"` when it failed or found nobody |
| `ShopResource.AddUser` | src/main/java/kz/sabyrzhan/ShopResource.java:133-137 | never fails; `"New User " + name + " inserted"` on success, whatever the id, with a null name written `null`; `"User not inserted: " + message` on failure, with a null message written `null` |
| `ShopResource.AddUserReportsName` | src/main/java/kz/sabyrzhan/ShopResource.java:135-136 | the report can be read back: it yields the inserted name (`null` for a null name) after a success and nothing after a failure |
| `ShopResource.Recommend` | src/main/java/kz/sabyrzhan/ShopResource.java:145-146 | building the greeting succeeds exactly when neither the user nor the product is null, with `"Hello " + user.name + ", we recommend you " + product.name`; otherwise it throws a null dereference |
| `ShopResource.GetRecommendation` | src/main/java/kz/sabyrzhan/ShopResource.java:141-147 | succeeds exactly when both queries found something, with `"Hello " + user.name + ", we recommend you " + product.name`; a failed query's error is passed on, the user's first; a null user or product gives a null dereference failure |
| `ShopResource.RecommendationNamesProduct` | src/main/java/kz/sabyrzhan/ShopResource.java:145-146 | given the user's name, the greeting determines the recommended product's name |

## Left out

- `CapitalizeAllFirstLetter`: Java strings are UTF-16. The model's strings
  are sequences of Unicode scalar values, so a character outside the Basic
  Multilingual Plane is one element here and two in Java. On such
  characters the model agrees with Java's `char` functions: they are not
  whitespace and upper-casing leaves them unchanged. Only the lengths of
  such strings differ.
- `JavaLang.ToUpperCase`: case mapping outside Basic Latin and Latin-1 is
  not modelled; those characters are left unchanged.
- `JavaLang.NullPointer`: the text of the exception message is not modelled.
- `Reactive.CombineAll`: when both queries fail, Mutiny reports whichever
  failure arrives first. The model reports the user query's failure. The
  cancellation of the other query is not modelled.
- Scheduling, subscription and cancellation of `Uni` and `Multi`: the model
  works on the results they resolve to.
- `getRecommendations`, `getRandomRecommendations` and `readChunk`: these
  are built from timed tickers, overflow dropping, concatenation of inner
  results and stream combination. All of these are library behaviour
  about timing.
- `users`, `getOrdersForUser`, `getOrdersPerUser` and `createUser`: these
  only forward store queries and log; they are not part of this model.
- `init`: blocking store calls that seed an order at start-up.
- The call `helloMessaging.sendToUserChannel(1002L)` in `getUser`, and the
  whole messaging chain in `HelloMessaging.java`: channel wiring by the
  framework, with acknowledgements that complete at once.
- `UserService.java`: store access through Panache. Its results are the
  parameters of the model. `getRandomUser` picks a row with an unseeded
  random number; the model takes the row it picked as given.
- The entity classes `UserProfile` and `Product` are not part of this model.
  Only the fields the resource reads are modelled. A null `name` field is
  left out: the model's names are always strings. Nothing in the resource
  rules a null name out. With one, Java would act as follows:
  `products()` would fail with a `NullPointerException` at
  `name.toCharArray()`; `getUser` would succeed with a null item; and the
  greeting would read `"Hello null, ..."`.
- Logging with `System.out.println`, HTTP routing and response
  serialisation.
