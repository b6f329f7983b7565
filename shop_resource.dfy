/** The shop resource: the name capitaliser it applies to product names, and
    the way its endpoints shape the results of the user and product queries
    into the values they send back. The queries themselves are parameters:
    each is given as the result it resolved to. */
module ShopResource {
  import opened JavaLang
  import opened Reactive

  /** A stored user; only the fields the resource reads. */
  datatype UserProfile = UserProfile(id: int, name: string)

  /** A stored product; only the field the resource reads. */
  datatype Product = Product(name: string)

  /** The value the products endpoint sends for each product. */
  datatype ProductModel = ProductModel(name: string)

  // ---------------------------------------------------------------------
  // Capitalising the first letter of every word
  // ---------------------------------------------------------------------

  /** Whether position `i` of `s` begins a word: it is the first position, or
      the character before it is whitespace. */
  predicate StartsWord(s: string, i: nat)
    requires i < |s|
  {
    i == 0 || IsWhitespace(s[i - 1])
  }

  /** Reference definition, reading left to right: a character is upper-cased
      when it begins a word, and `wordStart` says whether the first one does. */
  function CapitalizeFrom(s: string, wordStart: bool): (r: string)
    ensures |r| == |s|
    decreases |s|
  {
    if s == [] then []
    else [if wordStart then ToUpperCase(s[0]) else s[0]] + CapitalizeFrom(s[1..], IsWhitespace(s[0]))
  }

  /** The string with the first letter of every word upper-cased. */
  function Capitalize(s: string): (r: string)
    ensures |r| == |s|
  {
    CapitalizeFrom(s, true)
  }

  lemma {:induction false} CapitalizeFromAt(s: string, wordStart: bool, k: nat)
    requires k < |s|
    ensures CapitalizeFrom(s, wordStart)[k] ==
      if (if k == 0 then wordStart else IsWhitespace(s[k - 1])) then ToUpperCase(s[k]) else s[k]
    decreases k
  {
    if k > 0 {
      CapitalizeFromAt(s[1..], IsWhitespace(s[0]), k - 1);
      assert s[1..][k - 1] == s[k];
      if k > 1 {
        assert s[1..][k - 2] == s[k - 1];
      }
    }
  }

  /** Position by position: a character is upper-cased exactly where it begins
      a word and is kept everywhere else. */
  lemma CapitalizeAt(s: string, k: nat)
    requires k < |s|
    ensures Capitalize(s)[k] == if StartsWord(s, k) then ToUpperCase(s[k]) else s[k]
  {
    CapitalizeFromAt(s, true, k);
  }

  /** `capitalizeAllFirstLetter`: copies the name into a `char[]`, upper-cases
      index 0, then walks the array upper-casing every character whose
      predecessor is whitespace. The test reads the predecessor in the array,
      already updated; the loop invariant shows this is the same as testing
      the original character, since upper-casing keeps whitespace-ness. An
      empty name fails at `array[0]`, hence the precondition. */
  method CapitalizeAllFirstLetter(name: string) returns (r: string)
    requires |name| > 0
    ensures |r| == |name|
    ensures r[0] == ToUpperCase(name[0])
    ensures forall i :: 1 <= i < |name| ==>
      r[i] == if IsWhitespace(name[i - 1]) then ToUpperCase(name[i]) else name[i]
    ensures r == Capitalize(name)
  {
    var chars := new char[|name|](k requires 0 <= k < |name| => name[k]);
    chars[0] := ToUpperCase(chars[0]);
    for i := 1 to chars.Length
      invariant chars[0] == ToUpperCase(name[0])
      invariant forall k :: 1 <= k < i ==>
        chars[k] == if IsWhitespace(name[k - 1]) then ToUpperCase(name[k]) else name[k]
      invariant forall k :: i <= k < chars.Length ==> chars[k] == name[k]
    {
      ToUpperCasePreservesWhitespace(name[i - 1]);
      if i > 1 {
        assert chars[i - 1] == if IsWhitespace(name[i - 2]) then ToUpperCase(name[i - 1]) else name[i - 1];
      }
      if IsWhitespace(chars[i - 1]) {
        chars[i] := ToUpperCase(chars[i]);
      }
    }
    r := chars[..];
    forall k | 0 <= k < |r|
      ensures r[k] == Capitalize(name)[k]
    {
      CapitalizeAt(name, k);
    }
  }

  /** Capitalising never moves a word boundary: every position keeps its
      whitespace-ness. */
  lemma CapitalizeKeepsWhitespace(s: string, k: nat)
    requires k < |s|
    ensures IsWhitespace(Capitalize(s)[k]) == IsWhitespace(s[k])
    ensures StartsWord(Capitalize(s), k) == StartsWord(s, k)
  {
    CapitalizeAt(s, k);
    ToUpperCasePreservesWhitespace(s[k]);
    if k > 0 {
      CapitalizeAt(s, k - 1);
      ToUpperCasePreservesWhitespace(s[k - 1]);
    }
  }

  /** After capitalising, every word begins with a character that upper-casing
      leaves alone, and only word beginnings differ from the input. */
  lemma CapitalizeWordStarts(s: string, k: nat)
    requires k < |s|
    ensures StartsWord(s, k) ==> ToUpperCase(Capitalize(s)[k]) == Capitalize(s)[k]
    ensures Capitalize(s)[k] != s[k] ==> StartsWord(s, k)
  {
    CapitalizeAt(s, k);
    ToUpperCaseIdempotent(s[k]);
  }

  lemma {:induction false} CapitalizeFromIdempotent(s: string, wordStart: bool)
    ensures CapitalizeFrom(CapitalizeFrom(s, wordStart), wordStart) == CapitalizeFrom(s, wordStart)
    decreases |s|
  {
    if s != [] {
      var once := CapitalizeFrom(s, wordStart);
      CapitalizeFromIdempotent(s[1..], IsWhitespace(s[0]));
      ToUpperCaseIdempotent(s[0]);
      ToUpperCasePreservesWhitespace(s[0]);
      assert once[0] == if wordStart then ToUpperCase(s[0]) else s[0];
      assert once[1..] == CapitalizeFrom(s[1..], IsWhitespace(s[0]));
      assert IsWhitespace(once[0]) == IsWhitespace(s[0]);
    }
  }

  /** Capitalising a capitalised name changes nothing. */
  lemma CapitalizeIdempotent(s: string)
    ensures Capitalize(Capitalize(s)) == Capitalize(s)
  {
    CapitalizeFromIdempotent(s, true);
  }

  // ---------------------------------------------------------------------
  // GET /shop/products
  // ---------------------------------------------------------------------

  /** The mapper `p -> capitalizeAllFirstLetter(p.name)`: on an empty name the
      capitaliser throws, on any other it returns `Capitalize(p.name)`. */
  function CapitalizedName(p: Product): (r: Outcome<string>)
    ensures r.Failure? <==> p.name == []
    ensures r.Success? ==> r.value == Capitalize(p.name)
    ensures r.Failure? ==> r.error == EmptyArrayIndex
  {
    if p.name == [] then Failure(EmptyArrayIndex) else Success(Capitalize(p.name))
  }

  /** The mapper `ProductModel::new`. */
  function NewProductModel(name: string): Outcome<ProductModel> {
    Success(ProductModel(name))
  }

  /** `products()`: every product becomes a model carrying its capitalised
      name, in the order the store emits them. The first product with an
      empty name makes the capitaliser throw, which fails the stream there. */
  function Products(upstream: Emission<Product>): (r: Emission<ProductModel>)
    ensures |r.items| <= |upstream.items|
    ensures forall k :: 0 <= k < |r.items| ==>
      upstream.items[k].name != [] && r.items[k] == ProductModel(Capitalize(upstream.items[k].name))
    ensures (forall k :: 0 <= k < |upstream.items| ==> upstream.items[k].name != []) <==>
      |r.items| == |upstream.items|
    ensures |r.items| == |upstream.items| ==> r.end == upstream.end
    ensures |r.items| < |upstream.items| ==>
      upstream.items[|r.items|].name == [] && r.end == Failed(EmptyArrayIndex)
  {
    TransformItems(TransformItems(upstream, CapitalizedName), NewProductModel)
  }

  // ---------------------------------------------------------------------
  // GET /shop/user/{name}
  // ---------------------------------------------------------------------

  /** The mapper `user -> user.name`; a lookup that found nothing yields a
      null user, and reading its name throws. */
  function UserName(user: Option<UserProfile>): (r: Outcome<string>)
    ensures r.Success? <==> user.Some?
    ensures r.Success? ==> r.value == user.value.name
    ensures r.Failure? ==> r.error == NullPointer
  {
    match user
    case None => Failure(NullPointer)
    case Some(u) => Success(u.name)
  }

  /** `getUser`: the name of the user found, and `"anonymous"` whenever the
      lookup failed or found nobody; it never fails. */
  function GetUser(lookup: Outcome<Option<UserProfile>>): (r: Outcome<string>)
    ensures r.Success?
    ensures lookup.Success? && lookup.value.Some? ==> r.value == lookup.value.value.name
    ensures !(lookup.Success? && lookup.value.Some?) ==> r.value == "anonymous"
  {
    RecoverWithItem(Transform(lookup, UserName), (e: Throwable) => "anonymous")
  }

  // ---------------------------------------------------------------------
  // addUser
  // ---------------------------------------------------------------------

  const InsertedPrefix: string := "New User "
  const InsertedSuffix: string := " inserted"
  const NotInsertedPrefix: string := "User not inserted: "

  /** `addUser`: reports the insertion of `name`, or why it failed; it never
      fails. The new id is not read, so a null id changes nothing; a null
      name or a null failure message is written as `null`. */
  function AddUser(name: Option<string>, created: Outcome<Option<int>>): (r: Outcome<string>)
    ensures r.Success?
    ensures created.Success? && name.Some? ==> r.value == "New User " + name.value + " inserted"
    ensures created.Success? && name.None? ==> r.value == "New User null inserted"
    ensures created.Failure? && created.error.message.Some? ==>
      r.value == "User not inserted: " + created.error.message.value
    ensures created.Failure? && created.error.message.None? ==> r.value == "User not inserted: null"
  {
    RecoverWithItem(
      Transform(created, (id: Option<int>) => Success(InsertedPrefix + StringValueOf(name) + InsertedSuffix)),
      (failure: Throwable) => NotInsertedPrefix + StringValueOf(failure.message))
  }

  /** Reads the user name back out of a success report of `addUser`. */
  function InsertedName(report: string): Option<string> {
    if |report| >= |InsertedPrefix| + |InsertedSuffix|
      && report[..|InsertedPrefix|] == InsertedPrefix
      && report[|report| - |InsertedSuffix|..] == InsertedSuffix
    then Some(report[|InsertedPrefix|..|report| - |InsertedSuffix|])
    else None
  }

  /** The report of `addUser` tells a caller whether the user was inserted,
      and which name was (a null name reads back as `null`). */
  lemma AddUserReportsName(name: Option<string>, created: Outcome<Option<int>>)
    ensures InsertedName(AddUser(name, created).value) ==
      if created.Failure? then None
      else if name.Some? then Some(name.value)
      else Some("null")
  {
    var report := AddUser(name, created).value;
    if created.Success? {
      var shown := StringValueOf(name);
      assert report == InsertedPrefix + shown + InsertedSuffix;
      assert report[..|InsertedPrefix|] == InsertedPrefix;
      assert report[|report| - |InsertedSuffix|..] == InsertedSuffix;
      assert report[|InsertedPrefix|..|report| - |InsertedSuffix|] == shown;
    } else {
      assert report[0] == 'U';
      assert InsertedPrefix[0] == 'N';
      if |report| >= |InsertedPrefix| + |InsertedSuffix| {
        assert report[..|InsertedPrefix|][0] != InsertedPrefix[0];
      }
    }
  }

  // ---------------------------------------------------------------------
  // GET /shop/random-recommendation
  // ---------------------------------------------------------------------

  const GreetingPrefix: string := "Hello "
  const GreetingMiddle: string := ", we recommend you "

  /** The mapper over the combined pair; a null user or product throws. */
  function Recommend(pair: (Option<UserProfile>, Option<Product>)): (r: Outcome<string>)
    ensures r.Success? <==> pair.0.Some? && pair.1.Some?
    ensures r.Success? ==> r.value == "Hello " + pair.0.value.name + ", we recommend you " + pair.1.value.name
    ensures r.Failure? ==> r.error == NullPointer
  {
    if pair.0.None? || pair.1.None? then Failure(NullPointer)
    else Success(GreetingPrefix + pair.0.value.name + GreetingMiddle + pair.1.value.name)
  }

  /** `getRecommendation`: greets a user with a recommended product once both
      are known; a failed query fails the result (the user's first), and a
      missing user or product fails it with a null dereference. */
  function GetRecommendation(user: Outcome<Option<UserProfile>>, product: Outcome<Option<Product>>)
    : (r: Outcome<string>)
    ensures r.Success? <==>
      user.Success? && user.value.Some? && product.Success? && product.value.Some?
    ensures r.Success? ==>
      r.value == "Hello " + user.value.value.name + ", we recommend you " + product.value.value.name
    ensures user.Failure? ==> r == Failure(user.error)
    ensures user.Success? && product.Failure? ==> r == Failure(product.error)
    ensures user.Success? && product.Success? && (user.value.None? || product.value.None?) ==>
      r == Failure(NullPointer)
  {
    Transform(CombineAll(user, product), Recommend)
  }

  /** Reads the product name back out of a greeting, knowing the user's name. */
  function RecommendedProduct(greeting: string, userName: string): Option<string> {
    var head := GreetingPrefix + userName + GreetingMiddle;
    if |head| <= |greeting| && greeting[..|head|] == head then Some(greeting[|head|..]) else None
  }

  /** Given the user it greets, the greeting determines the recommended product. */
  lemma RecommendationNamesProduct(u: UserProfile, p: Product)
    ensures RecommendedProduct(GetRecommendation(Success(Some(u)), Success(Some(p))).value, u.name)
      == Some(p.name)
  {
  }
}
