/** The behaviour the two test suites check, on their own fixture: a
    product with a manufacturer, a sorted collection of three reviews and
    an array of tags. Each lemma states, for the concrete paths and
    mutations of one test or group of tests, what the tests expect. */
module Scenarios {
  import opened Results
  import opened PathSyntax
  import opened ObjectGraph
  import opened Accessor
  import opened ChangeTracking

  // ---------------------------------------------------------------------
  // Nodes of the paths the tests use
  // ---------------------------------------------------------------------

  /** A first attribute, as the parser gives it. */
  function First(name: string): Node { AttributeAccess(name, name) }

  /** A later attribute, with its dot. */
  function Dot(name: string): Node { AttributeAccess(name, "." + name) }

  /** An index written as one digit. */
  function Index(i: nat): Node
    requires i < 10
  {
    CollectionItemAccess(i, "[" + [DigitChar(i)] + "]")
  }

  /** `ns` is a node sequence the parser produces, `text` its rendering
      and `l` the accessor built from it. */
  predicate Renders(ns: seq<Node>, text: string, l: Link) {
    WellFormed(ns) && Texts(ns) == text && Fold(Root, ns) == l
  }

  lemma RendersName(name: string)
    requires IsName(name)
    ensures Renders([First(name)], name, Step(Root, First(name)))
  {
    assert [First(name)][1..] == [];
    assert NodeOk(First(name), true) && WellFormedFrom([], false);
    assert Texts([First(name)]) == name + Texts([]);
    assert Fold(Root, [First(name)]) == Fold(Step(Root, First(name)), []);
  }

  lemma RendersIndex(i: nat)
    requires i < 10
    ensures Renders([Index(i)], "[" + [DigitChar(i)] + "]", Step(Root, Index(i)))
  {
    assert NatToString(i) == [DigitChar(i)];
    assert [Index(i)][1..] == [];
    assert NodeOk(Index(i), true) && WellFormedFrom([], false);
    assert Texts([Index(i)]) == Index(i).text + Texts([]);
    assert Fold(Root, [Index(i)]) == Fold(Step(Root, Index(i)), []);
  }

  /** A later node appended to a rendered path. */
  lemma RendersThen(ns: seq<Node>, text: string, l: Link, n: Node)
    requires Renders(ns, text, l) && ns != [] && NodeOk(n, false)
    ensures Renders(ns + [n], text + n.text, Step(l, n))
  {
    SnocFrom(ns, n, true);
    FoldSnoc(Root, ns, n);
  }

  lemma {:induction false} SnocFrom(ns: seq<Node>, n: Node, first: bool)
    requires WellFormedFrom(ns, first) && NodeOk(n, false) && (ns == [] ==> !first)
    ensures WellFormedFrom(ns + [n], first) && Texts(ns + [n]) == Texts(ns) + n.text
  {
    if ns == [] {
      assert [] + [n] == [n];
      assert Texts([n][1..]) == "";
    } else {
      var m := ns + [n];
      assert m[0] == ns[0] && m[1..] == ns[1..] + [n];
      SnocFrom(ns[1..], n, false);
      SplitText(ns[0].text, Texts(ns[1..]), n.text);
    }
  }

  lemma DotOk(name: string)
    requires IsName(name)
    ensures NodeOk(Dot(name), false)
  {
  }

  lemma IndexOk(i: nat)
    requires i < 10
    ensures NodeOk(Index(i), false)
  {
    assert NatToString(i) == [DigitChar(i)];
  }

  /** `accessorFor` of a rendered path, with whitespace around it. */
  lemma RenderedAccessor(ns: seq<Node>, text: string, l: Link, ws1: string, ws2: string, path: string, api: Api)
    requires Renders(ns, text, l) && AllIn(ws1, White) && AllIn(ws2, White) && path == ws1 + text + ws2
    ensures AccessorFor(path, api) == Success(l)
  {
    ParseRendered(ws1, ns, ws2, api);
  }

  /** `accessorFor` of a rendered path with nothing around it. */
  lemma RenderedPath(ns: seq<Node>, text: string, l: Link, path: string, api: Api)
    requires Renders(ns, text, l) && path == text
    ensures AccessorFor(path, api) == Success(l)
  {
    assert "" + text + "" == text;
    RenderedAccessor(ns, text, l, "", "", path, api);
  }

  // ---------------------------------------------------------------------
  // Accessor creation: the paths accepted, and the accessors built
  // ---------------------------------------------------------------------

  function NameOf(): Link { Step(Root, First("name")) }
  function NotAnAttr(): Link { Step(Root, First("notAnAttr")) }
  function NewAttr(): Link { Step(Root, First("newAttr")) }
  function Manufacturer(): Link { Step(Root, First("manufacturer")) }
  function ManufacturerName(): Link { Step(Manufacturer(), Dot("name")) }
  function ManufacturerAddress(): Link { Step(Manufacturer(), Dot("address")) }
  function Street(): Link { Step(ManufacturerAddress(), Dot("street")) }
  function Phones(): Link { Step(Manufacturer(), Dot("phones")) }
  function FirstPhone(): Link { Step(Phones(), Index(0)) }
  function FirstPhoneNumber(): Link { Step(FirstPhone(), Dot("number")) }
  function ReviewsOf(): Link { Step(Root, First("reviews")) }
  function ReviewItem(): Link { Step(ReviewsOf(), Index(1)) }
  function ReviewTitle(): Link { Step(ReviewItem(), Dot("title")) }
  function ReviewsLength(): Link { Step(ReviewsOf(), Dot("length")) }
  function ItemTitle(): Link { Step(Step(Root, Index(1)), Dot("title")) }
  function TagsOf(): Link { Step(Root, First("tags")) }
  function Tag1(): Link { Step(TagsOf(), Index(1)) }
  function TagsLength(): Link { Step(TagsOf(), Dot("length")) }

  /** "name", also with whitespace at its start or end. */
  lemma NameAccessor(path: string, api: Api)
    requires path == "name" || path == "  name" || path == "name  "
    ensures AccessorFor(path, api) == Success(NameOf())
  {
    assert IsName("name");
    RendersName("name");
    if path == "name" {
      RenderedPath([First("name")], "name", NameOf(), path, api);
    } else if path == "  name" {
      RenderedAccessor([First("name")], "name", NameOf(), "  ", "", path, api);
    } else {
      RenderedAccessor([First("name")], "name", NameOf(), "", "  ", path, api);
    }
  }

  /** A path of one name. */
  lemma OneNameAccessor(name: string, path: string, api: Api)
    requires IsName(name) && path == name
    ensures AccessorFor(path, api) == Success(Step(Root, First(name)))
  {
    RendersName(name);
    RenderedPath([First(name)], name, Step(Root, First(name)), path, api);
  }

  lemma NewAttrAccessor(path: string, api: Api)
    requires path == "newAttr"
    ensures AccessorFor(path, api) == Success(NewAttr())
  {
    assert IsName("newAttr");
    OneNameAccessor("newAttr", path, api);
  }

  lemma NotAnAttrAccessor(path: string, api: Api)
    requires path == "notAnAttr"
    ensures AccessorFor(path, api) == Success(NotAnAttr())
  {
    assert IsName("notAnAttr");
    OneNameAccessor("notAnAttr", path, api);
  }

  /** A name, then a later name. */
  lemma TwoNamesAccessor(a: string, b: string, path: string, api: Api)
    requires IsName(a) && IsName(b) && path == a + "." + b
    ensures AccessorFor(path, api) == Success(Step(Step(Root, First(a)), Dot(b)))
  {
    RendersName(a);
    DotOk(b);
    RendersThen([First(a)], a, Step(Root, First(a)), Dot(b));
    RenderedPath([First(a), Dot(b)], a + "." + b, Step(Step(Root, First(a)), Dot(b)), path, api);
  }

  lemma ManufacturerNameAccessor(path: string, api: Api)
    requires path == "manufacturer.name"
    ensures AccessorFor(path, api) == Success(ManufacturerName())
  {
    assert IsName("manufacturer") && IsName("name");
    TwoNamesAccessor("manufacturer", "name", path, api);
  }

  lemma ManufacturerAddressAccessor(path: string, api: Api)
    requires path == "manufacturer.address"
    ensures AccessorFor(path, api) == Success(ManufacturerAddress())
  {
    assert IsName("manufacturer") && IsName("address");
    TwoNamesAccessor("manufacturer", "address", path, api);
  }

  lemma LengthAccessor(path: string, api: Api)
    requires path == "tags.length" || path == "reviews.length"
    ensures path == "tags.length" ==> AccessorFor(path, api) == Success(TagsLength())
    ensures path == "reviews.length" ==> AccessorFor(path, api) == Success(ReviewsLength())
  {
    assert IsName("tags") && IsName("reviews") && IsName("length");
    if path == "tags.length" {
      TwoNamesAccessor("tags", "length", path, api);
    } else {
      TwoNamesAccessor("reviews", "length", path, api);
    }
  }

  lemma StreetRenders()
    ensures Renders([First("manufacturer"), Dot("address"), Dot("street")], "manufacturer" + ".address" + ".street", Street())
  {
    assert IsName("manufacturer") && IsName("address") && IsName("street");
    RendersName("manufacturer");
    DotOk("address");
    DotOk("street");
    RendersThen([First("manufacturer")], "manufacturer", Manufacturer(), Dot("address"));
    RendersThen([First("manufacturer")] + [Dot("address")], "manufacturer" + ".address", ManufacturerAddress(), Dot("street"));
    assert [First("manufacturer")] + [Dot("address")] + [Dot("street")] == [First("manufacturer"), Dot("address"), Dot("street")];
  }

  lemma StreetAccessor(path: string, api: Api)
    requires path == "manufacturer.address.street"
    ensures AccessorFor(path, api) == Success(Street())
  {
    StreetRenders();
    RenderedPath([First("manufacturer"), Dot("address"), Dot("street")],
      "manufacturer" + ".address" + ".street", Street(), path, api);
  }

  /** A name, then an index. */
  lemma NameIndexAccessor(a: string, i: nat, path: string, api: Api)
    requires IsName(a) && i < 10 && path == a + "[" + [DigitChar(i)] + "]"
    ensures AccessorFor(path, api) == Success(Step(Step(Root, First(a)), Index(i)))
  {
    RendersName(a);
    IndexOk(i);
    RendersThen([First(a)], a, Step(Root, First(a)), Index(i));
    RenderedPath([First(a), Index(i)], a + Index(i).text, Step(Step(Root, First(a)), Index(i)), path, api);
  }

  lemma ItemAccessor(path: string, api: Api)
    requires path == "tags[1]" || path == "reviews[1]"
    ensures path == "tags[1]" ==> AccessorFor(path, api) == Success(Tag1())
    ensures path == "reviews[1]" ==> AccessorFor(path, api) == Success(ReviewItem())
  {
    assert IsName("tags") && IsName("reviews") && DigitChar(1) == '1';
    if path == "tags[1]" {
      NameIndexAccessor("tags", 1, path, api);
    } else {
      NameIndexAccessor("reviews", 1, path, api);
    }
  }

  lemma ReviewTitleRenders()
    ensures Renders([First("reviews"), Index(1), Dot("title")], "reviews" + "[1]" + ".title", ReviewTitle())
  {
    assert IsName("reviews") && IsName("title") && DigitChar(1) == '1';
    RendersName("reviews");
    IndexOk(1);
    DotOk("title");
    RendersThen([First("reviews")], "reviews", ReviewsOf(), Index(1));
    RendersThen([First("reviews")] + [Index(1)], "reviews" + "[1]", ReviewItem(), Dot("title"));
    assert [First("reviews")] + [Index(1)] + [Dot("title")] == [First("reviews"), Index(1), Dot("title")];
  }

  lemma ReviewTitleAccessor(path: string, api: Api)
    requires path == "reviews[1].title"
    ensures AccessorFor(path, api) == Success(ReviewTitle())
  {
    ReviewTitleRenders();
    RenderedPath([First("reviews"), Index(1), Dot("title")], "reviews" + "[1]" + ".title", ReviewTitle(), path, api);
  }

  /** `ModelAttrAccessor` reads "reviews[ 1 ].title" as "reviews[1].title". */
  lemma PaddedIndexAccessor(path: string)
    requires path == "reviews[ 1 ].title"
    ensures AccessorFor(path, ModelAttrAccessor) == Success(ReviewTitle())
  {
    PaddedReviewParse();
    PaddedReviewText();
    PaddedReviewNodes();
    ReviewTitleRenders();
  }

  lemma PaddedReviewParse()
    ensures Parse(Texts([First("reviews")]) + "[" + " " + "1" + " " + "]" + Texts([Dot("title")]), ModelAttrAccessor)
         == Success([First("reviews")] + [IndexNode("1")] + [Dot("title")])
  {
    assert IsName("reviews") && IsName("title");
    RendersName("reviews");
    DotOk("title");
    assert [Dot("title")][1..] == [];
    LenientIndexPadding([First("reviews")], " ", "1", " ", [Dot("title")]);
  }

  lemma PaddedReviewText()
    ensures Texts([First("reviews")]) + "[" + " " + "1" + " " + "]" + Texts([Dot("title")]) == "reviews[ 1 ].title"
  {
    TextOfOne(First("reviews"));
    TextOfOne(Dot("title"));
    PaddedLiteral();
  }

  lemma TextOfOne(n: Node)
    ensures Texts([n]) == n.text
  {
    assert [n][1..] == [];
  }

  lemma PaddedLiteral()
    ensures "reviews" + "[" + " " + "1" + " " + "]" + ".title" == "reviews[ 1 ].title"
  {
  }

  lemma PaddedReviewNodes()
    ensures [First("reviews")] + [IndexNode("1")] + [Dot("title")] == [First("reviews"), Index(1), Dot("title")]
  {
    assert DigitsValue("1") == 1 && NatToString(1) == "1";
  }

  lemma ItemTitleAccessor(path: string, api: Api)
    requires path == "[1].title"
    ensures AccessorFor(path, api) == Success(ItemTitle())
  {
    assert IsName("title") && DigitChar(1) == '1';
    RendersIndex(1);
    DotOk("title");
    RendersThen([Index(1)], "[1]", Step(Root, Index(1)), Dot("title"));
    RenderedPath([Index(1)] + [Dot("title")], "[1]" + ".title", ItemTitle(), path, api);
  }

  lemma FirstPhoneRenders()
    ensures Renders([First("manufacturer"), Dot("phones"), Index(0)], "manufacturer" + ".phones" + "[0]", FirstPhone())
  {
    assert IsName("manufacturer") && IsName("phones") && DigitChar(0) == '0';
    RendersName("manufacturer");
    DotOk("phones");
    IndexOk(0);
    RendersThen([First("manufacturer")], "manufacturer", Manufacturer(), Dot("phones"));
    RendersThen([First("manufacturer")] + [Dot("phones")], "manufacturer" + ".phones", Step(Manufacturer(), Dot("phones")), Index(0));
    assert [First("manufacturer")] + [Dot("phones")] + [Index(0)] == [First("manufacturer"), Dot("phones"), Index(0)];
  }

  lemma FirstPhoneNumberRenders()
    ensures Renders([First("manufacturer"), Dot("phones"), Index(0)] + [Dot("number")],
      "manufacturer" + ".phones" + "[0]" + ".number", FirstPhoneNumber())
  {
    FirstPhoneRenders();
    assert IsName("number");
    DotOk("number");
    RendersThen([First("manufacturer"), Dot("phones"), Index(0)], "manufacturer" + ".phones" + "[0]", FirstPhone(), Dot("number"));
  }

  lemma PhoneAccessor(path: string, api: Api)
    requires path == "manufacturer.phones[0]"
    ensures AccessorFor(path, api) == Success(FirstPhone())
  {
    FirstPhoneRenders();
    RenderedPath([First("manufacturer"), Dot("phones"), Index(0)], "manufacturer" + ".phones" + "[0]", FirstPhone(), path, api);
  }

  lemma PhoneNumberAccessor(path: string, api: Api)
    requires path == "manufacturer.phones[0].number"
    ensures AccessorFor(path, api) == Success(FirstPhoneNumber())
  {
    FirstPhoneNumberRenders();
    RenderedPath([First("manufacturer"), Dot("phones"), Index(0)] + [Dot("number")],
      "manufacturer" + ".phones" + "[0]" + ".number", FirstPhoneNumber(), path, api);
  }

  // ---------------------------------------------------------------------
  // Accessor creation: the paths refused, each at the position where the
  // fault is detected
  // ---------------------------------------------------------------------

  lemma IllegalAttrName(path: string, api: Api)
    requires path == "9asdf"
    ensures AccessorFor(path, api) == Failure(SyntaxError(0, BadNameStart))
  {
    BadStartRejected("", '9', "asdf", api);
    assert "" + ['9'] + "asdf" == path;
  }

  lemma LeadingDot(path: string, api: Api)
    requires path == ".manufacturer"
    ensures AccessorFor(path, api) == Failure(SyntaxError(0, BadNameStart))
  {
    BadStartRejected("", '.', "manufacturer", api);
    assert "" + ['.'] + "manufacturer" == path;
  }

  lemma WhitespaceInMiddle(path: string, api: Api)
    requires path == "reviews name"
    ensures AccessorFor(path, api) == Failure(SyntaxError(8, WhitespaceInPath))
  {
    assert IsName("reviews");
    RendersName("reviews");
    WhitespaceInMiddleRejected([First("reviews")], " ", "name", api);
    assert "reviews" + " " + "name" == path;
  }

  lemma TrailingDot(path: string, api: Api)
    requires path == "manufacturer."
    ensures AccessorFor(path, api) == Failure(SyntaxError(13, BadNameStart))
  {
    assert IsName("manufacturer");
    RendersName("manufacturer");
    DotWithoutNameRejected([First("manufacturer")], "", api);
    assert "manufacturer" + "." + "" == path;
  }

  lemma LettersInIndex(path: string, api: Api)
    requires path == "reviews[asdf]" || path == "reviews[asd0]"
    ensures AccessorFor(path, api) == Failure(SyntaxError(8, ExpectedNumber))
  {
    assert IsName("reviews");
    RendersName("reviews");
    IndexWithoutNumberRejected([First("reviews")], "", path[8..], api);
    assert "reviews" + ("[" + "" + path[8..]) == path;
  }

  lemma LettersAfterIndex(path: string, api: Api)
    requires path == "reviews[0ddf]"
    ensures AccessorFor(path, api) == Failure(SyntaxError(9, ExpectedChar(']')))
  {
    assert IsName("reviews");
    RendersName("reviews");
    IndexUnclosedRejected([First("reviews")], "0", "ddf]", api);
    assert "reviews" + ("[" + "0" + "ddf]") == path;
  }

  /** A path that ends inside an index: right after `[`, */
  lemma EndAfterBracket(api: Api)
    ensures AccessorFor("reviews[", api) == Failure(SyntaxError(8, ExpectedNumber))
  {
    assert IsName("reviews");
    RendersName("reviews");
    IndexWithoutNumberRejected([First("reviews")], "", "", api);
    assert "reviews" + ("[" + "" + "") == "reviews[";
  }

  /** or right after the number. */
  lemma EndAfterNumber(api: Api)
    ensures AccessorFor("reviews[0", api) == Failure(SyntaxError(9, ExpectedChar(']')))
  {
    assert IsName("reviews");
    RendersName("reviews");
    IndexUnclosedRejected([First("reviews")], "0", "", api);
    assert "reviews" + ("[" + "0" + "") == "reviews[0";
  }

  /** An index in first position, as a path on a collection target starts,
      is checked the same way. */
  lemma LettersInFirstIndex(api: Api)
    ensures AccessorFor("[x]", api) == Failure(SyntaxError(1, ExpectedNumber))
  {
    IndexWithoutNumberRejected([], "", "x]", api);
    assert Texts([]) + ("[" + "" + "x]") == "[x]";
  }

  /** `modelAccess` refuses whitespace just inside `[`, */
  lemma LeadingIndexPaddingRefused(path: string)
    requires path == "reviews[  0]"
    ensures AccessorFor(path, ModelAccess) == Failure(SyntaxError(8, ExpectedNumber))
  {
    assert IsName("reviews");
    RendersName("reviews");
    IndexWithoutNumberRejected([First("reviews")], "", "  0]", ModelAccess);
    assert "reviews" + ("[" + "" + "  0]") == path;
  }

  /** and just before `]`. */
  lemma TrailingIndexPaddingRefused(path: string)
    requires path == "reviews[0  ]"
    ensures AccessorFor(path, ModelAccess) == Failure(SyntaxError(9, ExpectedChar(']')))
  {
    assert IsName("reviews");
    RendersName("reviews");
    IndexUnclosedRejected([First("reviews")], "0", "  ]", ModelAccess);
    assert "reviews" + ("[" + "0" + "  ]") == path;
  }

  // ---------------------------------------------------------------------
  // The fixture
  // ---------------------------------------------------------------------

  const Product: nat := 0
  const Manufacturer1: nat := 1
  const Manufacturer2: nat := 2
  const Review1: nat := 3
  const Review2: nat := 4
  const Review3: nat := 5
  const NewReview: nat := 6     // created by the test that adds a review
  const Reviews: nat := 0       // the product's review collection
  const Tags: nat := 0          // the product's tag array
  const Phones1: nat := 1       // manufacturer 1's phone array
  const Phones2: nat := 2       // manufacturer 2's phone array
  const Address1: nat := 0      // manufacturer 1's address object
  const Phone1: nat := 1        // manufacturer 1's first phone object
  const Fax1: nat := 2          // manufacturer 1's second phone object
  const Address2: nat := 3      // manufacturer 2's address object
  const Phone2: nat := 4
  const Fax2: nat := 5

  /** What both test files lay out and read: the product's name, its
      manufacturer and its review collection (in date order already), the
      two manufacturers' names and the reviews' titles. Codes and dates are
      left free. */
  predicate IsSharedFixture(g: Graph) {
    ProductLaidOut(g) && MakersLaidOut(g) && ReviewsLaidOut(g)
  }

  /** The modelAccess tests' fixture, as far as those tests read it: the
      shared part, the product's tags and its own property `notAnAttr`, and
      the first manufacturer's address and first phone. The rest of the
      phone array and the second manufacturer's address and phones are
      left free. */
  predicate IsAccessFixture(g: Graph) {
    IsSharedFixture(g) && ExtrasLaidOut(g) && ObjectsLaidOut(g)
  }

  predicate ProductLaidOut(g: Graph) {
    AttrOf(g, Product, "name") == Str("Product 1") &&
    AttrOf(g, Product, "manufacturer") == ModelRef(Manufacturer1) &&
    AttrOf(g, Product, "reviews") == CollRef(Reviews) &&
    PropOf(g, Product, "name") == Undefined &&
    PropOf(g, Product, "manufacturer") == Undefined
  }

  predicate MakersLaidOut(g: Graph) {
    AttrOf(g, Manufacturer1, "name") == Str("Manufacturer 1") &&
    AttrOf(g, Manufacturer2, "name") == Str("Manufacturer 2")
  }

  predicate ReviewsLaidOut(g: Graph) {
    Items(g, Reviews) == [Review1, Review2, Review3] &&
    AttrOf(g, Review1, "title") == Str("Review 1") &&
    AttrOf(g, Review2, "title") == Str("Review 2") &&
    AttrOf(g, Review3, "title") == Str("Review 3") &&
    AttrOf(g, NewReview, "title") == Str("New Review!")
  }

  predicate ExtrasLaidOut(g: Graph) {
    AttrOf(g, Product, "tags") == ArrRef(Tags) &&
    AttrOf(g, Product, "notAnAttr") == Undefined &&
    AttrOf(g, Product, "newAttr") == Undefined &&
    PropOf(g, Product, "notAnAttr") == Str("Not an attr") &&
    !HasProp(g, Product, "newAttr") &&
    AttrOf(g, Manufacturer1, "address") == ObjRef(Address1) &&
    AttrOf(g, Manufacturer1, "phones") == ArrRef(Phones1)
  }

  predicate ObjectsLaidOut(g: Graph) {
    FieldOf(g, Address1, "street") == Str("Larch Grove") &&
    Elements(g, Tags) == [Str("tag1"), Str("tag2"), Str("tag3")] &&
    |Elements(g, Phones1)| >= 1 && Elements(g, Phones1)[0] == ObjRef(Phone1) &&
    FieldOf(g, Phone1, "number") == Str("0181 123 567")
  }

  /** The modelAttrAccessor tests' fixture: no tags, no own properties, and
      manufacturers with a code and a name only. */
  function AttrFixture(): Graph {
    Graph(SharedModels(AttrProduct(), AttrMaker("M1", "Manufacturer 1"), AttrMaker("M2", "Manufacturer 2")),
          map[Reviews := [Review1, Review2, Review3]], map[], map[])
  }

  /** The modelAccess tests' fixture, with both phone arrays in full. */
  function AccessFixture(): Graph {
    Graph(SharedModels(AccessProduct(), AccessMaker1(), AccessMaker2()),
          map[Reviews := [Review1, Review2, Review3]], AccessObjects(), AccessArrays())
  }

  function SharedModels(product: ModelObj, maker1: ModelObj, maker2: ModelObj): map<nat, ModelObj> {
    map[
      Product := product,
      Manufacturer1 := maker1,
      Manufacturer2 := maker2,
      Review1 := Titled("Review 1"),
      Review2 := Titled("Review 2"),
      Review3 := Titled("Review 3"),
      NewReview := Titled("New Review!")]
  }

  function Titled(title: string): ModelObj { ModelObj(map["title" := Str(title)], map[]) }

  function AttrProduct(): ModelObj {
    ModelObj(
      map["code" := Str("P1"), "name" := Str("Product 1"), "manufacturer" := ModelRef(Manufacturer1),
          "reviews" := CollRef(Reviews)],
      map[])
  }

  function AttrMaker(code: string, name: string): ModelObj {
    ModelObj(map["code" := Str(code), "name" := Str(name)], map[])
  }

  function AccessProduct(): ModelObj {
    ModelObj(
      map["code" := Str("P1"), "name" := Str("Product 1"), "manufacturer" := ModelRef(Manufacturer1),
          "reviews" := CollRef(Reviews), "tags" := ArrRef(Tags)],
      map["notAnAttr" := Str("Not an attr")])
  }

  function AccessMaker1(): ModelObj {
    ModelObj(map["code" := Str("M1"), "name" := Str("Manufacturer 1"),
                 "address" := ObjRef(Address1), "phones" := ArrRef(Phones1)], map[])
  }

  function AccessMaker2(): ModelObj {
    ModelObj(map["code" := Str("M2"), "name" := Str("Manufacturer 2"),
                 "address" := ObjRef(Address2), "phones" := ArrRef(Phones2)], map[])
  }

  function Address(number: int, street: string): map<string, Value> {
    map["number" := Num(number), "street" := Str(street), "CountryCode" := Str("GB")]
  }

  function PhoneObj(kind: string, number: string): map<string, Value> {
    map["type" := Str(kind), "number" := Str(number)]
  }

  function AccessObjects(): map<nat, map<string, Value>> {
    map[
      Address1 := Address(1, "Larch Grove"),
      Phone1 := PhoneObj("phone", "0181 123 567"),
      Fax1 := PhoneObj("fax", "0181 123 569"),
      Address2 := Address(8, "Leopards Parade"),
      Phone2 := PhoneObj("phone", "0181 234 567"),
      Fax2 := PhoneObj("fax", "0181 234 569")]
  }

  function AccessArrays(): map<nat, seq<Value>> {
    map[
      Tags := [Str("tag1"), Str("tag2"), Str("tag3")],
      Phones1 := [ObjRef(Phone1), ObjRef(Fax1)],
      Phones2 := [ObjRef(Phone2), ObjRef(Fax2)]]
  }

  lemma SharedReviews(product: ModelObj, maker1: ModelObj, maker2: ModelObj,
                       objs: map<nat, map<string, Value>>, arrs: map<nat, seq<Value>>)
    ensures ReviewsLaidOut(Graph(SharedModels(product, maker1, maker2), map[Reviews := [Review1, Review2, Review3]], objs, arrs))
  {
    var ms := SharedModels(product, maker1, maker2);
    assert ms[Review1] == Titled("Review 1");
    assert ms[Review2] == Titled("Review 2");
    assert ms[Review3] == Titled("Review 3");
    assert ms[NewReview] == Titled("New Review!");
  }

  lemma SharedLayout(product: ModelObj, maker1: ModelObj, maker2: ModelObj,
                      objs: map<nat, map<string, Value>>, arrs: map<nat, seq<Value>>)
    requires "name" in product.attrs && product.attrs["name"] == Str("Product 1")
    requires "manufacturer" in product.attrs && product.attrs["manufacturer"] == ModelRef(Manufacturer1)
    requires "reviews" in product.attrs && product.attrs["reviews"] == CollRef(Reviews)
    requires "name" !in product.props && "manufacturer" !in product.props
    requires "name" in maker1.attrs && maker1.attrs["name"] == Str("Manufacturer 1")
    requires "name" in maker2.attrs && maker2.attrs["name"] == Str("Manufacturer 2")
    ensures IsSharedFixture(Graph(SharedModels(product, maker1, maker2), map[Reviews := [Review1, Review2, Review3]], objs, arrs))
  {
    var g := Graph(SharedModels(product, maker1, maker2), map[Reviews := [Review1, Review2, Review3]], objs, arrs);
    assert g.models[Product] == product;
    assert g.models[Manufacturer1] == maker1;
    assert g.models[Manufacturer2] == maker2;
    SharedReviews(product, maker1, maker2, objs, arrs);
  }

  lemma AttrProductKeys()
    ensures var a := AttrProduct().attrs;
      "name" in a && a["name"] == Str("Product 1") &&
      "manufacturer" in a && a["manufacturer"] == ModelRef(Manufacturer1) &&
      "reviews" in a && a["reviews"] == CollRef(Reviews) && "tags" !in a
  {
  }

  lemma AccessProductKeys()
    ensures var a := AccessProduct().attrs;
      "name" in a && a["name"] == Str("Product 1") &&
      "manufacturer" in a && a["manufacturer"] == ModelRef(Manufacturer1) &&
      "reviews" in a && a["reviews"] == CollRef(Reviews) &&
      "tags" in a && a["tags"] == ArrRef(Tags) && "notAnAttr" !in a && "newAttr" !in a
  {
  }

  lemma AccessProductProps()
    ensures var p := AccessProduct().props;
      "notAnAttr" in p && p["notAnAttr"] == Str("Not an attr") &&
      "name" !in p && "manufacturer" !in p && "newAttr" !in p
  {
  }

  lemma AccessMaker1Keys()
    ensures var a := AccessMaker1().attrs;
      "name" in a && a["name"] == Str("Manufacturer 1") &&
      "address" in a && a["address"] == ObjRef(Address1) &&
      "phones" in a && a["phones"] == ArrRef(Phones1)
  {
  }

  /** The modelAttrAccessor tests' graph has the shared layout, and none of
      the product's tags or own properties. */
  lemma AttrFixtureIsShared()
    ensures IsSharedFixture(AttrFixture())
    ensures !HasAttr(AttrFixture(), Product, "tags") && !HasProp(AttrFixture(), Product, "notAnAttr")
  {
    AttrProductKeys();
    assert AttrMaker("M1", "Manufacturer 1").attrs["name"] == Str("Manufacturer 1");
    assert AttrMaker("M2", "Manufacturer 2").attrs["name"] == Str("Manufacturer 2");
    SharedLayout(AttrProduct(), AttrMaker("M1", "Manufacturer 1"), AttrMaker("M2", "Manufacturer 2"), map[], map[]);
    assert AttrFixture().models[Product] == AttrProduct();
  }

  lemma AccessExtras()
    ensures ExtrasLaidOut(AccessFixture())
  {
    var g := AccessFixture();
    assert g.models[Product] == AccessProduct();
    assert g.models[Manufacturer1] == AccessMaker1();
    AccessProductKeys();
    AccessProductProps();
    AccessMaker1Keys();
  }

  lemma AccessObjectsLaidOut()
    ensures ObjectsLaidOut(AccessFixture())
    ensures Elements(AccessFixture(), Phones1) == [ObjRef(Phone1), ObjRef(Fax1)]
  {
    var g := AccessFixture();
    assert g.objs[Address1] == Address(1, "Larch Grove");
    assert g.objs[Phone1] == PhoneObj("phone", "0181 123 567");
  }

  /** The modelAccess tests' graph, with its two-element phone arrays, has
      the modelAccess layout. */
  lemma AccessFixtureIsFixture()
    ensures IsAccessFixture(AccessFixture())
    ensures Elements(AccessFixture(), Phones1) == [ObjRef(Phone1), ObjRef(Fax1)]
  {
    AccessProductKeys();
    AccessProductProps();
    AccessMaker1Keys();
    assert AccessMaker2().attrs["name"] == Str("Manufacturer 2");
    SharedLayout(AccessProduct(), AccessMaker1(), AccessMaker2(), AccessObjects(), AccessArrays());
    AccessExtras();
    AccessObjectsLaidOut();
  }


  // ---------------------------------------------------------------------
  // Reading through an accessor
  // ---------------------------------------------------------------------

  /** The tests' `get` helper: build the accessor, then read. */
  function Read(api: Api, path: string, g: Graph, target: Value): Result<Value, TrackerError> {
    match AccessorFor(path, api)
    case Failure(e) => Failure(Syntax(e))
    case Success(l) =>
      match Get(api, l, g, target)
      case Failure(e) => Failure(Access(e))
      case Success(v) => Success(v)
  }

  // One link of a chain, resolved: the step lemmas below let a proof walk
  // a chain one link at a time.

  /** An attribute the model has. */
  lemma AttrLink(api: Api, p: Link, n: Node, g: Graph, target: Value, m: nat)
    requires Get(api, p, g, target) == Success(ModelRef(m)) && n.AttributeAccess? && HasAttr(g, m, n.name)
    ensures Get(api, Step(p, n), g, target) == Success(AttrOf(g, m, n.name))
  {
  }

  /** A plain object's field (`modelAccess`). */
  lemma FieldLink(p: Link, n: Node, g: Graph, target: Value, o: nat)
    requires Get(ModelAccess, p, g, target) == Success(ObjRef(o)) && n.AttributeAccess?
    ensures Get(ModelAccess, Step(p, n), g, target) == Success(FieldOf(g, o, n.name))
  {
  }

  /** `ModelAttrAccessor` reads an attribute of nothing but a model. */
  lemma NotAModelLink(p: Link, n: Node, g: Graph, target: Value, v: Value)
    requires Get(ModelAttrAccessor, p, g, target) == Success(v) && !v.ModelRef? && !Falsy(v) && n.AttributeAccess?
    ensures Get(ModelAttrAccessor, Step(p, n), g, target) == Failure(NotAModel(n.text))
  {
  }

  /** The `length` of an array or a collection (`modelAccess`). */
  lemma LengthLink(p: Link, g: Graph, target: Value)
    requires Get(ModelAccess, p, g, target).Success?
    requires Get(ModelAccess, p, g, target).value.ArrRef? || Get(ModelAccess, p, g, target).value.CollRef?
    ensures var v := Get(ModelAccess, p, g, target).value;
      Get(ModelAccess, Step(p, Dot("length")), g, target)
        == Success(Num(if v.ArrRef? then |Elements(g, v.a)| else |Items(g, v.c)|))
  {
  }

  /** A collection's model at an index in range. */
  lemma CollItemLink(api: Api, p: Link, i: nat, g: Graph, target: Value, c: nat)
    requires i < 10 && Get(api, p, g, target) == Success(CollRef(c)) && i < |Items(g, c)|
    ensures Get(api, Step(p, Index(i)), g, target) == Success(ModelRef(Items(g, c)[i]))
  {
  }

  /** An array's element. */
  lemma ArrItemLink(api: Api, p: Link, i: nat, g: Graph, target: Value, a: nat)
    requires i < 10 && Get(api, p, g, target) == Success(ArrRef(a))
    ensures Get(api, Step(p, Index(i)), g, target) == Success(Element(g, a, i))
  {
  }

  /** Reading a path through an accessor already built. */
  lemma ReadVia(api: Api, path: string, l: Link, g: Graph, target: Value)
    requires AccessorFor(path, api) == Success(l)
    ensures Get(api, l, g, target).Success? ==> Read(api, path, g, target) == Success(Get(api, l, g, target).value)
    ensures Get(api, l, g, target).Failure? ==> Read(api, path, g, target) == Failure(Access(Get(api, l, g, target).error))
  {
  }

  lemma GetAttrOfTarget(g: Graph, api: Api, path: string)
    requires IsSharedFixture(g) && (path == "name" || path == "  name" || path == "name  ")
    ensures Read(api, path, g, ModelRef(Product)) == Success(Str("Product 1"))
  {
    NameAccessor(path, api);
    AttrLink(api, Root, First("name"), g, ModelRef(Product), Product);
    ReadVia(api, path, NameOf(), g, ModelRef(Product));
  }

  lemma ManufacturerNameRead(g: Graph, api: Api)
    requires IsSharedFixture(g)
    ensures Get(api, ManufacturerName(), g, ModelRef(Product)) == Success(Str("Manufacturer 1"))
  {
    AttrLink(api, Root, First("manufacturer"), g, ModelRef(Product), Product);
    AttrLink(api, Manufacturer(), Dot("name"), g, ModelRef(Product), Manufacturer1);
  }

  lemma GetAttrOfNestedModel(g: Graph, api: Api, path: string)
    requires IsSharedFixture(g) && path == "manufacturer.name"
    ensures Read(api, path, g, ModelRef(Product)) == Success(Str("Manufacturer 1"))
  {
    ManufacturerNameAccessor(path, api);
    ManufacturerNameRead(g, api);
    ReadVia(api, path, ManufacturerName(), g, ModelRef(Product));
  }

  /** The second review through the collection, as both dialects read it. */
  lemma ReviewTitleRead(g: Graph, api: Api)
    requires IsSharedFixture(g)
    ensures Get(api, ReviewTitle(), g, ModelRef(Product)) == Success(Str("Review 2"))
  {
    AttrLink(api, Root, First("reviews"), g, ModelRef(Product), Product);
    CollItemLink(api, ReviewsOf(), 1, g, ModelRef(Product), Reviews);
    AttrLink(api, ReviewItem(), Dot("title"), g, ModelRef(Product), Review2);
  }

  lemma GetAttrOfModelInNestedCollection(g: Graph, api: Api, path: string)
    requires IsSharedFixture(g) && path == "reviews[1].title"
    ensures Read(api, path, g, ModelRef(Product)) == Success(Str("Review 2"))
  {
    ReviewTitleAccessor(path, api);
    ReviewTitleRead(g, api);
    ReadVia(api, path, ReviewTitle(), g, ModelRef(Product));
  }

  /** `ModelAttrAccessor` also reads the item with whitespace around its index. */
  lemma GetWithPaddedIndex(g: Graph, path: string)
    requires IsSharedFixture(g) && path == "reviews[ 1 ].title"
    ensures Read(ModelAttrAccessor, path, g, ModelRef(Product)) == Success(Str("Review 2"))
  {
    PaddedIndexAccessor(path);
    ReviewTitleRead(g, ModelAttrAccessor);
    ReadVia(ModelAttrAccessor, path, ReviewTitle(), g, ModelRef(Product));
  }

  lemma ItemTitleRead(g: Graph, api: Api)
    requires IsSharedFixture(g)
    ensures Get(api, ItemTitle(), g, CollRef(Reviews)) == Success(Str("Review 2"))
  {
    CollItemLink(api, Root, 1, g, CollRef(Reviews), Reviews);
    AttrLink(api, Step(Root, Index(1)), Dot("title"), g, CollRef(Reviews), Review2);
  }

  lemma GetAttrOfModelInTargetCollection(g: Graph, api: Api, path: string)
    requires IsSharedFixture(g) && path == "[1].title"
    ensures Read(api, path, g, CollRef(Reviews)) == Success(Str("Review 2"))
  {
    ItemTitleAccessor(path, api);
    ItemTitleRead(g, api);
    ReadVia(api, path, ItemTitle(), g, CollRef(Reviews));
  }

  /** A model's own property: `modelAccess` reads it, `ModelAttrAccessor`
      reads only attributes. */
  lemma NotAnAttrLink(g: Graph)
    requires AttrOf(g, Product, "notAnAttr") == Undefined && PropOf(g, Product, "notAnAttr") == Str("Not an attr")
    ensures Get(ModelAccess, NotAnAttr(), g, ModelRef(Product)) == Success(Str("Not an attr"))
    ensures Get(ModelAttrAccessor, NotAnAttr(), g, ModelRef(Product)) == Success(Undefined)
  {
  }

  lemma GetNonAttrProperty(g: Graph, path: string)
    requires IsAccessFixture(g) && path == "notAnAttr"
    ensures Read(ModelAccess, path, g, ModelRef(Product)) == Success(Str("Not an attr"))
    ensures Read(ModelAttrAccessor, path, g, ModelRef(Product)) == Success(Undefined)
  {
    NotAnAttrAccessor(path, ModelAccess);
    NotAnAttrAccessor(path, ModelAttrAccessor);
    NotAnAttrLink(g);
    ReadVia(ModelAccess, path, NotAnAttr(), g, ModelRef(Product));
    ReadVia(ModelAttrAccessor, path, NotAnAttr(), g, ModelRef(Product));
  }

  lemma GetNonModelAttrOfNestedModel(g: Graph, path: string)
    requires IsAccessFixture(g) && path == "manufacturer.address"
    ensures Read(ModelAccess, path, g, ModelRef(Product)) == Success(ObjRef(Address1))
  {
    ManufacturerAddressAccessor(path, ModelAccess);
    AttrLink(ModelAccess, Root, First("manufacturer"), g, ModelRef(Product), Product);
    AttrLink(ModelAccess, Manufacturer(), Dot("address"), g, ModelRef(Product), Manufacturer1);
    ReadVia(ModelAccess, path, ManufacturerAddress(), g, ModelRef(Product));
  }

  lemma StreetRead(g: Graph)
    requires IsAccessFixture(g)
    ensures Get(ModelAccess, Street(), g, ModelRef(Product)) == Success(Str("Larch Grove"))
    ensures Get(ModelAttrAccessor, Street(), g, ModelRef(Product)) == Failure(NotAModel(".street"))
  {
    AttrLink(ModelAccess, Root, First("manufacturer"), g, ModelRef(Product), Product);
    AttrLink(ModelAccess, Manufacturer(), Dot("address"), g, ModelRef(Product), Manufacturer1);
    FieldLink(ManufacturerAddress(), Dot("street"), g, ModelRef(Product), Address1);
    AttrLink(ModelAttrAccessor, Root, First("manufacturer"), g, ModelRef(Product), Product);
    AttrLink(ModelAttrAccessor, Manufacturer(), Dot("address"), g, ModelRef(Product), Manufacturer1);
    NotAModelLink(ManufacturerAddress(), Dot("street"), g, ModelRef(Product), ObjRef(Address1));
    assert Dot("street").text == ".street";
  }

  /** A plain object's field: `modelAccess` reads it, `ModelAttrAccessor`
      reads through nothing but models. */
  lemma GetPropertyOfNonModelAttr(g: Graph, path: string)
    requires IsAccessFixture(g) && path == "manufacturer.address.street"
    ensures Read(ModelAccess, path, g, ModelRef(Product)) == Success(Str("Larch Grove"))
    ensures Read(ModelAttrAccessor, path, g, ModelRef(Product)) == Failure(Access(NotAModel(".street")))
  {
    StreetAccessor(path, ModelAccess);
    StreetAccessor(path, ModelAttrAccessor);
    StreetRead(g);
    ReadVia(ModelAccess, path, Street(), g, ModelRef(Product));
    ReadVia(ModelAttrAccessor, path, Street(), g, ModelRef(Product));
  }

  lemma GetStringInArray(g: Graph, path: string)
    requires IsAccessFixture(g) && path == "tags[1]"
    ensures Read(ModelAccess, path, g, ModelRef(Product)) == Success(Str("tag2"))
  {
    ItemAccessor(path, ModelAccess);
    AttrLink(ModelAccess, Root, First("tags"), g, ModelRef(Product), Product);
    ArrItemLink(ModelAccess, Step(Root, First("tags")), 1, g, ModelRef(Product), Tags);
    ReadVia(ModelAccess, path, Tag1(), g, ModelRef(Product));
  }

  lemma LengthRead(g: Graph)
    requires IsAccessFixture(g)
    ensures Get(ModelAccess, TagsLength(), g, ModelRef(Product)) == Success(Num(3))
    ensures Get(ModelAccess, ReviewsLength(), g, ModelRef(Product)) == Success(Num(3))
    ensures Get(ModelAttrAccessor, TagsLength(), g, ModelRef(Product)) == Failure(NotAModel(".length"))
    ensures Get(ModelAttrAccessor, ReviewsLength(), g, ModelRef(Product)) == Failure(NotAModel(".length"))
  {
    TagsLengthRead(g);
    ReviewsLengthRead(g);
  }

  lemma TagsLengthRead(g: Graph)
    requires AttrOf(g, Product, "tags") == ArrRef(Tags) && |Elements(g, Tags)| == 3
    ensures Get(ModelAccess, TagsLength(), g, ModelRef(Product)) == Success(Num(3))
    ensures Get(ModelAttrAccessor, TagsLength(), g, ModelRef(Product)) == Failure(NotAModel(".length"))
  {
    AttrLink(ModelAccess, Root, First("tags"), g, ModelRef(Product), Product);
    AttrLink(ModelAttrAccessor, Root, First("tags"), g, ModelRef(Product), Product);
    LengthLink(Step(Root, First("tags")), g, ModelRef(Product));
    NotAModelLink(Step(Root, First("tags")), Dot("length"), g, ModelRef(Product), ArrRef(Tags));
    assert Dot("length").text == ".length";
  }

  lemma ReviewsLengthRead(g: Graph)
    requires AttrOf(g, Product, "reviews") == CollRef(Reviews) && |Items(g, Reviews)| == 3
    ensures Get(ModelAccess, ReviewsLength(), g, ModelRef(Product)) == Success(Num(3))
    ensures Get(ModelAttrAccessor, ReviewsLength(), g, ModelRef(Product)) == Failure(NotAModel(".length"))
  {
    AttrLink(ModelAccess, Root, First("reviews"), g, ModelRef(Product), Product);
    AttrLink(ModelAttrAccessor, Root, First("reviews"), g, ModelRef(Product), Product);
    LengthLink(ReviewsOf(), g, ModelRef(Product));
    NotAModelLink(ReviewsOf(), Dot("length"), g, ModelRef(Product), CollRef(Reviews));
    assert Dot("length").text == ".length";
  }

  /** The `length` of an array and of a collection: `modelAccess` reads
      both, `ModelAttrAccessor` refuses. */
  lemma GetLength(g: Graph, path: string)
    requires IsAccessFixture(g) && (path == "tags.length" || path == "reviews.length")
    ensures Read(ModelAccess, path, g, ModelRef(Product)) == Success(Num(3))
    ensures Read(ModelAttrAccessor, path, g, ModelRef(Product)) == Failure(Access(NotAModel(".length")))
  {
    LengthAccessor(path, ModelAccess);
    LengthAccessor(path, ModelAttrAccessor);
    LengthRead(g);
    var l := if path == "tags.length" then TagsLength() else ReviewsLength();
    ReadVia(ModelAccess, path, l, g, ModelRef(Product));
    ReadVia(ModelAttrAccessor, path, l, g, ModelRef(Product));
  }

  lemma PhoneNumberRead(g: Graph)
    requires IsAccessFixture(g)
    ensures Get(ModelAccess, FirstPhoneNumber(), g, ModelRef(Product)) == Success(Str("0181 123 567"))
  {
    AttrLink(ModelAccess, Root, First("manufacturer"), g, ModelRef(Product), Product);
    AttrLink(ModelAccess, Manufacturer(), Dot("phones"), g, ModelRef(Product), Manufacturer1);
    ArrItemLink(ModelAccess, Step(Manufacturer(), Dot("phones")), 0, g, ModelRef(Product), Phones1);
    FieldLink(FirstPhone(), Dot("number"), g, ModelRef(Product), Phone1);
  }

  lemma GetPropertyOfObjectInNestedArray(g: Graph, path: string)
    requires IsAccessFixture(g) && path == "manufacturer.phones[0].number"
    ensures Read(ModelAccess, path, g, ModelRef(Product)) == Success(Str("0181 123 567"))
  {
    PhoneNumberAccessor(path, ModelAccess);
    PhoneNumberRead(g);
    ReadVia(ModelAccess, path, FirstPhoneNumber(), g, ModelRef(Product));
  }

  // ---------------------------------------------------------------------
  // Writing through an accessor (`modelAccess`)
  // ---------------------------------------------------------------------

  /** The tests' `set` helper: build the accessor, then write; the result
      is the graph afterwards. */
  function Write(path: string, g: Graph, target: Value, v: Value): Result<Graph, TrackerError> {
    match AccessorFor(path, ModelAccess)
    case Failure(e) => Failure(Syntax(e))
    case Success(l) =>
      match Set(l, g, target, v)
      case Failure(e) => Failure(Access(e))
      case Success(mu) => Success(Apply(g, mu))
  }

  /** What the `set` helper expects: the write succeeds and reads back. */
  predicate ReadsBack(path: string, g: Graph, target: Value, v: Value) {
    Write(path, g, target, v).Success? && Read(ModelAccess, path, Write(path, g, target, v).value, target) == Success(v)
  }

  lemma WriteVia(path: string, l: Link, g: Graph, target: Value, v: Value)
    requires AccessorFor(path, ModelAccess) == Success(l)
    ensures Set(l, g, target, v).Success? ==> Write(path, g, target, v) == Success(Apply(g, Set(l, g, target, v).value))
    ensures Set(l, g, target, v).Failure? ==> Write(path, g, target, v) == Failure(Access(Set(l, g, target, v).error))
  {
  }

  /** The locations a chain reads grow by its last link's own reads. */
  lemma ReadsOfLink(api: Api, p: Link, n: Node, g: Graph, target: Value, v: Value)
    requires Get(api, p, g, target) == Success(v)
    ensures Reads(api, Step(p, n), g, target) == Reads(api, p, g, target) + OwnReads(api, v, n)
  {
  }

  /** A write that touches nothing its parent chain reads reads back
      (`Accessor.SetThenGet`, through the helpers). */
  lemma ReadBackVia(path: string, l: Link, g: Graph, target: Value, v: Value, mu: Mutation)
    requires AccessorFor(path, ModelAccess) == Success(l) && l.Step?
    requires Set(l, g, target, v) == Success(mu) && Writes(mu) !! Reads(ModelAccess, l.parent, g, target)
    requires v != Undefined && v != Null
    ensures Write(path, g, target, v) == Success(Apply(g, mu)) && ReadsBack(path, g, target, v)
  {
    SetThenGet(l, g, target, v);
    WriteVia(path, l, g, target, v);
    ReadVia(ModelAccess, path, l, Apply(g, mu), target);
  }

  /** The links the writes below pass through: what each yields on the
      fixture and which locations reading it depends on. */
  lemma ManufacturerLinkReads(g: Graph)
    requires IsSharedFixture(g)
    ensures Get(ModelAccess, Manufacturer(), g, ModelRef(Product)) == Success(ModelRef(Manufacturer1))
    ensures Reads(ModelAccess, Manufacturer(), g, ModelRef(Product)) == {AttrLoc(Product, "manufacturer"), PropLoc(Product, "manufacturer")}
  {
    AttrLink(ModelAccess, Root, First("manufacturer"), g, ModelRef(Product), Product);
    ReadsOfLink(ModelAccess, Root, First("manufacturer"), g, ModelRef(Product), ModelRef(Product));
  }

  lemma AddressLinkReads(g: Graph)
    requires IsAccessFixture(g)
    ensures Get(ModelAccess, ManufacturerAddress(), g, ModelRef(Product)) == Success(ObjRef(Address1))
    ensures Reads(ModelAccess, ManufacturerAddress(), g, ModelRef(Product)) ==
      {AttrLoc(Product, "manufacturer"), PropLoc(Product, "manufacturer"), AttrLoc(Manufacturer1, "address"), PropLoc(Manufacturer1, "address")}
  {
    ManufacturerLinkReads(g);
    AttrLink(ModelAccess, Manufacturer(), Dot("address"), g, ModelRef(Product), Manufacturer1);
    ReadsOfLink(ModelAccess, Manufacturer(), Dot("address"), g, ModelRef(Product), ModelRef(Manufacturer1));
  }

  lemma PhonesLinkReads(g: Graph)
    requires IsAccessFixture(g)
    ensures Get(ModelAccess, Phones(), g, ModelRef(Product)) == Success(ArrRef(Phones1))
    ensures Reads(ModelAccess, Phones(), g, ModelRef(Product)) ==
      {AttrLoc(Product, "manufacturer"), PropLoc(Product, "manufacturer"), AttrLoc(Manufacturer1, "phones"), PropLoc(Manufacturer1, "phones")}
  {
    ManufacturerLinkReads(g);
    AttrLink(ModelAccess, Manufacturer(), Dot("phones"), g, ModelRef(Product), Manufacturer1);
    ReadsOfLink(ModelAccess, Manufacturer(), Dot("phones"), g, ModelRef(Product), ModelRef(Manufacturer1));
  }

  lemma FirstPhoneLinkReads(g: Graph)
    requires IsAccessFixture(g)
    ensures Get(ModelAccess, FirstPhone(), g, ModelRef(Product)) == Success(ObjRef(Phone1))
    ensures Reads(ModelAccess, FirstPhone(), g, ModelRef(Product)) ==
      {AttrLoc(Product, "manufacturer"), PropLoc(Product, "manufacturer"), AttrLoc(Manufacturer1, "phones"), PropLoc(Manufacturer1, "phones"), ArrLoc(Phones1)}
  {
    PhonesLinkReads(g);
    ArrItemLink(ModelAccess, Phones(), 0, g, ModelRef(Product), Phones1);
    ReadsOfLink(ModelAccess, Phones(), Index(0), g, ModelRef(Product), ArrRef(Phones1));
  }

  lemma TagsLinkReads(g: Graph)
    requires IsAccessFixture(g)
    ensures Get(ModelAccess, TagsOf(), g, ModelRef(Product)) == Success(ArrRef(Tags))
    ensures Reads(ModelAccess, TagsOf(), g, ModelRef(Product)) == {AttrLoc(Product, "tags"), PropLoc(Product, "tags")}
  {
    AttrLink(ModelAccess, Root, First("tags"), g, ModelRef(Product), Product);
    ReadsOfLink(ModelAccess, Root, First("tags"), g, ModelRef(Product), ModelRef(Product));
  }

  lemma ReviewItemLinkReads(g: Graph)
    requires IsSharedFixture(g)
    ensures Get(ModelAccess, ReviewItem(), g, ModelRef(Product)) == Success(ModelRef(Review2))
    ensures Reads(ModelAccess, ReviewItem(), g, ModelRef(Product)) == {AttrLoc(Product, "reviews"), PropLoc(Product, "reviews"), CollLoc(Reviews)}
  {
    AttrLink(ModelAccess, Root, First("reviews"), g, ModelRef(Product), Product);
    ReadsOfLink(ModelAccess, Root, First("reviews"), g, ModelRef(Product), ModelRef(Product));
    CollItemLink(ModelAccess, ReviewsOf(), 1, g, ModelRef(Product), Reviews);
    ReadsOfLink(ModelAccess, ReviewsOf(), Index(1), g, ModelRef(Product), CollRef(Reviews));
  }

  /** The write `set` makes on a model's name. */
  lemma ModelSetLink(p: Link, n: Node, g: Graph, target: Value, m: nat, v: Value)
    requires Get(ModelAccess, p, g, target) == Success(ModelRef(m)) && n.AttributeAccess?
    ensures Set(Step(p, n), g, target, v) == Success(
      if !HasAttr(g, m, n.name) && HasProp(g, m, n.name) && !PropOf(g, m, n.name).Fn? then SetProp(m, n.name, v)
      else SetAttr(m, n.name, v))
  {
  }

  /** The write `set` makes on an element of an array. */
  lemma ArraySetLink(p: Link, i: nat, g: Graph, target: Value, a: nat, v: Value)
    requires i < 10 && Get(ModelAccess, p, g, target) == Success(ArrRef(a))
    ensures Set(Step(p, Index(i)), g, target, v) == Success(SetElement(a, i, v))
  {
  }

  /** The write `set` makes on a plain object's field. */
  lemma FieldSetLink(p: Link, n: Node, g: Graph, target: Value, o: nat, v: Value)
    requires Get(ModelAccess, p, g, target) == Success(ObjRef(o)) && n.AttributeAccess?
    ensures Set(Step(p, n), g, target, v) == Success(SetField(o, n.name, v))
  {
  }

  /** Writing one location leaves a set of read locations alone when it
      is not among them. */
  lemma AttrWriteApart(m: nat, name: string, v: Value, r: set<Loc>)
    requires AttrLoc(m, name) !in r
    ensures Writes(SetAttr(m, name, v)) !! r
  {
  }

  lemma FieldWriteApart(o: nat, name: string, v: Value, r: set<Loc>)
    requires FieldLoc(o, name) !in r
    ensures Writes(SetField(o, name, v)) !! r
  {
  }

  lemma ElementWriteApart(a: nat, i: nat, v: Value, r: set<Loc>)
    requires ArrLoc(a) !in r
    ensures Writes(SetElement(a, i, v)) !! r
  {
  }

  /** The product's own attribute `name` written: it holds a value, or no
      property of that name exists. */
  lemma RootAttrWrite(name: string, g: Graph, v: Value)
    requires HasAttr(g, Product, name) || !HasProp(g, Product, name)
    ensures Set(Step(Root, First(name)), g, ModelRef(Product), v) == Success(SetAttr(Product, name, v))
    ensures Writes(SetAttr(Product, name, v)) !! Reads(ModelAccess, Root, g, ModelRef(Product))
  {
    ModelSetLink(Root, First(name), g, ModelRef(Product), Product, v);
  }

  /** The product's property `name` written: no attribute holds a value
      under that name, and the property is not a method. */
  lemma RootPropWrite(name: string, g: Graph, v: Value)
    requires !HasAttr(g, Product, name) && HasProp(g, Product, name) && !PropOf(g, Product, name).Fn?
    ensures Set(Step(Root, First(name)), g, ModelRef(Product), v) == Success(SetProp(Product, name, v))
    ensures Writes(SetProp(Product, name, v)) !! Reads(ModelAccess, Root, g, ModelRef(Product))
  {
    ModelSetLink(Root, First(name), g, ModelRef(Product), Product, v);
  }

  lemma SetAttrOfTarget(g: Graph, path: string)
    requires IsSharedFixture(g) && path == "name"
    ensures ReadsBack(path, g, ModelRef(Product), Str("New Name!"))
    ensures Write(path, g, ModelRef(Product), Str("New Name!")).value == Apply(g, SetAttr(Product, "name", Str("New Name!")))
  {
    var v := Str("New Name!");
    NameAccessor(path, ModelAccess);
    assert HasAttr(g, Product, "name");
    RootAttrWrite("name", g, v);
    ReadBackVia(path, NameOf(), g, ModelRef(Product), v, SetAttr(Product, "name", v));
  }

  /** A property that is no attribute is written as a property. */
  lemma SetNonAttrProperty(g: Graph, path: string)
    requires IsAccessFixture(g) && path == "notAnAttr"
    ensures ReadsBack(path, g, ModelRef(Product), Str("New Value!"))
    ensures Write(path, g, ModelRef(Product), Str("New Value!")).value == Apply(g, SetProp(Product, "notAnAttr", Str("New Value!")))
  {
    var v := Str("New Value!");
    NotAnAttrAccessor(path, ModelAccess);
    assert !HasAttr(g, Product, "notAnAttr") && HasProp(g, Product, "notAnAttr");
    RootPropWrite("notAnAttr", g, v);
    ReadBackVia(path, NotAnAttr(), g, ModelRef(Product), v, SetProp(Product, "notAnAttr", v));
  }

  lemma NestedNameWrite(g: Graph, v: Value)
    requires Get(ModelAccess, Manufacturer(), g, ModelRef(Product)) == Success(ModelRef(Manufacturer1))
    requires Reads(ModelAccess, Manufacturer(), g, ModelRef(Product)) == {AttrLoc(Product, "manufacturer"), PropLoc(Product, "manufacturer")}
    requires HasAttr(g, Manufacturer1, "name")
    ensures Set(ManufacturerName(), g, ModelRef(Product), v) == Success(SetAttr(Manufacturer1, "name", v))
    ensures Writes(SetAttr(Manufacturer1, "name", v)) !! Reads(ModelAccess, Manufacturer(), g, ModelRef(Product))
  {
    ModelSetLink(Manufacturer(), Dot("name"), g, ModelRef(Product), Manufacturer1, v);
    AttrWriteApart(Manufacturer1, "name", v, Reads(ModelAccess, Manufacturer(), g, ModelRef(Product)));
  }

  lemma SetAttrOfNestedModel(g: Graph, path: string)
    requires IsSharedFixture(g) && path == "manufacturer.name"
    ensures ReadsBack(path, g, ModelRef(Product), Str("New Name!"))
    ensures Write(path, g, ModelRef(Product), Str("New Name!")).value == Apply(g, SetAttr(Manufacturer1, "name", Str("New Name!")))
  {
    var v := Str("New Name!");
    ManufacturerNameAccessor(path, ModelAccess);
    ManufacturerLinkReads(g);
    NestedNameWrite(g, v);
    ReadBackVia(path, ManufacturerName(), g, ModelRef(Product), v, SetAttr(Manufacturer1, "name", v));
  }

  lemma AddressWrite(g: Graph, v: Value)
    requires Get(ModelAccess, Manufacturer(), g, ModelRef(Product)) == Success(ModelRef(Manufacturer1))
    requires Reads(ModelAccess, Manufacturer(), g, ModelRef(Product)) == {AttrLoc(Product, "manufacturer"), PropLoc(Product, "manufacturer")}
    requires HasAttr(g, Manufacturer1, "address")
    ensures Set(ManufacturerAddress(), g, ModelRef(Product), v) == Success(SetAttr(Manufacturer1, "address", v))
    ensures Writes(SetAttr(Manufacturer1, "address", v)) !! Reads(ModelAccess, Manufacturer(), g, ModelRef(Product))
  {
    ModelSetLink(Manufacturer(), Dot("address"), g, ModelRef(Product), Manufacturer1, v);
    AttrWriteApart(Manufacturer1, "address", v, Reads(ModelAccess, Manufacturer(), g, ModelRef(Product)));
  }

  /** Any object `o` put in place of the address. */
  lemma SetNonModelAttrOfNestedModel(g: Graph, path: string, o: nat)
    requires IsAccessFixture(g) && path == "manufacturer.address"
    ensures ReadsBack(path, g, ModelRef(Product), ObjRef(o))
    ensures Write(path, g, ModelRef(Product), ObjRef(o)).value == Apply(g, SetAttr(Manufacturer1, "address", ObjRef(o)))
  {
    ManufacturerAddressAccessor(path, ModelAccess);
    ManufacturerLinkReads(g);
    AddressWrite(g, ObjRef(o));
    ReadBackVia(path, ManufacturerAddress(), g, ModelRef(Product), ObjRef(o), SetAttr(Manufacturer1, "address", ObjRef(o)));
  }

  lemma StreetWrite(g: Graph, v: Value)
    requires Get(ModelAccess, ManufacturerAddress(), g, ModelRef(Product)) == Success(ObjRef(Address1))
    requires Reads(ModelAccess, ManufacturerAddress(), g, ModelRef(Product)) ==
      {AttrLoc(Product, "manufacturer"), PropLoc(Product, "manufacturer"), AttrLoc(Manufacturer1, "address"), PropLoc(Manufacturer1, "address")}
    ensures Set(Street(), g, ModelRef(Product), v) == Success(SetField(Address1, "street", v))
    ensures Writes(SetField(Address1, "street", v)) !! Reads(ModelAccess, ManufacturerAddress(), g, ModelRef(Product))
  {
    FieldSetLink(ManufacturerAddress(), Dot("street"), g, ModelRef(Product), Address1, v);
    FieldWriteApart(Address1, "street", v, Reads(ModelAccess, ManufacturerAddress(), g, ModelRef(Product)));
  }

  lemma SetPropertyOfNonModelAttr(g: Graph, path: string)
    requires IsAccessFixture(g) && path == "manufacturer.address.street"
    ensures ReadsBack(path, g, ModelRef(Product), Str("New Street!"))
    ensures Write(path, g, ModelRef(Product), Str("New Street!")).value == Apply(g, SetField(Address1, "street", Str("New Street!")))
  {
    var v := Str("New Street!");
    StreetAccessor(path, ModelAccess);
    AddressLinkReads(g);
    StreetWrite(g, v);
    ReadBackVia(path, Street(), g, ModelRef(Product), v, SetField(Address1, "street", v));
  }

  /** A name that is neither attribute nor property becomes an attribute. */
  lemma SetNewAttr(g: Graph, path: string)
    requires IsAccessFixture(g) && path == "newAttr"
    ensures ReadsBack(path, g, ModelRef(Product), Str("999999"))
    ensures var h := Write(path, g, ModelRef(Product), Str("999999")).value;
      AttrOf(h, Product, "newAttr") == Str("999999") && PropOf(h, Product, "newAttr") == Undefined
  {
    var v := Str("999999");
    NewAttrAccessor(path, ModelAccess);
    RootAttrWrite("newAttr", g, v);
    ReadBackVia(path, NewAttr(), g, ModelRef(Product), v, SetAttr(Product, "newAttr", v));
    ModelWriteEffect(g, Product, "newAttr", v);
  }

  /** The product with a property `newAttr` holding `w`, and no such attribute. */
  lemma WithNewProp(g: Graph, w: Value, v: Value)
    requires AttrOf(g, Product, "newAttr") == Undefined
    ensures var g1 := Apply(g, SetProp(Product, "newAttr", w));
      HasProp(g1, Product, "newAttr") && !HasAttr(g1, Product, "newAttr") && PropOf(g1, Product, "newAttr") == w
      && Set(NewAttr(), g1, ModelRef(Product), v) == Success(if w.Fn? then SetAttr(Product, "newAttr", v) else SetProp(Product, "newAttr", v))
  {
    var g1 := Apply(g, SetProp(Product, "newAttr", w));
    ModelWriteEffect(g, Product, "newAttr", w);
    ModelSetLink(Root, First("newAttr"), g1, ModelRef(Product), Product, v);
  }

  /** A property of that name, set beforehand, is updated in place: no
      attribute appears. */
  lemma SetExistingProperty(g: Graph, path: string)
    requires IsAccessFixture(g) && path == "newAttr"
    ensures var g1 := Apply(g, SetProp(Product, "newAttr", Str("123")));
      ReadsBack(path, g1, ModelRef(Product), Str("999999")) &&
      (var h := Write(path, g1, ModelRef(Product), Str("999999")).value;
       PropOf(h, Product, "newAttr") == Str("999999") && !HasAttr(h, Product, "newAttr"))
  {
    var v := Str("999999");
    var g1 := Apply(g, SetProp(Product, "newAttr", Str("123")));
    NewAttrAccessor(path, ModelAccess);
    WithNewProp(g, Str("123"), v);
    ReadBackVia(path, NewAttr(), g1, ModelRef(Product), v, SetProp(Product, "newAttr", v));
    ModelWriteEffect(g1, Product, "newAttr", v);
  }

  /** A function property of that name is left alone: the value becomes an
      attribute. */
  lemma SetBesideFunctionProperty(g: Graph, path: string, f: nat)
    requires IsAccessFixture(g) && path == "newAttr"
    ensures var g1 := Apply(g, SetProp(Product, "newAttr", Fn(f)));
      ReadsBack(path, g1, ModelRef(Product), Str("999999")) &&
      (var h := Write(path, g1, ModelRef(Product), Str("999999")).value;
       AttrOf(h, Product, "newAttr") == Str("999999") && PropOf(h, Product, "newAttr") == Fn(f))
  {
    var v := Str("999999");
    var g1 := Apply(g, SetProp(Product, "newAttr", Fn(f)));
    NewAttrAccessor(path, ModelAccess);
    WithNewProp(g, Fn(f), v);
    ReadBackVia(path, NewAttr(), g1, ModelRef(Product), v, SetAttr(Product, "newAttr", v));
    ModelWriteEffect(g1, Product, "newAttr", v);
  }

  lemma TagWrite(g: Graph, v: Value)
    requires Get(ModelAccess, TagsOf(), g, ModelRef(Product)) == Success(ArrRef(Tags))
    requires Reads(ModelAccess, TagsOf(), g, ModelRef(Product)) == {AttrLoc(Product, "tags"), PropLoc(Product, "tags")}
    requires Elements(g, Tags) == [Str("tag1"), Str("tag2"), Str("tag3")]
    ensures Set(Tag1(), g, ModelRef(Product), v) == Success(SetElement(Tags, 1, v))
    ensures Writes(SetElement(Tags, 1, v)) !! Reads(ModelAccess, TagsOf(), g, ModelRef(Product))
    ensures Elements(Apply(g, SetElement(Tags, 1, v)), Tags) == [Str("tag1"), v, Str("tag3")]
  {
    ArraySetLink(TagsOf(), 1, g, ModelRef(Product), Tags, v);
    ElementWriteApart(Tags, 1, v, Reads(ModelAccess, TagsOf(), g, ModelRef(Product)));
    assert Elements(Apply(g, SetElement(Tags, 1, v)), Tags) == Assigned(Elements(g, Tags), 1, v);
  }

  lemma SetStringInArray(g: Graph, path: string)
    requires IsAccessFixture(g) && path == "tags[1]"
    ensures ReadsBack(path, g, ModelRef(Product), Str("New Tag!"))
    ensures Elements(Write(path, g, ModelRef(Product), Str("New Tag!")).value, Tags) == [Str("tag1"), Str("New Tag!"), Str("tag3")]
  {
    var v := Str("New Tag!");
    ItemAccessor(path, ModelAccess);
    TagsLinkReads(g);
    TagWrite(g, v);
    ReadBackVia(path, Tag1(), g, ModelRef(Product), v, SetElement(Tags, 1, v));
  }

  lemma ReviewTitleWrite(g: Graph, v: Value)
    requires Get(ModelAccess, ReviewItem(), g, ModelRef(Product)) == Success(ModelRef(Review2))
    requires Reads(ModelAccess, ReviewItem(), g, ModelRef(Product)) == {AttrLoc(Product, "reviews"), PropLoc(Product, "reviews"), CollLoc(Reviews)}
    requires HasAttr(g, Review2, "title")
    ensures Set(ReviewTitle(), g, ModelRef(Product), v) == Success(SetAttr(Review2, "title", v))
    ensures Writes(SetAttr(Review2, "title", v)) !! Reads(ModelAccess, ReviewItem(), g, ModelRef(Product))
  {
    ModelSetLink(ReviewItem(), Dot("title"), g, ModelRef(Product), Review2, v);
    AttrWriteApart(Review2, "title", v, Reads(ModelAccess, ReviewItem(), g, ModelRef(Product)));
  }

  lemma SetAttrOfModelInNestedCollection(g: Graph, path: string)
    requires IsSharedFixture(g) && path == "reviews[1].title"
    ensures ReadsBack(path, g, ModelRef(Product), Str("New Title!"))
    ensures Write(path, g, ModelRef(Product), Str("New Title!")).value == Apply(g, SetAttr(Review2, "title", Str("New Title!")))
  {
    var v := Str("New Title!");
    ReviewTitleAccessor(path, ModelAccess);
    ReviewItemLinkReads(g);
    ReviewTitleWrite(g, v);
    ReadBackVia(path, ReviewTitle(), g, ModelRef(Product), v, SetAttr(Review2, "title", v));
  }

  /** A collection's slot cannot be assigned. */
  lemma SetModelItemInCollectionRefused(g: Graph, path: string)
    requires IsSharedFixture(g) && path == "reviews[1]"
    ensures Write(path, g, ModelRef(Product), ModelRef(Review3)) == Failure(Access(CannotSetItem))
  {
    ItemAccessor(path, ModelAccess);
    ReviewItemSetRefused(g, ModelRef(Review3));
    WriteVia(path, ReviewItem(), g, ModelRef(Product), ModelRef(Review3));
  }

  lemma ReviewItemSetRefused(g: Graph, v: Value)
    requires AttrOf(g, Product, "reviews") == CollRef(Reviews)
    ensures Set(ReviewItem(), g, ModelRef(Product), v) == Failure(CannotSetItem)
  {
    AttrLink(ModelAccess, Root, First("reviews"), g, ModelRef(Product), Product);
  }

  lemma PhoneNumberWrite(g: Graph, v: Value)
    requires Get(ModelAccess, FirstPhone(), g, ModelRef(Product)) == Success(ObjRef(Phone1))
    requires Reads(ModelAccess, FirstPhone(), g, ModelRef(Product)) ==
      {AttrLoc(Product, "manufacturer"), PropLoc(Product, "manufacturer"), AttrLoc(Manufacturer1, "phones"), PropLoc(Manufacturer1, "phones"), ArrLoc(Phones1)}
    ensures Set(FirstPhoneNumber(), g, ModelRef(Product), v) == Success(SetField(Phone1, "number", v))
    ensures Writes(SetField(Phone1, "number", v)) !! Reads(ModelAccess, FirstPhone(), g, ModelRef(Product))
  {
    FieldSetLink(FirstPhone(), Dot("number"), g, ModelRef(Product), Phone1, v);
    FieldWriteApart(Phone1, "number", v, Reads(ModelAccess, FirstPhone(), g, ModelRef(Product)));
  }

  lemma SetPropertyOfObjectInNestedArray(g: Graph, path: string)
    requires IsAccessFixture(g) && path == "manufacturer.phones[0].number"
    ensures ReadsBack(path, g, ModelRef(Product), Str("999999"))
    ensures Write(path, g, ModelRef(Product), Str("999999")).value == Apply(g, SetField(Phone1, "number", Str("999999")))
  {
    var v := Str("999999");
    PhoneNumberAccessor(path, ModelAccess);
    FirstPhoneLinkReads(g);
    PhoneNumberWrite(g, v);
    ReadBackVia(path, FirstPhoneNumber(), g, ModelRef(Product), v, SetField(Phone1, "number", v));
  }

  lemma PhoneWrite(g: Graph, v: Value)
    requires Get(ModelAccess, Phones(), g, ModelRef(Product)) == Success(ArrRef(Phones1))
    requires Reads(ModelAccess, Phones(), g, ModelRef(Product)) ==
      {AttrLoc(Product, "manufacturer"), PropLoc(Product, "manufacturer"), AttrLoc(Manufacturer1, "phones"), PropLoc(Manufacturer1, "phones")}
    requires |Elements(g, Phones1)| >= 1
    ensures Set(FirstPhone(), g, ModelRef(Product), v) == Success(SetElement(Phones1, 0, v))
    ensures Writes(SetElement(Phones1, 0, v)) !! Reads(ModelAccess, Phones(), g, ModelRef(Product))
    ensures Elements(Apply(g, SetElement(Phones1, 0, v)), Phones1) == Elements(g, Phones1)[0 := v]
  {
    ArraySetLink(Phones(), 0, g, ModelRef(Product), Phones1, v);
    ElementWriteApart(Phones1, 0, v, Reads(ModelAccess, Phones(), g, ModelRef(Product)));
    assert Elements(Apply(g, SetElement(Phones1, 0, v)), Phones1) == Assigned(Elements(g, Phones1), 0, v);
  }

  /** Any object `o` put in place of the first phone; the other phones
      stay. */
  lemma ReplaceObjectInNestedArray(g: Graph, path: string, o: nat)
    requires IsAccessFixture(g) && path == "manufacturer.phones[0]"
    ensures ReadsBack(path, g, ModelRef(Product), ObjRef(o))
    ensures Elements(Write(path, g, ModelRef(Product), ObjRef(o)).value, Phones1) == Elements(g, Phones1)[0 := ObjRef(o)]
  {
    PhoneAccessor(path, ModelAccess);
    PhonesLinkReads(g);
    PhoneWrite(g, ObjRef(o));
    ReadBackVia(path, FirstPhone(), g, ModelRef(Product), ObjRef(o), SetElement(Phones1, 0, ObjRef(o)));
  }

  lemma SetAttrOfModelInTargetCollection(g: Graph, path: string)
    requires IsSharedFixture(g) && path == "[1].title"
    ensures ReadsBack(path, g, CollRef(Reviews), Str("New Title!"))
    ensures Write(path, g, CollRef(Reviews), Str("New Title!")).value == Apply(g, SetAttr(Review2, "title", Str("New Title!")))
  {
    var v := Str("New Title!");
    ItemTitleAccessor(path, ModelAccess);
    ItemTitleWrite(g, v);
    ReadBackVia(path, ItemTitle(), g, CollRef(Reviews), v, SetAttr(Review2, "title", v));
  }

  lemma ItemTitleWrite(g: Graph, v: Value)
    requires Items(g, Reviews) == [Review1, Review2, Review3] && HasAttr(g, Review2, "title")
    ensures Set(ItemTitle(), g, CollRef(Reviews), v) == Success(SetAttr(Review2, "title", v))
    ensures Writes(SetAttr(Review2, "title", v)) !! Reads(ModelAccess, Step(Root, Index(1)), g, CollRef(Reviews))
  {
    var t := CollRef(Reviews);
    CollItemLink(ModelAccess, Root, 1, g, t, Reviews);
    ModelSetLink(Step(Root, Index(1)), Dot("title"), g, t, Review2, v);
    ReadsOfLink(ModelAccess, Root, Index(1), g, t, t);
    AttrWriteApart(Review2, "title", v, Reads(ModelAccess, Step(Root, Index(1)), g, t));
  }
}
