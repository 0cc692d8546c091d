/** The grammar of model paths such as `reviews[1].title`, as the
    recursive-descent parser of `ModelAttrAccessor` reads it, written as
    functions over the path text and a position in it. The imperative parser
    in module PathParser is proved to compute exactly these functions.

      path  := white expr (expr)* white
      expr  := "[" pad digit+ pad "]"  |  ("." if not first) nameStart nameChar*

    `pad` is optional whitespace in `ModelAttrAccessor`; the later
    `modelAccess` grammar has no `pad`. */
module PathSyntax {
  import opened Results

  /** Which of the two accessors: the inline `ModelAttrAccessor`, or the later
      `Backbone.ModelBinding.modelAccess` with its stricter bracket grammar. */
  datatype Api = ModelAttrAccessor | ModelAccess

  // ---------------------------------------------------------------------
  // Characters
  // ---------------------------------------------------------------------

  /** `white()` skips every character that compares `<= ' '`. */
  predicate IsWhite(c: char) { c <= ' ' }

  predicate IsDigit(c: char) { '0' <= c <= '9' }

  predicate IsNameStart(c: char) { 'A' <= c <= 'Z' || 'a' <= c <= 'z' || c == '_' }

  predicate IsNameChar(c: char) { IsNameStart(c) || IsDigit(c) }

  datatype CharClass = White | Digit | NameChar

  predicate InClass(c: char, k: CharClass) {
    match k
    case White => IsWhite(c)
    case Digit => IsDigit(c)
    case NameChar => IsNameChar(c)
  }

  predicate AllIn(s: string, k: CharClass) {
    forall p :: 0 <= p < |s| ==> InClass(s[p], k)
  }

  /** The position of the first character at or after `i` outside class `k`:
      where the `while` loops of `white`, `integer` and `name` stop. */
  function Scan(text: string, i: nat, k: CharClass): (j: nat)
    requires i <= |text|
    ensures i <= j <= |text|
    ensures AllIn(text[i..j], k)
    ensures j == |text| || !InClass(text[j], k)
    decreases |text| - i
  {
    if i < |text| && InClass(text[i], k) then
      var j := Scan(text, i + 1, k);
      assert forall p :: 0 < p < j - i ==> text[i..j][p] == text[i + 1..j][p - 1];
      j
    else i
  }

  /** Scan stops at the first character outside the class, and nowhere else. */
  lemma {:induction false} ScanIs(text: string, i: nat, k: CharClass, j: nat)
    requires i <= j <= |text|
    requires AllIn(text[i..j], k)
    requires j == |text| || !InClass(text[j], k)
    ensures Scan(text, i, k) == j
    decreases j - i
  {
    if i < j {
      assert text[i..j][0] == text[i];
      assert text[i + 1..j] == text[i..j][1..];
      ScanIs(text, i + 1, k, j);
    }
  }

  // ---------------------------------------------------------------------
  // Decimal numbers: `+string` on a run of digits, and the number printed
  // back by `"[" + number + "]"`.
  // ---------------------------------------------------------------------

  function DigitValue(c: char): nat
    requires IsDigit(c)
  {
    c as int - '0' as int
  }

  function DigitChar(d: nat): (c: char)
    requires d < 10
    ensures IsDigit(c) && DigitValue(c) == d
  {
    ('0' as int + d) as char
  }

  function DigitsValue(s: string): nat
    requires AllIn(s, Digit)
  {
    if s == [] then 0 else DigitsValue(s[..|s| - 1]) * 10 + DigitValue(s[|s| - 1])
  }

  /** A digit string as JavaScript prints a number: no leading zero. */
  predicate Canonical(s: string) {
    |s| > 0 && (s[0] != '0' || |s| == 1)
  }

  function NatToString(n: nat): (s: string)
    ensures AllIn(s, Digit) && Canonical(s)
  {
    if n < 10 then [DigitChar(n)] else NatToString(n / 10) + [DigitChar(n % 10)]
  }

  lemma {:induction false} ValueOfPrinted(n: nat)
    ensures DigitsValue(NatToString(n)) == n
  {
    var s := NatToString(n);
    if n >= 10 {
      ValueOfPrinted(n / 10);
      assert s[..|s| - 1] == NatToString(n / 10);
    }
  }

  lemma {:induction false} CanonicalValuePositive(s: string)
    requires AllIn(s, Digit) && Canonical(s) && s[0] != '0'
    ensures DigitsValue(s) >= 1
  {
    if |s| > 1 {
      CanonicalValuePositive(s[..|s| - 1]);
    }
  }

  /** Printing the value of a canonical digit string gives the string back. */
  lemma {:induction false} PrintedOfValue(s: string)
    requires AllIn(s, Digit) && Canonical(s)
    ensures NatToString(DigitsValue(s)) == s
  {
    if |s| > 1 {
      var init := s[..|s| - 1];
      CanonicalValuePositive(init);
      PrintedOfValue(init);
      var v := DigitsValue(s);
      assert v / 10 == DigitsValue(init) && v % 10 == DigitValue(s[|s| - 1]);
      assert NatToString(v) == NatToString(v / 10) + [DigitChar(v % 10)];
      assert s == init + [s[|s| - 1]];
    }
  }

  // ---------------------------------------------------------------------
  // Expression nodes and syntax errors
  // ---------------------------------------------------------------------

  datatype Node =
    | AttributeAccess(name: string, text: string)
    | CollectionItemAccess(index: nat, text: string)

  /** The fault kinds `error(...)` reports. */
  datatype Fault =
    | ExpectedChar(expected: char)    // next(expected) found something else
    | ExpectedNumber                  // integer() found no digit
    | BadNameStart                    // name() found no letter or underscore
    | WhitespaceInPath                // whitespace gobbled with more path left
    | Unrecognised                    // input left over after the chain

  /** A fault and the 0-based position (`index`) where it was detected. */
  datatype SyntaxError = SyntaxError(index: nat, fault: Fault)

  /** Nodes parsed so far and the position reached. */
  datatype Parsed = Parsed(nodes: seq<Node>, end: nat)

  function Prepend(ns: seq<Node>, r: Result<Parsed, SyntaxError>): Result<Parsed, SyntaxError> {
    match r
    case Success(p) => Success(Parsed(ns + p.nodes, p.end))
    case Failure(e) => Failure(e)
  }

  // ---------------------------------------------------------------------
  // The recursive-descent grammar
  // ---------------------------------------------------------------------

  /** Whitespace allowed just inside `[` and before `]`. */
  function Pad(text: string, i: nat, api: Api): (j: nat)
    requires i <= |text|
    ensures i <= j <= |text| && AllIn(text[i..j], White)
    ensures api == ModelAttrAccessor ==> j == |text| || !IsWhite(text[j])
    ensures api == ModelAccess ==> j == i
  {
    if api == ModelAttrAccessor then Scan(text, i, White) else i
  }

  /** `collectionItemAccess`, with `i` at the `[`. */
  function ItemAccess(text: string, i: nat, api: Api): (r: Result<(Node, nat), SyntaxError>)
    requires i < |text| && text[i] == '['
    ensures r.Success? ==> i < r.value.1 <= |text|
  {
    var j := Pad(text, i + 1, api);
    var k := Scan(text, j, Digit);
    if k == j then Failure(SyntaxError(j, ExpectedNumber))
    else
      var n := DigitsValue(text[j..k]);
      var m := Pad(text, k, api);
      if m < |text| && text[m] == ']' then
        Success((CollectionItemAccess(n, "[" + NatToString(n) + "]"), m + 1))
      else
        Failure(SyntaxError(m, ExpectedChar(']')))
  }

  /** `attributeAccess`: a `.` unless this is the first expression, then `name`. */
  function AttrAccess(text: string, i: nat, first: bool): (r: Result<(Node, nat), SyntaxError>)
    requires i <= |text|
    ensures r.Success? ==> i < r.value.1 <= |text|
  {
    if !first && !(i < |text| && text[i] == '.') then
      Failure(SyntaxError(i, ExpectedChar('.')))
    else
      var j := if first then i else i + 1;
      if !(j < |text| && IsNameStart(text[j])) then
        Failure(SyntaxError(j, BadNameStart))
      else
        var k := Scan(text, j + 1, NameChar);
        var name := text[j..k];
        Success((AttributeAccess(name, if first then name else "." + name), k))
  }

  /** `expression`: dispatch on the current character. */
  function Expression(text: string, i: nat, first: bool, api: Api): (r: Result<(Node, nat), SyntaxError>)
    requires i < |text|
    ensures r.Success? ==> i < r.value.1 <= |text|
  {
    if text[i] == '[' then ItemAccess(text, i, api) else AttrAccess(text, i, first)
  }

  /** The loop of `expressionChain` from position `i`: an expression while
      input remains, each followed by `Continue`. On success the whole input
      has been consumed. */
  function Chain(text: string, i: nat, first: bool, api: Api): (r: Result<Parsed, SyntaxError>)
    requires i <= |text|
    ensures r.Success? ==> r.value.end == |text|
    decreases |text| - i, 0
  {
    if i == |text| then Success(Parsed([], i))
    else
      match Expression(text, i, first, api)
      case Failure(e) => Failure(e)
      case Success((node, j)) => Prepend([node], Continue(text, j, api))
  }

  /** After an expression: whitespace is accepted only when it ends the path. */
  function Continue(text: string, j: nat, api: Api): (r: Result<Parsed, SyntaxError>)
    requires j <= |text|
    ensures r.Success? ==> r.value.end == |text|
    decreases |text| - j, 1
  {
    var k := Scan(text, j, White);
    if j < k < |text| then Failure(SyntaxError(k, WhitespaceInPath))
    else Chain(text, k, false, api)
  }

  /** `parse(path)`: leading whitespace, the chain, then the check for input
      left over, which can never fire because the chain stops only at the end. */
  function Parse(path: string, api: Api): (r: Result<seq<Node>, SyntaxError>)
    ensures r.Failure? ==> r.error.fault != Unrecognised && r.error.index <= |path|
  {
    match Chain(path, Scan(path, 0, White), true, api)
    case Failure(e) => ChainErrorBounded(path, Scan(path, 0, White), true, api); Failure(e)
    case Success(p) => if p.end < |path| then Failure(SyntaxError(p.end, Unrecognised)) else Success(p.nodes)
  }

  /** Every error the chain reports lies within the path and is not the
      leftover-input fault. */
  lemma {:induction false} ChainErrorBounded(text: string, i: nat, first: bool, api: Api)
    requires i <= |text|
    ensures Chain(text, i, first, api).Failure? ==>
      Chain(text, i, first, api).error.index <= |text| && Chain(text, i, first, api).error.fault != Unrecognised
    decreases |text| - i, 0
  {
    if i < |text| {
      match Expression(text, i, first, api)
      case Failure(e) =>
      case Success((node, j)) => ContinueErrorBounded(text, j, api);
    }
  }

  lemma {:induction false} ContinueErrorBounded(text: string, j: nat, api: Api)
    requires j <= |text|
    ensures Continue(text, j, api).Failure? ==>
      Continue(text, j, api).error.index <= |text| && Continue(text, j, api).error.fault != Unrecognised
    decreases |text| - j, 1
  {
    var k := Scan(text, j, White);
    if !(j < k < |text|) {
      ChainErrorBounded(text, k, false, api);
    }
  }

  // ---------------------------------------------------------------------
  // Well-formed node sequences and their text
  // ---------------------------------------------------------------------

  predicate IsName(s: string) {
    |s| > 0 && IsNameStart(s[0]) && forall p :: 1 <= p < |s| ==> IsNameChar(s[p])
  }

  /** The `text` the parser gives a node: `"[" + number + "]"` for an index,
      the name for a first attribute, `"." + name` for any later one. */
  function CanonicalText(n: Node, first: bool): string {
    match n
    case AttributeAccess(name, _) => if first then name else "." + name
    case CollectionItemAccess(index, _) => "[" + NatToString(index) + "]"
  }

  predicate NodeOk(n: Node, first: bool) {
    (n.AttributeAccess? ==> IsName(n.name)) && n.text == CanonicalText(n, first)
  }

  /** A node sequence the parser can produce, the first node at `first`. */
  predicate WellFormedFrom(ns: seq<Node>, first: bool) {
    ns == [] || (NodeOk(ns[0], first) && WellFormedFrom(ns[1..], false))
  }

  predicate WellFormed(ns: seq<Node>) { WellFormedFrom(ns, true) }

  /** The nodes' `text` fields, concatenated. */
  function Texts(ns: seq<Node>): string {
    if ns == [] then "" else ns[0].text + Texts(ns[1..])
  }

  /** `s` occurs in `text` at position `i`. */
  predicate PrefixAt(text: string, i: nat, s: string) {
    i + |s| <= |text| && forall p :: 0 <= p < |s| ==> text[i + p] == s[p]
  }

  predicate Boundary(text: string, e: nat) {
    e == |text| || (e < |text| && !IsNameChar(text[e]))
  }

  lemma PrefixAtChar(text: string, i: nat, s: string, p: nat)
    requires PrefixAt(text, i, s) && p < |s|
    ensures text[i + p] == s[p]
  {
  }

  /** The text of a later node starts with its separator. */
  lemma LaterTextStart(ns: seq<Node>)
    requires WellFormedFrom(ns, false) && ns != []
    ensures |Texts(ns)| > 0 && (Texts(ns)[0] == '.' || Texts(ns)[0] == '[')
  {
    assert Texts(ns) == ns[0].text + Texts(ns[1..]);
  }

  /** The slice of `text` that a prefix occupies. */
  lemma PrefixSlice(text: string, i: nat, s: string)
    requires PrefixAt(text, i, s)
    ensures text[i..i + |s|] == s
  {
  }

  /** An attribute's canonical text is parsed back to that attribute. */
  lemma AttrOverNode(text: string, i: nat, n: Node, first: bool)
    requires n.AttributeAccess? && NodeOk(n, first) && PrefixAt(text, i, n.text)
    requires Boundary(text, i + |n.text|)
    ensures AttrAccess(text, i, first) == Success((n, i + |n.text|))
  {
    var name, t := n.name, n.text;
    var j := if first then i else i + 1;
    if first {
      assert t == name;
    } else {
      assert t == "." + name;
      PrefixAtSplit(text, i, ".", name);
      PrefixAtChar(text, i, ".", 0);
    }
    assert j + |name| == i + |t|;
    PrefixSlice(text, j, name);
    NameAt(text, j, name);
  }

  /** A name at position j, ended by a boundary, is what `name()` reads. */
  lemma NameAt(text: string, j: nat, name: string)
    requires IsName(name) && j + |name| <= |text| && text[j..j + |name|] == name
    requires Boundary(text, j + |name|)
    ensures j < |text| && IsNameStart(text[j])
    ensures Scan(text, j + 1, NameChar) == j + |name|
  {
    var e := j + |name|;
    assert text[j] == name[0];
    assert AllIn(text[j + 1..e], NameChar) by {
      assert text[j + 1..e] == name[1..];
      forall p | 0 <= p < |name[1..]| ensures InClass(name[1..][p], NameChar) {
        assert name[1..][p] == name[p + 1];
      }
    }
    ScanIs(text, j + 1, NameChar, e);
  }

  /** An index's canonical text is parsed back to that index. */
  lemma ItemOverNode(text: string, i: nat, n: Node, api: Api)
    requires n.CollectionItemAccess? && NodeOk(n, false) && PrefixAt(text, i, n.text)
    ensures text[i] == '[' && ItemAccess(text, i, api) == Success((n, i + |n.text|))
  {
    var d := NatToString(n.index);
    var e := i + 1 + |d|;
    BracketedDigits(text, i, d);
    ScanIs(text, i + 1, White, i + 1);
    assert Pad(text, i + 1, api) == i + 1;
    ScanIs(text, i + 1, Digit, e);
    ScanIs(text, e, White, e);
    assert Pad(text, e, api) == e;
    ValueOfPrinted(n.index);
  }

  /** `"[" + d + "]"` at position i, piece by piece. */
  lemma BracketedDigits(text: string, i: nat, d: string)
    requires d != [] && PrefixAt(text, i, "[" + d + "]")
    ensures i + 1 + |d| < |text| && text[i] == '[' && text[i + 1] == d[0]
    ensures text[i + 1..i + 1 + |d|] == d && text[i + 1 + |d|] == ']'
  {
    PrefixAtSplit(text, i, "[" + d, "]");
    PrefixAtSplit(text, i, "[", d);
    PrefixSlice(text, i + 1, d);
    PrefixAtChar(text, i, "[", 0);
    PrefixAtChar(text, i + 1 + |d|, "]", 0);
  }

  /** A node's own canonical text is parsed back to that node. */
  lemma ExpressionOverNode(text: string, i: nat, n: Node, first: bool, api: Api)
    requires NodeOk(n, first) && PrefixAt(text, i, n.text) && Boundary(text, i + |n.text|)
    ensures |n.text| > 0 && Expression(text, i, first, api) == Success((n, i + |n.text|))
  {
    if n.AttributeAccess? {
      PrefixAtChar(text, i, n.text, 0);
      AttrOverNode(text, i, n, first);
    } else {
      ItemOverNode(text, i, n, api);
    }
  }

  lemma PrefixAtSplit(text: string, i: nat, a: string, b: string)
    requires PrefixAt(text, i, a + b)
    ensures PrefixAt(text, i, a) && PrefixAt(text, i + |a|, b)
  {
    forall p | 0 <= p < |a| ensures text[i + p] == a[p] {
      assert (a + b)[p] == a[p];
    }
    forall p | 0 <= p < |b| ensures text[i + |a| + p] == b[p] {
      assert (a + b)[|a| + p] == b[p];
    }
  }

  lemma PrependTwice(a: seq<Node>, b: seq<Node>, r: Result<Parsed, SyntaxError>)
    ensures Prepend(a, Prepend(b, r)) == Prepend(a + b, r)
  {
    if r.Success? {
      assert a + (b + r.value.nodes) == (a + b) + r.value.nodes;
    }
  }

  /** One step of the chain: a successful expression, then `Continue`. */
  lemma ChainStep(text: string, i: nat, first: bool, api: Api, n: Node, j: nat)
    requires i < |text| && Expression(text, i, first, api) == Success((n, j))
    ensures Chain(text, i, first, api) == Prepend([n], Continue(text, j, api))
  {
  }

  lemma SingleNode(ns: seq<Node>)
    requires |ns| == 1
    ensures ns == [ns[0]] && Texts(ns) == ns[0].text
  {
    assert Texts(ns[1..]) == "";
  }

  lemma ConsSplit(ns: seq<Node>)
    requires ns != []
    ensures [ns[0]] + ns[1..] == ns
  {
  }

  /** With no whitespace after an expression, the chain simply goes on. */
  lemma ContinueNoWhite(text: string, e: nat, api: Api)
    requires e < |text| && !IsWhite(text[e])
    ensures Continue(text, e, api) == Chain(text, e, false, api)
  {
    ScanIs(text, e, White, e);
  }

  /** One node, then the chain carries on right after it. */
  lemma ChainOne(text: string, i: nat, first: bool, api: Api, n: Node, end: nat)
    requires NodeOk(n, first) && PrefixAt(text, i, n.text) && end == i + |n.text| && Boundary(text, end)
    ensures Chain(text, i, first, api) == Prepend([n], Continue(text, end, api))
  {
    ExpressionOverNode(text, i, n, first, api);
    ChainStep(text, i, first, api, n, end);
  }

  /** Parsing the concatenated text of well-formed nodes yields those nodes,
      and the chain carries on after them, at `end`, as it would from there. */
  lemma {:induction false} ChainOverRendered(text: string, i: nat, first: bool, ns: seq<Node>, api: Api, end: nat)
    requires WellFormedFrom(ns, first) && ns != []
    requires PrefixAt(text, i, Texts(ns)) && end == i + |Texts(ns)| && Boundary(text, end)
    ensures Chain(text, i, first, api) == Prepend(ns, Continue(text, end, api))
    decreases |ns|, 1
  {
    if |ns| == 1 {
      ChainOverOne(text, i, first, ns, api, end);
    } else {
      ChainOverMore(text, i, first, ns, api, end);
    }
  }

  /** The inductive step of `ChainOverRendered`: the first node in front of
      the chain over the rest. */
  lemma {:induction false} ChainOverMore(text: string, i: nat, first: bool, ns: seq<Node>, api: Api, end: nat)
    requires WellFormedFrom(ns, first) && |ns| >= 2
    requires PrefixAt(text, i, Texts(ns)) && end == i + |Texts(ns)| && Boundary(text, end)
    ensures Chain(text, i, first, api) == Prepend(ns, Continue(text, end, api))
    decreases |ns|, 0
  {
    RestText(text, i, first, ns);
    ChainOverRendered(text, i + |ns[0].text|, false, ns[1..], api, end);
    ChainOverFirst(text, i, first, ns, api, Continue(text, end, api));
  }

  /** The rest of several rendered nodes, after the first. */
  lemma RestText(text: string, i: nat, first: bool, ns: seq<Node>)
    requires WellFormedFrom(ns, first) && |ns| >= 2 && PrefixAt(text, i, Texts(ns))
    ensures WellFormedFrom(ns[1..], false) && ns[1..] != []
    ensures PrefixAt(text, i + |ns[0].text|, Texts(ns[1..]))
    ensures i + |ns[0].text| + |Texts(ns[1..])| == i + |Texts(ns)|
  {
    assert Texts(ns) == ns[0].text + Texts(ns[1..]);
    PrefixAtSplit(text, i, ns[0].text, Texts(ns[1..]));
  }

  /** The first of several rendered nodes in front of a known chain. */
  lemma ChainOverFirst(text: string, i: nat, first: bool, ns: seq<Node>, api: Api, tail: Result<Parsed, SyntaxError>)
    requires WellFormedFrom(ns, first) && |ns| >= 2
    requires PrefixAt(text, i, Texts(ns)) && Boundary(text, i + |Texts(ns)|)
    requires Chain(text, i + |ns[0].text|, false, api) == Prepend(ns[1..], tail)
    ensures Chain(text, i, first, api) == Prepend(ns, tail)
  {
    NodeAhead(text, i, first, ns, api);
    ChainConsMore(text, i, first, api, ns[0], i + |ns[0].text|, ns[1..], tail);
  }

  /** Where the first of several rendered nodes leaves the text: its
      expression is read, and a separator follows it. */
  lemma NodeAhead(text: string, i: nat, first: bool, ns: seq<Node>, api: Api)
    requires WellFormedFrom(ns, first) && |ns| >= 2 && PrefixAt(text, i, Texts(ns))
    ensures var e := i + |ns[0].text|;
      i < e < |text| && !IsWhite(text[e]) && Expression(text, i, first, api) == Success((ns[0], e)) &&
      [ns[0]] + ns[1..] == ns
  {
    NodeAheadText(text, i, first, ns);
    Separator(text[i + |ns[0].text|]);
    ExpressionOverNode(text, i, ns[0], first, api);
    ConsSplit(ns);
  }

  /** The text half of `NodeAhead`: the first node's text, then a separator
      that starts the rest. */
  lemma NodeAheadText(text: string, i: nat, first: bool, ns: seq<Node>)
    requires WellFormedFrom(ns, first) && |ns| >= 2 && PrefixAt(text, i, Texts(ns))
    ensures var e := i + |ns[0].text|;
      e < |text| && (text[e] == '.' || text[e] == '[') &&
      NodeOk(ns[0], first) && PrefixAt(text, i, ns[0].text)
  {
    var n, rest := ns[0], ns[1..];
    var e := i + |n.text|;
    assert Texts(ns) == n.text + Texts(rest);
    PrefixAtSplit(text, i, n.text, Texts(rest));
    LaterTextStart(rest);
    PrefixAtChar(text, e, Texts(rest), 0);
  }

  /** A separator is neither whitespace nor part of a name. */
  lemma Separator(c: char)
    requires c == '.' || c == '['
    ensures !IsWhite(c) && !IsNameChar(c)
  {
  }

  /** The base case of `ChainOverRendered`: a single node. */
  lemma ChainOverOne(text: string, i: nat, first: bool, ns: seq<Node>, api: Api, end: nat)
    requires WellFormedFrom(ns, first) && |ns| == 1
    requires PrefixAt(text, i, Texts(ns)) && end == i + |Texts(ns)| && Boundary(text, end)
    ensures Chain(text, i, first, api) == Prepend(ns, Continue(text, end, api))
  {
    SingleNode(ns);
    ChainOne(text, i, first, api, ns[0], end);
  }

  /** An expression, no whitespace after it, and a known chain from there. */
  lemma ChainConsMore(text: string, i: nat, first: bool, api: Api, n: Node, e: nat, rest: seq<Node>, tail: Result<Parsed, SyntaxError>)
    requires i < |text| && Expression(text, i, first, api) == Success((n, e))
    requires e < |text| && !IsWhite(text[e])
    requires Chain(text, e, false, api) == Prepend(rest, tail)
    ensures Chain(text, i, first, api) == Prepend([n] + rest, tail)
  {
    ChainStep(text, i, first, api, n, e);
    ContinueNoWhite(text, e, api);
    PrependTwice([n], rest, tail);
  }

  /** The three pieces of a concatenation, each at its own position. */
  lemma Pieces(a: string, b: string, c: string)
    ensures PrefixAt(a + b + c, 0, a) && PrefixAt(a + b + c, |a|, b) && PrefixAt(a + b + c, |a| + |b|, c)
  {
    var text := a + b + c;
    assert forall p :: 0 <= p < |a| ==> text[p] == a[p];
    assert forall p :: 0 <= p < |b| ==> text[|a| + p] == b[p];
    assert forall p :: 0 <= p < |c| ==> text[|a| + |b| + p] == c[p];
  }

  /** A whitespace run that stops at a non-white character or the end. */
  lemma ScanWhiteOver(text: string, i: nat, ws: string)
    requires PrefixAt(text, i, ws) && AllIn(ws, White)
    requires i + |ws| == |text| || !IsWhite(text[i + |ws|])
    ensures Scan(text, i, White) == i + |ws|
  {
    PrefixSlice(text, i, ws);
    ScanIs(text, i, White, i + |ws|);
  }

  /** A run of class `k` that stops at a character outside it or the end. */
  lemma ScanOver(text: string, i: nat, s: string, k: CharClass)
    requires PrefixAt(text, i, s) && AllIn(s, k)
    requires i + |s| == |text| || !InClass(text[i + |s|], k)
    ensures Scan(text, i, k) == i + |s|
  {
    PrefixSlice(text, i, s);
    ScanIs(text, i, k, i + |s|);
  }

  /** Only whitespace left after an expression: the chain ends there. */
  lemma ContinueAtWhiteEnd(text: string, e: nat, ws: string, api: Api)
    requires PrefixAt(text, e, ws) && e + |ws| == |text| && AllIn(ws, White)
    ensures Continue(text, e, api) == Success(Parsed([], |text|))
  {
    ScanWhiteOver(text, e, ws);
  }

  /** The text of a well-formed chain starts with `[` or a name. */
  lemma FirstTextStart(ns: seq<Node>)
    requires WellFormed(ns) && ns != []
    ensures |Texts(ns)| > 0 && !IsWhite(Texts(ns)[0])
  {
    assert Texts(ns) == ns[0].text + Texts(ns[1..]);
    match ns[0]
    case AttributeAccess(name, _) =>
    case CollectionItemAccess(_, _) =>
  }

  /** Parse reads the chain after the leading whitespace. */
  lemma ParseOfChain(path: string, api: Api, k: nat, ns: seq<Node>)
    requires Scan(path, 0, White) == k
    requires Chain(path, k, true, api) == Success(Parsed(ns, |path|))
    ensures Parse(path, api) == Success(ns)
  {
  }

  /** Well-formed nodes followed only by whitespace form the whole chain. */
  lemma ChainToEnd(text: string, i: nat, ns: seq<Node>, ws: string, api: Api)
    requires WellFormed(ns) && ns != []
    requires PrefixAt(text, i, Texts(ns)) && PrefixAt(text, i + |Texts(ns)|, ws)
    requires i + |Texts(ns)| + |ws| == |text| && AllIn(ws, White)
    ensures Chain(text, i, true, api) == Success(Parsed(ns, |text|))
  {
    var e := i + |Texts(ns)|;
    if |ws| > 0 {
      PrefixAtChar(text, e, ws, 0);
      assert InClass(ws[0], White);
    }
    ChainOverRendered(text, i, true, ns, api, e);
    ContinueAtWhiteEnd(text, e, ws, api);
    assert ns + [] == ns;
  }

  /** Round trip: whitespace around the path is stripped, and the nodes'
      concatenated texts parse back to the same nodes, in both grammars. An
      empty or all-white path gives no nodes. */
  lemma ParseRendered(ws1: string, ns: seq<Node>, ws2: string, api: Api)
    requires AllIn(ws1, White) && AllIn(ws2, White) && WellFormed(ns)
    ensures Parse(ws1 + Texts(ns) + ws2, api) == Success(ns)
  {
    var t := Texts(ns);
    var text := ws1 + t + ws2;
    Pieces(ws1, t, ws2);
    if ns == [] {
      assert text == ws1 + ws2;
      assert AllIn(ws1 + ws2, White) by {
        assert forall p :: |ws1| <= p < |ws1| + |ws2| ==> (ws1 + ws2)[p] == ws2[p - |ws1|];
      }
      ScanWhiteOver(text, 0, text);
    } else {
      FirstTextStart(ns);
      PrefixAtChar(text, |ws1|, t, 0);
      ScanWhiteOver(text, 0, ws1);
      ChainToEnd(text, |ws1|, ns, ws2, api);
      ParseOfChain(text, api, |ws1|, ns);
    }
  }

  // ---------------------------------------------------------------------
  // Paths the parser rejects, and where
  // ---------------------------------------------------------------------

  /** After well-formed nodes, a character that cannot continue a name hands
      the rest of the path to `Continue`; a failure there is the parse's. */
  lemma ParseAfterNodes(ns: seq<Node>, q: string, api: Api)
    requires WellFormed(ns) && ns != [] && q != [] && !IsNameChar(q[0])
    ensures Continue(Texts(ns) + q, |Texts(ns)|, api).Failure? ==>
      Parse(Texts(ns) + q, api) == Continue(Texts(ns) + q, |Texts(ns)|, api).PropagateFailure()
    ensures Continue(Texts(ns) + q, |Texts(ns)|, api).Success? ==>
      Parse(Texts(ns) + q, api) == Success(ns + Continue(Texts(ns) + q, |Texts(ns)|, api).value.nodes)
  {
    var t := Texts(ns);
    var text := t + q;
    assert PrefixAt(text, 0, t);
    FirstTextStart(ns);
    ScanIs(text, 0, White, 0);
    ChainOverRendered(text, 0, true, ns, api, |Texts(ns)|);
  }

  /** A name cannot start with a digit, a dot or any other non-letter: the
      error is reported where the name should begin. */
  lemma BadStartRejected(ws: string, c: char, rest: string, api: Api)
    requires AllIn(ws, White) && !IsWhite(c) && c != '[' && !IsNameStart(c)
    ensures Parse(ws + [c] + rest, api) == Failure(SyntaxError(|ws|, BadNameStart))
  {
    var text := ws + [c] + rest;
    assert PrefixAt(text, 0, ws);
    ScanWhiteOver(text, 0, ws);
  }

  /** Whitespace followed by more path, after at least one expression. */
  lemma WhitespaceInMiddleRejected(ns: seq<Node>, ws: string, rest: string, api: Api)
    requires WellFormed(ns) && ns != [] && ws != [] && AllIn(ws, White)
    requires rest != [] && !IsWhite(rest[0])
    ensures Parse(Texts(ns) + ws + rest, api) == Failure(SyntaxError(|Texts(ns)| + |ws|, WhitespaceInPath))
  {
    var t := Texts(ns);
    WhiteInsideTail(t, ws, rest, api);
    ParseAfterNodesFail(ns, ws + rest, api, SyntaxError(|t| + |ws|, WhitespaceInPath));
    SplitText(t, ws, rest);
  }

  lemma SplitText(t: string, a: string, b: string)
    ensures t + a + b == t + (a + b)
  {
  }

  lemma WhiteInsideTail(t: string, ws: string, rest: string, api: Api)
    requires ws != [] && AllIn(ws, White) && rest != [] && !IsWhite(rest[0])
    ensures Continue(t + (ws + rest), |t|, api) == Failure(SyntaxError(|t| + |ws|, WhitespaceInPath))
  {
    var text := t + (ws + rest);
    assert PrefixAt(text, |t|, ws);
    assert text[|t| + |ws|] == rest[0];
    ScanWhiteOver(text, |t|, ws);
  }

  lemma ParseAfterNodesFail(ns: seq<Node>, q: string, api: Api, err: SyntaxError)
    requires WellFormed(ns) && ns != [] && q != [] && !IsNameChar(q[0])
    requires Continue(Texts(ns) + q, |Texts(ns)|, api) == Failure(err)
    ensures Parse(Texts(ns) + q, api) == Failure(err)
  {
    ParseAfterNodes(ns, q, api);
  }

  /** A dot not followed by a name, as in a trailing dot. */
  lemma DotWithoutNameRejected(ns: seq<Node>, rest: string, api: Api)
    requires WellFormed(ns) && ns != [] && (rest == [] || !IsNameStart(rest[0]))
    ensures Parse(Texts(ns) + "." + rest, api) == Failure(SyntaxError(|Texts(ns)| + 1, BadNameStart))
  {
    var t := Texts(ns);
    var q := "." + rest;
    var text := t + q;
    assert Texts(ns) + "." + rest == text;
    ContinueNoWhite(text, |t|, api);
    ParseAfterNodes(ns, q, api);
  }

  /** `collectionItemAccess` finding no digit where the number should start. */
  lemma ItemWithoutNumber(text: string, i: nat, ws: string, api: Api)
    requires i < |text| && text[i] == '[' && PrefixAt(text, i + 1, ws) && AllIn(ws, White)
    requires i + 1 + |ws| <= |text|
    requires i + 1 + |ws| < |text| ==> !IsDigit(text[i + 1 + |ws|])
    requires api == ModelAccess ==> ws == []
    requires api == ModelAttrAccessor && i + 1 + |ws| < |text| ==> !IsWhite(text[i + 1 + |ws|])
    ensures ItemAccess(text, i, api) == Failure(SyntaxError(i + 1 + |ws|, ExpectedNumber))
  {
    var j := i + 1 + |ws|;
    if api == ModelAttrAccessor {
      ScanWhiteOver(text, i + 1, ws);
    }
    ScanIs(text, j, Digit, j);
  }

  /** `collectionItemAccess` finding digits and then neither `]` nor padding. */
  lemma ItemUnclosed(text: string, i: nat, d: string, api: Api)
    requires i < |text| && text[i] == '[' && PrefixAt(text, i + 1, d) && d != [] && AllIn(d, Digit)
    requires i + 1 + |d| <= |text|
    requires i + 1 + |d| < |text| ==> !IsDigit(text[i + 1 + |d|]) && text[i + 1 + |d|] != ']'
    requires api == ModelAttrAccessor && i + 1 + |d| < |text| ==> !IsWhite(text[i + 1 + |d|])
    ensures ItemAccess(text, i, api) == Failure(SyntaxError(i + 1 + |d|, ExpectedChar(']')))
  {
    var k := i + 1 + |d|;
    PrefixAtChar(text, i + 1, d, 0);
    ScanIs(text, i + 1, White, i + 1);
    ScanOver(text, i + 1, d, Digit);
    if api == ModelAttrAccessor {
      ScanIs(text, k, White, k);
    }
  }

  /** An index, first or after well-formed nodes, that
      `collectionItemAccess` refuses fails the whole parse with that error. */
  lemma ItemFailureRejected(ns: seq<Node>, q: string, api: Api, err: SyntaxError)
    requires WellFormed(ns) && q != [] && q[0] == '['
    requires ItemAccess(Texts(ns) + q, |Texts(ns)|, api) == Failure(err)
    ensures Parse(Texts(ns) + q, api) == Failure(err)
  {
    if ns == [] {
      assert Texts(ns) + q == q;
      FirstItemFailure(q, api, err);
    } else {
      var text := Texts(ns) + q;
      var e := |Texts(ns)|;
      assert text[e] == '[';
      ContinueNoWhite(text, e, api);
      ParseAfterNodesFail(ns, q, api, err);
    }
  }

  /** An index in first position that `collectionItemAccess` refuses. */
  lemma FirstItemFailure(q: string, api: Api, err: SyntaxError)
    requires q != [] && q[0] == '[' && ItemAccess(q, 0, api) == Failure(err)
    ensures Parse(q, api) == Failure(err)
  {
    ScanIs(q, 0, White, 0);
  }

  /** An index that does not start with a digit. `ModelAttrAccessor` first
      skips whitespace after the `[`; `modelAccess` does not, so whitespace
      there is itself the error. */
  lemma IndexWithoutNumberRejected(ns: seq<Node>, ws: string, tail: string, api: Api)
    requires WellFormed(ns) && AllIn(ws, White)
    requires api == ModelAccess ==> ws == []
    requires tail != [] ==> !IsDigit(tail[0]) && (api == ModelAttrAccessor ==> !IsWhite(tail[0]))
    ensures Parse(Texts(ns) + ("[" + ws + tail), api)
         == Failure(SyntaxError(|Texts(ns)| + 1 + |ws|, ExpectedNumber))
  {
    NumberMissingAfter(Texts(ns), ws, tail, api);
    OpensIndex(ws, tail);
    ItemFailureRejected(ns, "[" + ws + tail, api, SyntaxError(|Texts(ns)| + 1 + |ws|, ExpectedNumber));
  }

  lemma OpensIndex(a: string, b: string)
    ensures ("[" + a + b) != [] && ("[" + a + b)[0] == '['
  {
  }

  lemma NumberMissingAfter(t: string, ws: string, tail: string, api: Api)
    requires AllIn(ws, White)
    requires api == ModelAccess ==> ws == []
    requires tail != [] ==> !IsDigit(tail[0]) && (api == ModelAttrAccessor ==> !IsWhite(tail[0]))
    ensures ItemAccess(t + ("[" + ws + tail), |t|, api) == Failure(SyntaxError(|t| + 1 + |ws|, ExpectedNumber))
  {
    var text := t + ("[" + ws + tail);
    assert text[|t|] == '[' && |text| == |t| + 1 + |ws| + |tail|;
    if tail != [] {
      assert text[|t| + 1 + |ws|] == tail[0];
    }
    assert PrefixAt(text, |t| + 1, ws);
    ItemWithoutNumber(text, |t|, ws, api);
  }

  /** Digits in an index followed by something other than `]`. */
  lemma IndexUnclosedRejected(ns: seq<Node>, d: string, tail: string, api: Api)
    requires WellFormed(ns) && d != [] && AllIn(d, Digit)
    requires tail != [] ==> !IsDigit(tail[0]) && tail[0] != ']' && (api == ModelAttrAccessor ==> !IsWhite(tail[0]))
    ensures Parse(Texts(ns) + ("[" + d + tail), api)
         == Failure(SyntaxError(|Texts(ns)| + 1 + |d|, ExpectedChar(']')))
  {
    BracketMissingAfter(Texts(ns), d, tail, api);
    OpensIndex(d, tail);
    ItemFailureRejected(ns, "[" + d + tail, api, SyntaxError(|Texts(ns)| + 1 + |d|, ExpectedChar(']')));
  }

  lemma BracketMissingAfter(t: string, d: string, tail: string, api: Api)
    requires d != [] && AllIn(d, Digit)
    requires tail != [] ==> !IsDigit(tail[0]) && tail[0] != ']' && (api == ModelAttrAccessor ==> !IsWhite(tail[0]))
    ensures ItemAccess(t + ("[" + d + tail), |t|, api) == Failure(SyntaxError(|t| + 1 + |d|, ExpectedChar(']')))
  {
    var text := t + ("[" + d + tail);
    assert text[|t|] == '[' && |text| == |t| + 1 + |d| + |tail|;
    if tail != [] {
      assert text[|t| + 1 + |d|] == tail[0];
    }
    assert PrefixAt(text, |t| + 1, d);
    ItemUnclosed(text, |t|, d, api);
  }

  /** The item node a padded index `[ ws1 d ws2 ]` gives in `ModelAttrAccessor`. */
  function IndexNode(d: string): Node
    requires AllIn(d, Digit)
  {
    CollectionItemAccess(DigitsValue(d), "[" + NatToString(DigitsValue(d)) + "]")
  }

  lemma ItemPadded(text: string, i: nat, ws1: string, d: string, ws2: string)
    requires i < |text| && text[i] == '['
    requires AllIn(ws1, White) && d != [] && AllIn(d, Digit) && AllIn(ws2, White)
    requires PrefixAt(text, i + 1, ws1) && PrefixAt(text, i + 1 + |ws1|, d) && PrefixAt(text, i + 1 + |ws1| + |d|, ws2)
    requires i + 1 + |ws1| + |d| + |ws2| < |text| && text[i + 1 + |ws1| + |d| + |ws2|] == ']'
    ensures ItemAccess(text, i, ModelAttrAccessor) == Success((IndexNode(d), i + 2 + |ws1| + |d| + |ws2|))
  {
    var j := i + 1 + |ws1|;
    var k := j + |d|;
    assert Pad(text, i + 1, ModelAttrAccessor) == j by {
      PrefixAtChar(text, j, d, 0);
      ScanWhiteOver(text, i + 1, ws1);
    }
    assert Scan(text, j, Digit) == k by {
      if |ws2| > 0 {
        PrefixAtChar(text, k, ws2, 0);
      }
      ScanOver(text, j, d, Digit);
    }
    assert text[j..k] == d by {
      PrefixSlice(text, j, d);
    }
    assert Pad(text, k, ModelAttrAccessor) == k + |ws2| by {
      ScanWhiteOver(text, k, ws2);
    }
  }

  /** Well-formed later nodes running to the end of the path are what
      `Continue` reads there. */
  lemma ContinueToEnd(text: string, e: nat, ms: seq<Node>, api: Api)
    requires WellFormedFrom(ms, false) && PrefixAt(text, e, Texts(ms)) && e + |Texts(ms)| == |text|
    ensures Continue(text, e, api) == Success(Parsed(ms, |text|))
  {
    var tail := Continue(text, |text|, api);
    assert tail == Success(Parsed([], |text|)) by {
      ContinueAtWhiteEnd(text, |text|, "", api);
    }
    if ms != [] {
      assert Continue(text, e, api) == Chain(text, e, false, api) by {
        LaterTextStart(ms);
        PrefixAtChar(text, e, Texts(ms), 0);
        ContinueNoWhite(text, e, api);
      }
      assert Chain(text, e, false, api) == Prepend(ms, tail) by {
        ChainOverRendered(text, e, false, ms, api, |text|);
      }
      assert ms + [] == ms;
    }
  }

  /** A padded index read as an expression of a chain. */
  lemma ChainPaddedStep(text: string, i: nat, first: bool, ws1: string, d: string, ws2: string)
    requires AllIn(ws1, White) && d != [] && AllIn(d, Digit) && AllIn(ws2, White)
    requires PrefixAt(text, i, "[" + ws1 + d + ws2 + "]")
    ensures Chain(text, i, first, ModelAttrAccessor) ==
      Prepend([IndexNode(d)], Continue(text, i + |"[" + ws1 + d + ws2 + "]"|, ModelAttrAccessor))
  {
    var e := i + |"[" + ws1 + d + ws2 + "]"|;
    PrefixAtSplit(text, i, "[" + ws1 + d + ws2, "]");
    PrefixAtSplit(text, i, "[" + ws1 + d, ws2);
    PrefixAtSplit(text, i, "[" + ws1, d);
    PrefixAtSplit(text, i, "[", ws1);
    PrefixAtChar(text, i, "[", 0);
    PrefixAtChar(text, e - 1, "]", 0);
    ItemPadded(text, i, ws1, d, ws2);
    ChainStep(text, i, first, ModelAttrAccessor, IndexNode(d), e);
  }

  /** A padded index, then well-formed later nodes up to the end of the
      path, read as a chain. */
  lemma ChainPaddedIndex(text: string, i: nat, first: bool, ws1: string, d: string, ws2: string, ms: seq<Node>)
    requires AllIn(ws1, White) && d != [] && AllIn(d, Digit) && AllIn(ws2, White) && WellFormedFrom(ms, false)
    requires PrefixAt(text, i, "[" + ws1 + d + ws2 + "]")
    requires PrefixAt(text, i + |"[" + ws1 + d + ws2 + "]"|, Texts(ms))
    requires i + |"[" + ws1 + d + ws2 + "]"| + |Texts(ms)| == |text|
    ensures Chain(text, i, first, ModelAttrAccessor) == Success(Parsed([IndexNode(d)] + ms, |text|))
  {
    var e := i + |"[" + ws1 + d + ws2 + "]"|;
    var tail := Continue(text, e, ModelAttrAccessor);
    assert Chain(text, i, first, ModelAttrAccessor) == Prepend([IndexNode(d)], tail) by {
      ChainPaddedStep(text, i, first, ws1, d, ws2);
    }
    assert tail == Success(Parsed(ms, |text|)) by {
      ContinueToEnd(text, e, ms, ModelAttrAccessor);
    }
  }

  /** `ModelAttrAccessor` skips whitespace just inside the brackets of an
      index, wherever the index stands. */
  lemma LenientIndexPadding(ns: seq<Node>, ws1: string, d: string, ws2: string, ms: seq<Node>)
    requires WellFormed(ns) && WellFormedFrom(ms, false)
    requires AllIn(ws1, White) && d != [] && AllIn(d, Digit) && AllIn(ws2, White)
    ensures Parse(Texts(ns) + "[" + ws1 + d + ws2 + "]" + Texts(ms), ModelAttrAccessor) == Success(ns + [IndexNode(d)] + ms)
  {
    var t := Texts(ns);
    var q := "[" + ws1 + d + ws2 + "]" + Texts(ms);
    PaddedText(t, ws1, d, ws2, Texts(ms));
    NodesAssoc(ns, IndexNode(d), ms);
    if ns == [] {
      assert t + q == q && ns + ([IndexNode(d)] + ms) == [IndexNode(d)] + ms;
      PaddedFirst(ws1, d, ws2, ms);
    } else {
      PaddedTail(t, ws1, d, ws2, ms);
      ParseAfterNodesOk(ns, q, ModelAttrAccessor, [IndexNode(d)] + ms);
    }
  }

  /** A padded index in first position, then well-formed later nodes. */
  lemma PaddedFirst(ws1: string, d: string, ws2: string, ms: seq<Node>)
    requires AllIn(ws1, White) && d != [] && AllIn(d, Digit) && AllIn(ws2, White) && WellFormedFrom(ms, false)
    ensures Parse("[" + ws1 + d + ws2 + "]" + Texts(ms), ModelAttrAccessor) == Success([IndexNode(d)] + ms)
  {
    var q := "[" + ws1 + d + ws2 + "]";
    var text := q + Texts(ms);
    assert Scan(text, 0, White) == 0 && PrefixAt(text, 0, q) && PrefixAt(text, |q|, Texts(ms)) by {
      BracketThen(q, Texts(ms));
      ScanIs(text, 0, White, 0);
    }
    assert Chain(text, 0, true, ModelAttrAccessor) == Success(Parsed([IndexNode(d)] + ms, |text|)) by {
      ChainPaddedIndex(text, 0, true, ws1, d, ws2, ms);
    }
    ParseOfChain(text, ModelAttrAccessor, 0, [IndexNode(d)] + ms);
  }

  /** A bracketed piece followed by more text, each at its own position. */
  lemma BracketThen(q: string, m: string)
    requires q != [] && q[0] == '['
    ensures PrefixAt(q + m, 0, q) && PrefixAt(q + m, |q|, m) && (q + m)[0] == '[' && !IsWhite('[')
  {
  }

  lemma ParseAfterNodesOk(ns: seq<Node>, q: string, api: Api, rest: seq<Node>)
    requires WellFormed(ns) && ns != [] && q != [] && q[0] == '['
    requires Continue(Texts(ns) + q, |Texts(ns)|, api).Success?
    requires Continue(Texts(ns) + q, |Texts(ns)|, api).value.nodes == rest
    ensures Parse(Texts(ns) + q, api) == Success(ns + rest)
  {
    ParseAfterNodes(ns, q, api);
  }

  lemma NodesAssoc(ns: seq<Node>, n: Node, ms: seq<Node>)
    ensures ns + ([n] + ms) == ns + [n] + ms
  {
  }

  lemma PaddedTail(t: string, ws1: string, d: string, ws2: string, ms: seq<Node>)
    requires AllIn(ws1, White) && d != [] && AllIn(d, Digit) && AllIn(ws2, White) && WellFormedFrom(ms, false)
    ensures Continue(t + ("[" + ws1 + d + ws2 + "]" + Texts(ms)), |t|, ModelAttrAccessor)
      == Success(Parsed([IndexNode(d)] + ms, |t + ("[" + ws1 + d + ws2 + "]" + Texts(ms))|))
  {
    var q := "[" + ws1 + d + ws2 + "]";
    var m := Texts(ms);
    var text := t + (q + m);
    assert PrefixAt(text, |t|, q + m);
    PrefixAtSplit(text, |t|, q, m);
    PrefixAtChar(text, |t|, q, 0);
    ContinueNoWhite(text, |t|, ModelAttrAccessor);
    ChainPaddedIndex(text, |t|, false, ws1, d, ws2, ms);
  }

  lemma PaddedText(t: string, ws1: string, d: string, ws2: string, m: string)
    ensures t + "[" + ws1 + d + ws2 + "]" + m == t + ("[" + ws1 + d + ws2 + "]" + m)
  {
  }

  /** `modelAccess` rejects the same padded index, whatever follows it. */
  lemma StrictIndexPadding(ns: seq<Node>, ws1: string, d: string, ws2: string, rest: string)
    requires WellFormed(ns)
    requires AllIn(ws1, White) && d != [] && AllIn(d, Digit) && AllIn(ws2, White)
    requires ws1 + ws2 != []
    ensures Parse(Texts(ns) + "[" + ws1 + d + ws2 + "]" + rest, ModelAccess).Failure?
  {
    var t := Texts(ns);
    if ws1 != [] {
      PaddedAfterBracket(t, ws1, d, ws2, rest);
      IndexWithoutNumberRejected(ns, [], ws1 + d + ws2 + "]" + rest, ModelAccess);
    } else {
      PaddedAfterNumber(t, d, ws2, rest);
      IndexUnclosedRejected(ns, d, ws2 + "]" + rest, ModelAccess);
    }
  }

  lemma PaddedAfterBracket(t: string, ws1: string, d: string, ws2: string, rest: string)
    requires ws1 != [] && AllIn(ws1, White)
    ensures t + "[" + ws1 + d + ws2 + "]" + rest == t + ("[" + [] + (ws1 + d + ws2 + "]" + rest))
    ensures (ws1 + d + ws2 + "]" + rest)[0] == ws1[0] && IsWhite(ws1[0]) && !IsDigit(ws1[0])
  {
  }

  lemma PaddedAfterNumber(t: string, d: string, ws2: string, rest: string)
    requires ws2 != [] && AllIn(ws2, White)
    ensures t + "[" + [] + d + ws2 + "]" + rest == t + ("[" + d + (ws2 + "]" + rest))
    ensures (ws2 + "]" + rest)[0] == ws2[0] && IsWhite(ws2[0]) && !IsDigit(ws2[0]) && ws2[0] != ']'
  {
  }

  // ---------------------------------------------------------------------
  // Round trip from the path: a path written canonically is the
  // concatenation of its nodes' texts
  // ---------------------------------------------------------------------

  /** No whitespace anywhere in the text. */
  predicate NoWhite(text: string) {
    forall p :: 0 <= p < |text| ==> !IsWhite(text[p])
  }

  /** No index number starts with a `0` that has more digits after it. */
  predicate NoLeadingZeros(text: string) {
    forall p :: 0 <= p < |text| - 2 && text[p] == '[' && text[p + 1] == '0' ==> !IsDigit(text[p + 2])
  }

  /** An expression read from a canonically written text is its own node's
      text. */
  lemma ExpressionText(text: string, i: nat, first: bool, api: Api)
    requires i < |text| && NoWhite(text) && NoLeadingZeros(text)
    requires Expression(text, i, first, api).Success?
    ensures var (n, j) := Expression(text, i, first, api).value; n.text == text[i..j]
  {
    if text[i] == '[' {
      ItemText(text, i, api);
    } else {
      AttrText(text, i, first);
    }
  }

  /** An attribute's `text` is the slice it consumed, its dot included. */
  lemma AttrText(text: string, i: nat, first: bool)
    requires i <= |text| && AttrAccess(text, i, first).Success?
    ensures var (n, j) := AttrAccess(text, i, first).value; n.text == text[i..j]
  {
    if !first {
      var k := AttrAccess(text, i, first).value.1;
      assert text[i] == '.';
      assert text[i..k] == [text[i]] + text[i + 1..k];
    }
  }

  /** Without whitespace there is no padding to skip. */
  lemma NoPad(text: string, i: nat, api: Api)
    requires i <= |text| && NoWhite(text)
    ensures Pad(text, i, api) == i
  {
    if api == ModelAttrAccessor && i < |text| {
      assert !InClass(text[i], White);
    }
  }

  /** The digits of an index in a text with no leading zeros are written as
      JavaScript prints their number. */
  lemma IndexDigitsCanonical(text: string, i: nat, k: nat)
    requires i + 1 < k <= |text| && text[i] == '[' && AllIn(text[i + 1..k], Digit) && NoLeadingZeros(text)
    ensures Canonical(text[i + 1..k])
  {
    var d := text[i + 1..k];
    if |d| > 1 {
      assert d[0] == text[i + 1] && d[1] == text[i + 2];
      assert InClass(d[1], Digit);
    }
  }

  /** An index's `text` is the slice it consumed. */
  lemma ItemText(text: string, i: nat, api: Api)
    requires i < |text| && text[i] == '[' && NoWhite(text) && NoLeadingZeros(text)
    requires ItemAccess(text, i, api).Success?
    ensures var (n, j) := ItemAccess(text, i, api).value; n.text == text[i..j]
  {
    NoPad(text, i + 1, api);
    var k := Scan(text, i + 1, Digit);
    NoPad(text, k, api);
    var d := text[i + 1..k];
    IndexDigitsCanonical(text, i, k);
    PrintedOfValue(d);
    BracketSlice(text, i, k);
  }

  lemma BracketSlice(text: string, i: nat, k: nat)
    requires i < k < |text| && text[i] == '[' && text[k] == ']'
    ensures text[i..k + 1] == "[" + text[i + 1..k] + "]"
  {
  }

  /** The chain over a canonically written text consumes it node by node:
      the nodes' texts concatenate to the text it read. */
  lemma {:induction false} ChainTexts(text: string, i: nat, first: bool, api: Api)
    requires i <= |text| && NoWhite(text) && NoLeadingZeros(text)
    ensures Chain(text, i, first, api).Success? ==> Texts(Chain(text, i, first, api).value.nodes) == text[i..]
    decreases |text| - i
  {
    if i < |text| && Chain(text, i, first, api).Success? {
      var (n, j) := Expression(text, i, first, api).value;
      ExpressionText(text, i, first, api);
      assert Continue(text, j, api) == Chain(text, j, false, api) by {
        NoPad(text, j, ModelAttrAccessor);
      }
      ChainStep(text, i, first, api, n, j);
      ChainTexts(text, j, false, api);
      ConsTexts(n, Chain(text, j, false, api).value.nodes, text, i, j);
    }
  }

  lemma ConsTexts(n: Node, rest: seq<Node>, text: string, i: nat, j: nat)
    requires i <= j <= |text| && n.text == text[i..j] && Texts(rest) == text[j..]
    ensures Texts([n] + rest) == text[i..]
  {
    assert ([n] + rest)[1..] == rest;
    assert text[i..j] + text[j..] == text[i..];
  }

  /** Round trip from the path: a path with no whitespace and no leading
      zero in an index is exactly the concatenation of its nodes' texts, so
      the parser keeps such a path verbatim. */
  lemma ParseTexts(path: string, api: Api)
    requires Parse(path, api).Success? && NoWhite(path) && NoLeadingZeros(path)
    ensures Texts(Parse(path, api).value) == path
  {
    ScanIs(path, 0, White, 0);
    ChainTexts(path, 0, true, api);
    assert path[0..] == path;
  }

  // ---------------------------------------------------------------------
  // Soundness: what the parser returns is well-formed
  // ---------------------------------------------------------------------

  lemma ExpressionSound(text: string, i: nat, first: bool, api: Api)
    requires i < |text|
    ensures Expression(text, i, first, api).Success? ==> NodeOk(Expression(text, i, first, api).value.0, first)
  {
    if text[i] != '[' && AttrAccess(text, i, first).Success? {
      var j := if first then i else i + 1;
      var k := Scan(text, j + 1, NameChar);
      var name := text[j..k];
      assert name[0] == text[j];
      assert forall p :: 1 <= p < |name| ==> name[p] == text[j + 1..k][p - 1];
    }
  }

  lemma {:induction false} ChainSound(text: string, i: nat, first: bool, api: Api)
    requires i <= |text|
    ensures Chain(text, i, first, api).Success? ==> WellFormedFrom(Chain(text, i, first, api).value.nodes, first)
    decreases |text| - i, 0
  {
    if i < |text| {
      match Expression(text, i, first, api)
      case Failure(_) =>
      case Success((node, j)) =>
        ExpressionSound(text, i, first, api);
        ContinueSound(text, j, api);
        var r := Continue(text, j, api);
        if r.Success? {
          assert ([node] + r.value.nodes)[1..] == r.value.nodes;
        }
    }
  }

  lemma {:induction false} ContinueSound(text: string, j: nat, api: Api)
    requires j <= |text|
    ensures Continue(text, j, api).Success? ==> WellFormedFrom(Continue(text, j, api).value.nodes, false)
    decreases |text| - j, 1
  {
    var k := Scan(text, j, White);
    if !(j < k < |text|) {
      ChainSound(text, k, false, api);
    }
  }

  /** Every successful parse gives a well-formed node sequence, and parsing
      the nodes' concatenated text gives the same nodes back: the texts are a
      normal form of the path. */
  lemma ParseSound(path: string, api: Api)
    ensures Parse(path, api).Success? ==> WellFormed(Parse(path, api).value)
    ensures Parse(path, api).Success? ==> Parse(Texts(Parse(path, api).value), api) == Parse(path, api)
  {
    ChainSound(path, Scan(path, 0, White), true, api);
    if Parse(path, api).Success? {
      var ns := Parse(path, api).value;
      ParseRendered("", ns, "", api);
      assert "" + Texts(ns) + "" == Texts(ns);
    }
  }
}
