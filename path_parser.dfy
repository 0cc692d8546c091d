/** The path parser as the source writes it: a closure over `text` and
    `index` (and `current`, always the character at `index`), with one
    method per grammar rule that advances `index` as it consumes input and
    stops with a `SyntaxError` at the first fault. Each method is proved to
    compute the matching function of module PathSyntax. */
module PathParser {
  import opened Results
  import opened PathSyntax

  /** A rule's outcome against the specification function's: the same
      error, or the same value with `index` where the function stops. */
  predicate Agrees<T(==)>(r: Result<T, SyntaxError>, spec: Result<(T, nat), SyntaxError>, index: nat) {
    match spec
    case Failure(e) => r == Failure(e)
    case Success((v, j)) => r == Success(v) && index == j
  }

  class Parser {
    const api: Api
    var text: string
    var index: nat

    constructor(api: Api)
      ensures this.api == api && text == "" && index == 0
    {
      this.api := api;
      text := "";
      index := 0;
    }

    /** `current`: the character at `index`, or none past the end (the
        empty string in the source). */
    function Current(): Option<char>
      reads this
    {
      if index < |text| then Some(text[index]) else None
    }

    /** `next(expected)`: check the current character when one is expected,
        then step past it and return it. */
    method Next(expected: Option<char>) returns (r: Result<Option<char>, SyntaxError>)
      modifies this
      ensures text == old(text)
      ensures expected.Some? && old(Current()) != expected ==>
        r == Failure(SyntaxError(old(index), ExpectedChar(expected.value))) && index == old(index)
      ensures !(expected.Some? && old(Current()) != expected) ==>
        r == Success(old(Current())) && index == old(index) + 1
    {
      if expected.Some? && expected != Current() {
        return Failure(SyntaxError(index, ExpectedChar(expected.value)));
      }
      r := Success(Current());
      index := index + 1;
    }

    /** `white()`: skip characters up to and including the space. */
    method White() returns (space: string)
      requires index <= |text|
      modifies this
      ensures text == old(text)
      ensures index == Scan(text, old(index), PathSyntax.White)
      ensures space == text[old(index)..index]
    {
      space := "";
      while index < |text| && IsWhite(text[index])
        invariant old(index) <= index <= |text|
        invariant text == old(text)
        invariant Scan(text, index, PathSyntax.White) == Scan(text, old(index), PathSyntax.White)
        invariant space == text[old(index)..index]
        decreases |text| - index
      {
        var c := Next(None);
        space := space + [c.value.value];
      }
    }

    /** `integer()`: a run of digits, read as a number by `+string`. */
    method Integer() returns (r: Result<nat, SyntaxError>)
      requires index <= |text|
      modifies this
      ensures text == old(text)
      ensures var k := Scan(text, old(index), Digit);
        if k == old(index) then r == Failure(SyntaxError(k, ExpectedNumber))
        else r == Success(DigitsValue(text[old(index)..k])) && index == k
    {
      var digits := "";
      while index < |text| && IsDigit(text[index])
        invariant old(index) <= index <= |text|
        invariant text == old(text)
        invariant Scan(text, index, Digit) == Scan(text, old(index), Digit)
        invariant digits == text[old(index)..index]
        decreases |text| - index
      {
        var c := Next(None);
        digits := digits + [c.value.value];
      }
      if digits == "" {
        return Failure(SyntaxError(index, ExpectedNumber));
      }
      r := Success(DigitsValue(digits));
    }

    /** `name()`: a letter or underscore, then letters, digits and underscores. */
    method Name() returns (r: Result<string, SyntaxError>)
      requires index <= |text|
      modifies this
      ensures text == old(text)
      ensures !(old(index) < |text| && IsNameStart(text[old(index)])) ==>
        r == Failure(SyntaxError(old(index), BadNameStart))
      ensures old(index) < |text| && IsNameStart(text[old(index)]) ==>
        var k := Scan(text, old(index) + 1, PathSyntax.NameChar);
        r == Success(text[old(index)..k]) && index == k
    {
      if !(index < |text| && IsNameStart(text[index])) {
        return Failure(SyntaxError(index, BadNameStart));
      }
      ghost var start := index;
      var c := Next(None);
      var s := [c.value.value];
      assert s == text[start..index];
      while index < |text| && IsNameChar(text[index])
        invariant start < index <= |text|
        invariant text == old(text)
        invariant Scan(text, index, PathSyntax.NameChar) == Scan(text, start + 1, PathSyntax.NameChar)
        invariant s == text[start..index]
        decreases |text| - index
      {
        ghost var before := index;
        c := Next(None);
        assert text[start..index] == text[start..before] + [text[before]];
        s := s + [c.value.value];
      }
      r := Success(s);
    }

    /** `attributeAccess(first)`: a `.` unless first, then a name. */
    method AttributeAccess(first: bool) returns (r: Result<Node, SyntaxError>)
      requires index <= |text|
      modifies this
      ensures text == old(text)
      ensures Agrees(r, AttrAccess(text, old(index), first), index)
    {
      var prefix := "";
      if !first {
        var dot := Next(Some('.'));
        if dot.Failure? {
          return Failure(dot.error);
        }
        prefix := ".";
      }
      var name := Name();
      if name.Failure? {
        return Failure(name.error);
      }
      assert first ==> prefix + name.value == name.value;
      r := Success(PathSyntax.AttributeAccess(name.value, prefix + name.value));
    }

    /** `collectionItemAccess()`: `[`, a number, `]`; `ModelAttrAccessor`
        skips whitespace either side of the number. */
    method CollectionItemAccess() returns (r: Result<Node, SyntaxError>)
      requires index < |text| && text[index] == '['
      modifies this
      ensures text == old(text)
      ensures Agrees(r, ItemAccess(text, old(index), api), index)
    {
      var open := Next(Some('['));
      if api == ModelAttrAccessor {
        var _ := White();
      }
      var number := Integer();
      if number.Failure? {
        return Failure(number.error);
      }
      if api == ModelAttrAccessor {
        var _ := White();
      }
      var close := Next(Some(']'));
      if close.Failure? {
        return Failure(close.error);
      }
      var n := number.value;
      r := Success(PathSyntax.CollectionItemAccess(n, "[" + NatToString(n) + "]"));
    }

    /** `expression(first)`: an index at `[`, an attribute otherwise. */
    method Expression(first: bool) returns (r: Result<Node, SyntaxError>)
      requires index < |text|
      modifies this
      ensures text == old(text)
      ensures Agrees(r, PathSyntax.Expression(text, old(index), first, api), index)
    {
      if text[index] == '[' {
        r := CollectionItemAccess();
      } else {
        r := AttributeAccess(first);
      }
    }

    /** `expressionChain()`: leading whitespace, then expressions while input
        remains; whitespace after an expression must end the path. */
    method ExpressionChain() returns (r: Result<seq<Node>, SyntaxError>)
      requires index <= |text|
      modifies this
      ensures text == old(text)
      ensures var spec := Chain(text, Scan(text, old(index), PathSyntax.White), true, api);
        match spec
        case Failure(e) => r == Failure(e)
        case Success(p) => r == Success(p.nodes) && index == p.end
    {
      var result: seq<Node> := [];
      var first := true;
      var _ := White();
      ghost var start := index;
      ghost var whole := Chain(text, start, true, api);
      if whole.Success? {
        assert [] + whole.value.nodes == whole.value.nodes;
      }
      while index < |text|
        invariant start <= index <= |text|
        invariant text == old(text) && start == Scan(text, old(index), PathSyntax.White)
        invariant Chain(text, start, true, api) == Prepend(result, Chain(text, index, first, api))
        decreases |text| - index
      {
        ghost var i := index;
        var node := Expression(first);
        if node.Failure? {
          PrependFailure(result, Chain(text, i, first, api));
          return Failure(node.error);
        }
        ghost var j := index;
        var space := White();
        ChainStep(text, i, first, api, node.value, j);
        if space != "" && index < |text| {
          PrependFailure(result, Chain(text, i, first, api));
          return Failure(SyntaxError(index, WhitespaceInPath));
        }
        PrependTwice(result, [node.value], Chain(text, index, false, api));
        result := result + [node.value];
        first := false;
      }
      assert result + [] == result;
      r := Success(result);
    }

    /** The parser's entry point: `text := path`, `index := 0`, the chain,
        then the check for input left over. */
    method Parse(path: string) returns (r: Result<seq<Node>, SyntaxError>)
      modifies this
      ensures text == path
      ensures r == PathSyntax.Parse(path, api)
    {
      text := path;
      index := 0;
      var chain := ExpressionChain();
      if chain.Failure? {
        return chain;
      }
      if index < |text| {
        return Failure(SyntaxError(index, Unrecognised));
      }
      r := chain;
    }
  }

  /** A failure anywhere in the rest of the chain is the chain's failure. */
  lemma PrependFailure(ns: seq<Node>, r: Result<Parsed, SyntaxError>)
    requires r.Failure?
    ensures Prepend(ns, r) == Failure(r.error)
  {
  }
}
