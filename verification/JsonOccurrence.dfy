// Where the text of a syntax tree ends, if it occurs at an index of a text: walked
// along the tree, and equal to finding the printed text.
module JsonOccurrence {
  import opened Wrappers
  import opened JsonGrammar
  import opened JsonScanner

  // The end of a text that occurs at an index of another.
  function LexEnd(text: Text, i: nat, s: Text): (r: Option<nat>)
    ensures r.Some? ==> r.value == i + |s| && r.value <= |text|
    decreases s
  {
    if s == [] then (if i <= |text| then Some(i) else None)
    else if At(text, i) == s[0] then LexEnd(text, i + 1, s[1..])
    else None
  }

  function Expect(text: Text, i: nat, c: CodeUnit): Option<nat> {
    if At(text, i) == c then Some(i + 1) else None
  }

  lemma {:induction false} LexEndMeans(text: Text, i: nat, s: Text)
    ensures LexEnd(text, i, s).Some? <==> i + |s| <= |text| && text[i..i + |s|] == s
    decreases s
  {
    if s != [] {
      LexEndMeans(text, i + 1, s[1..]);
      if i + |s| <= |text| {
        assert text[i..i + |s|] == [text[i]] + text[i + 1..i + |s|];
        assert s == [s[0]] + s[1..];
      }
    }
  }

  lemma LexHere(text: Text, i: nat, j: nat)
    requires i <= j <= |text|
    ensures LexEnd(text, i, text[i..j]) == Some(j)
  {
    LexEndMeans(text, i, text[i..j]);
  }

  lemma LexOne(text: Text, i: nat, c: CodeUnit)
    ensures LexEnd(text, i, [c]) == Expect(text, i, c)
  {
  }

  function Then(text: Text, r: Option<nat>, s: Text): Option<nat> {
    if r.None? then None else LexEnd(text, r.value, s)
  }

  lemma {:induction false} LexSplit(text: Text, i: nat, a: Text, b: Text)
    ensures LexEnd(text, i, a + b) == Then(text, LexEnd(text, i, a), b)
    decreases a
  {
    if a == [] {
      assert a + b == b;
      if i > |text| {
        LexEndMeans(text, i, b);
      }
    } else {
      assert (a + b)[1..] == a[1..] + b;
      LexSplit(text, i + 1, a[1..], b);
    }
  }

  lemma LexCons(text: Text, i: nat, c: CodeUnit, s: Text)
    ensures LexEnd(text, i, [c] + s) == if At(text, i) == c then LexEnd(text, i + 1, s) else None
  {
    LexSplit(text, i, [c], s);
    LexOne(text, i, c);
  }

  // White space, a separator and more text.
  lemma LexAfter(text: Text, i: nat, after: Text, c: CodeUnit, s: Text)
    ensures LexEnd(text, i, after + ([c] + s)) ==
            (var j := LexEnd(text, i, after);
             if j.Some? && At(text, j.value) == c then LexEnd(text, j.value + 1, s) else None)
  {
    LexSplit(text, i, after, [c] + s);
    if LexEnd(text, i, after).Some? {
      LexCons(text, LexEnd(text, i, after).value, c, s);
    }
  }

  // Numbers

  function MinusEnd(text: Text, i: nat, negative: bool): Option<nat> {
    if negative then Expect(text, i, MINUS) else if i <= |text| then Some(i) else None
  }

  function NumberEnd(text: Text, i: nat, n: Number): Option<nat> {
    var j :- MinusEnd(text, i, n.negative);
    var k :- LexEnd(text, j, n.integer);
    var l :- LexEnd(text, k, FractionText(n.fraction));
    LexEnd(text, l, ExponentText(n.exponent))
  }

  lemma NumberEndMeans(text: Text, i: nat, n: Number)
    ensures NumberEnd(text, i, n) == LexEnd(text, i, NumberText(n))
  {
    var f, e := FractionText(n.fraction), ExponentText(n.exponent);
    LexSplit(text, i, MinusText(n.negative), n.integer + (f + e));
    LexOne(text, i, MINUS);
    if MinusEnd(text, i, n.negative).Some? {
      var j := MinusEnd(text, i, n.negative).value;
      LexSplit(text, j, n.integer, f + e);
      if LexEnd(text, j, n.integer).Some? {
        LexSplit(text, LexEnd(text, j, n.integer).value, f, e);
      }
    }
  }

  // Strings

  // The end of a string's remaining characters and closing quote.
  function CharsEnd(text: Text, i: nat, cs: Chars): Option<nat>
    decreases cs
  {
    match cs
    case NoChars => Expect(text, i, QUOTE)
    case Chars(first, rest) =>
      var j :- LexEnd(text, i, TokenText(first));
      CharsEnd(text, j, rest)
  }

  lemma {:induction false} CharsEndMeans(text: Text, i: nat, cs: Chars)
    ensures CharsEnd(text, i, cs) == LexEnd(text, i, CharsText(cs))
    decreases cs
  {
    match cs
    case NoChars => LexOne(text, i, QUOTE);
    case Chars(first, rest) =>
      LexSplit(text, i, TokenText(first), CharsText(rest));
      if LexEnd(text, i, TokenText(first)).Some? {
        CharsEndMeans(text, LexEnd(text, i, TokenText(first)).value, rest);
      }
  }

  function StringEnd(text: Text, i: nat, cs: Chars): Option<nat> {
    if At(text, i) == QUOTE then CharsEnd(text, i + 1, cs) else None
  }

  lemma StringEndMeans(text: Text, i: nat, cs: Chars)
    ensures StringEnd(text, i, cs) == LexEnd(text, i, StringText(cs))
  {
    LexCons(text, i, QUOTE, CharsText(cs));
    CharsEndMeans(text, i + 1, cs);
  }

  // Values

  function BracketsEnd(text: Text, i: nat, open: CodeUnit, inner: Text, close: CodeUnit): Option<nat> {
    var j :- Expect(text, i, open);
    var k :- LexEnd(text, j, inner);
    Expect(text, k, close)
  }

  lemma BracketsEndMeans(text: Text, i: nat, open: CodeUnit, inner: Text, close: CodeUnit)
    ensures BracketsEnd(text, i, open, inner, close) == LexEnd(text, i, [open] + (inner + [close]))
  {
    LexCons(text, i, open, inner + [close]);
    LexSplit(text, i + 1, inner, [close]);
    if LexEnd(text, i + 1, inner).Some? {
      LexOne(text, LexEnd(text, i + 1, inner).value, close);
    }
  }

  function ValueEnd(text: Text, i: nat, v: Value): Option<nat>
    decreases v
  {
    match v
    case True => LexEnd(text, i, TRUE_TEXT)
    case False => LexEnd(text, i, FALSE_TEXT)
    case Null => LexEnd(text, i, NULL_TEXT)
    case Num(n) => NumberEnd(text, i, n)
    case Str(ts) => StringEnd(text, i, ts)
    case EmptyArray(inner) => BracketsEnd(text, i, OPEN_BRACKET, inner, CLOSE_BRACKET)
    case EmptyObject(inner) => BracketsEnd(text, i, OPEN_BRACE, inner, CLOSE_BRACE)
    case Array(elements) => if At(text, i) == OPEN_BRACKET then ElementsEnd(text, i + 1, elements) else None
    case Object(members) => if At(text, i) == OPEN_BRACE then MembersEnd(text, i + 1, members) else None
  }

  function ElementsEnd(text: Text, i: nat, e: Elements): Option<nat>
    decreases e, 1
  {
    var j :- LexEnd(text, i, e.before);
    var end :- ValueEnd(text, j, e.value);
    ElementsTailEnd(text, end, e)
  }

  // What follows the first of some elements.
  function ElementsTailEnd(text: Text, i: nat, e: Elements): Option<nat>
    decreases e, 0
  {
    var separator :- LexEnd(text, i, e.after);
    match e.rest
    case None => Expect(text, separator, CLOSE_BRACKET)
    case Some(rest) => if At(text, separator) == COMMA then ElementsEnd(text, separator + 1, rest) else None
  }

  function ColonEnd(text: Text, i: nat, before: Text, after: Text): Option<nat> {
    var colon :- LexEnd(text, i, before);
    if At(text, colon) == COLON then LexEnd(text, colon + 1, after) else None
  }

  function HeadEnd(text: Text, i: nat, m: Members): Option<nat> {
    var j :- LexEnd(text, i, m.before);
    var k :- StringEnd(text, j, m.key);
    ColonEnd(text, k, m.colonBefore, m.colonAfter)
  }

  function MembersEnd(text: Text, i: nat, m: Members): Option<nat>
    decreases m, 1
  {
    var start :- HeadEnd(text, i, m);
    var end :- ValueEnd(text, start, m.value);
    MembersTailEnd(text, end, m)
  }

  // What follows the first of some members.
  function MembersTailEnd(text: Text, i: nat, m: Members): Option<nat>
    decreases m, 0
  {
    var separator :- LexEnd(text, i, m.after);
    match m.rest
    case None => Expect(text, separator, CLOSE_BRACE)
    case Some(rest) => if At(text, separator) == COMMA then MembersEnd(text, separator + 1, rest) else None
  }

  lemma HeadEndMeans(text: Text, i: nat, m: Members)
    ensures HeadEnd(text, i, m) == LexEnd(text, i, HeadText(m))
  {
    var colon := m.colonBefore + ([COLON] + m.colonAfter);
    LexSplit(text, i, m.before, StringText(m.key) + colon);
    if LexEnd(text, i, m.before).Some? {
      var j := LexEnd(text, i, m.before).value;
      LexSplit(text, j, StringText(m.key), colon);
      StringEndMeans(text, j, m.key);
      if StringEnd(text, j, m.key).Some? {
        LexAfter(text, StringEnd(text, j, m.key).value, m.colonBefore, COLON, m.colonAfter);
      }
    }
  }

  lemma {:induction false} ValueEndMeans(text: Text, i: nat, v: Value)
    ensures ValueEnd(text, i, v) == LexEnd(text, i, ValueText(v))
    decreases v
  {
    match v
    case Num(n) => NumberEndMeans(text, i, n);
    case Str(ts) => StringEndMeans(text, i, ts);
    case EmptyArray(inner) => BracketsEndMeans(text, i, OPEN_BRACKET, inner, CLOSE_BRACKET);
    case EmptyObject(inner) => BracketsEndMeans(text, i, OPEN_BRACE, inner, CLOSE_BRACE);
    case Array(elements) =>
      LexCons(text, i, OPEN_BRACKET, ElementsText(elements));
      ElementsEndMeans(text, i + 1, elements);
    case Object(members) =>
      LexCons(text, i, OPEN_BRACE, MembersText(members));
      MembersEndMeans(text, i + 1, members);
    case _ =>
  }

  function ElementsTailText(e: Elements): Text {
    e.after + (match e.rest case None => [CLOSE_BRACKET] case Some(rest) => [COMMA] + ElementsText(rest))
  }

  lemma {:induction false} ElementsEndMeans(text: Text, i: nat, e: Elements)
    ensures ElementsEnd(text, i, e) == LexEnd(text, i, ElementsText(e))
    decreases e, 1
  {
    LexSplit(text, i, e.before, ValueText(e.value) + ElementsTailText(e));
    var start := LexEnd(text, i, e.before);
    if start.Some? {
      LexSplit(text, start.value, ValueText(e.value), ElementsTailText(e));
      ValueEndMeans(text, start.value, e.value);
      if ValueEnd(text, start.value, e.value).Some? {
        ElementsTailMeans(text, ValueEnd(text, start.value, e.value).value, e);
      }
    }
  }

  lemma {:induction false} ElementsTailMeans(text: Text, i: nat, e: Elements)
    ensures ElementsTailEnd(text, i, e) == LexEnd(text, i, ElementsTailText(e))
    decreases e, 0
  {
    match e.rest
    case None => LexLast(text, i, e.after, CLOSE_BRACKET);
    case Some(rest) =>
      LexAfter(text, i, e.after, COMMA, ElementsText(rest));
      if LexEnd(text, i, e.after).Some? {
        ElementsEndMeans(text, LexEnd(text, i, e.after).value + 1, rest);
      }
  }

  lemma LexLast(text: Text, i: nat, after: Text, c: CodeUnit)
    ensures LexEnd(text, i, after + [c]) ==
            (var j := LexEnd(text, i, after); if j.Some? then Expect(text, j.value, c) else None)
  {
    LexSplit(text, i, after, [c]);
    if LexEnd(text, i, after).Some? {
      LexOne(text, LexEnd(text, i, after).value, c);
    }
  }

  function MembersTailText(m: Members): Text {
    m.after + (match m.rest case None => [CLOSE_BRACE] case Some(rest) => [COMMA] + MembersText(rest))
  }

  lemma {:induction false} MembersEndMeans(text: Text, i: nat, m: Members)
    ensures MembersEnd(text, i, m) == LexEnd(text, i, MembersText(m))
    decreases m, 1
  {
    LexSplit(text, i, HeadText(m), ValueText(m.value) + MembersTailText(m));
    HeadEndMeans(text, i, m);
    var start := HeadEnd(text, i, m);
    if start.Some? {
      LexSplit(text, start.value, ValueText(m.value), MembersTailText(m));
      ValueEndMeans(text, start.value, m.value);
      if ValueEnd(text, start.value, m.value).Some? {
        MembersTailMeans(text, ValueEnd(text, start.value, m.value).value, m);
      }
    }
  }

  lemma {:induction false} MembersTailMeans(text: Text, i: nat, m: Members)
    ensures MembersTailEnd(text, i, m) == LexEnd(text, i, MembersTailText(m))
    decreases m, 0
  {
    match m.rest
    case None => LexLast(text, i, m.after, CLOSE_BRACE);
    case Some(rest) =>
      LexAfter(text, i, m.after, COMMA, MembersText(rest));
      if LexEnd(text, i, m.after).Some? {
        MembersEndMeans(text, LexEnd(text, i, m.after).value + 1, rest);
      }
  }
}
