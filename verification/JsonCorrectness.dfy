// The recogniser accepts exactly the texts that derive from the grammar.
module JsonCorrectness {
  import opened Wrappers
  import opened JsonGrammar
  import opened JsonScanner
  import opened JsonOccurrence

  // White space and digits

  lemma {:induction false} SpaceSkips(text: Text, i: nat, ws: Text)
    requires LexEnd(text, i, ws).Some? && IsWs(ws) && !IsSpace(At(text, i + |ws|))
    ensures i <= |text| && SpaceEnd(text, i) == i + |ws|
    decreases ws
  {
    if ws != [] {
      SpaceSkips(text, i + 1, ws[1..]);
    }
  }

  lemma {:induction false} SpaceHere(text: Text, i: nat)
    requires i <= |text|
    ensures var j := SpaceEnd(text, i);
            IsWs(text[i..j]) && LexEnd(text, i, text[i..j]) == Some(j) && !IsSpace(At(text, j))
    decreases |text| - i
  {
    var j := SpaceEnd(text, i);
    LexHere(text, i, j);
    if IsSpace(At(text, i)) {
      SpaceHere(text, i + 1);
      assert text[i..j] == [text[i]] + text[i + 1..j];
    }
  }

  lemma {:induction false} DigitsSkip(text: Text, i: nat, ds: Text)
    requires LexEnd(text, i, ds).Some? && (forall k :: 0 <= k < |ds| ==> IsDigit(ds[k])) && !IsDigit(At(text, i + |ds|))
    ensures i <= |text| && DigitsEnd(text, i) == i + |ds|
    decreases ds
  {
    if ds != [] {
      DigitsSkip(text, i + 1, ds[1..]);
    }
  }

  lemma {:induction false} DigitsBefore(text: Text, i: nat)
    requires i <= |text|
    ensures forall k :: i <= k < DigitsEnd(text, i) ==> IsDigit(text[k])
    decreases |text| - i
  {
    if IsDigit(At(text, i)) {
      DigitsBefore(text, i + 1);
    }
  }

  lemma DigitsHere(text: Text, i: nat)
    requires IsDigit(At(text, i))
    ensures var j := DigitsEnd(text, i); IsDigits(text[i..j]) && LexEnd(text, i, text[i..j]) == Some(j)
  {
    DigitsBefore(text, i);
    LexHere(text, i, DigitsEnd(text, i));
  }

  // Numbers

  // Nothing after a number may extend it.
  predicate Stops(c: int) {
    !IsDigit(c) && c != POINT && c != LOWER_E && c != UPPER_E
  }

  lemma SoundFraction(text: Text, i: nat) returns (f: Option<Text>)
    requires i <= |text|
    ensures f.Some? ==> IsDigits(f.value)
    ensures LexEnd(text, i, FractionText(f)) == Some(FractionEnd(text, i))
  {
    f := None;
    if At(text, i) == POINT && IsDigit(At(text, i + 1)) {
      DigitsHere(text, i + 1);
      f := Some(text[i + 1..DigitsEnd(text, i + 1)]);
      LexCons(text, i, POINT, f.value);
    }
  }

  lemma ExponentParts(text: Text, i: nat, e: Exponent)
    ensures LexEnd(text, i, ExponentText(Some(e))) ==
            if At(text, i) != e.marker then None
            else Then(text, LexEnd(text, i + 1, SignText(e.sign)), e.digits)
  {
    LexCons(text, i, e.marker, SignText(e.sign) + e.digits);
    LexSplit(text, i + 1, SignText(e.sign), e.digits);
  }

  lemma SoundExponent(text: Text, i: nat) returns (e: Option<Exponent>)
    requires i <= |text|
    ensures e.Some? ==> ValidExponent(e.value)
    ensures LexEnd(text, i, ExponentText(e)) == Some(ExponentEnd(text, i))
  {
    e := None;
    if At(text, i) == LOWER_E || At(text, i) == UPPER_E {
      var signed := At(text, i + 1) == PLUS || At(text, i + 1) == MINUS;
      var k := if signed then i + 2 else i + 1;
      if IsDigit(At(text, k)) {
        DigitsHere(text, k);
        var sign := if signed then Some(text[i + 1]) else None;
        e := Some(Exponent(text[i], sign, text[k..DigitsEnd(text, k)]));
        ExponentParts(text, i, e.value);
        if signed {
          LexOne(text, i + 1, text[i + 1]);
        }
      }
    }
  }

  lemma SoundInteger(text: Text, j: nat)
    requires IntegerEnd(text, j).Some?
    ensures var s := text[j..IntegerEnd(text, j).value];
            IsDigits(s) && (s[0] == ZERO ==> |s| == 1) && LexEnd(text, j, s) == IntegerEnd(text, j)
  {
    LexHere(text, j, IntegerEnd(text, j).value);
    if At(text, j) != ZERO {
      DigitsHere(text, j);
    }
  }

  lemma SoundNumber(text: Text, i: nat) returns (n: Number)
    requires i <= |text| && ScanNumber(text, i).Some?
    ensures ValidNumber(n) && NumberEnd(text, i, n) == ScanNumber(text, i)
  {
    var negative := At(text, i) == MINUS;
    var j := if negative then i + 1 else i;
    var k := IntegerEnd(text, j).value;
    SoundInteger(text, j);
    var f := SoundFraction(text, k);
    var e := SoundExponent(text, FractionEnd(text, k));
    n := Number(negative, text[j..k], f, e);
  }

  lemma CompleteFraction(text: Text, i: nat, f: Option<Text>)
    requires (f.Some? ==> IsDigits(f.value)) && LexEnd(text, i, FractionText(f)).Some?
    requires !IsDigit(At(text, i + |FractionText(f)|)) && (f.None? ==> At(text, i) != POINT)
    ensures i <= |text| && LexEnd(text, i, FractionText(f)) == Some(FractionEnd(text, i))
  {
    if f.Some? {
      LexCons(text, i, POINT, f.value);
      DigitsSkip(text, i + 1, f.value);
    }
  }

  lemma CompleteExponent(text: Text, i: nat, e: Option<Exponent>)
    requires (e.Some? ==> ValidExponent(e.value)) && LexEnd(text, i, ExponentText(e)).Some?
    requires Stops(At(text, i + |ExponentText(e)|))
    ensures i <= |text| && LexEnd(text, i, ExponentText(e)) == Some(ExponentEnd(text, i))
  {
    if e.Some? {
      var x := e.value;
      ExponentParts(text, i, x);
      if x.sign.Some? {
        LexOne(text, i + 1, x.sign.value);
      }
      DigitsSkip(text, i + 1 + |SignText(x.sign)|, x.digits);
    }
  }

  lemma CompleteInteger(text: Text, j: nat, integer: Text)
    requires IsDigits(integer) && (integer[0] == ZERO ==> |integer| == 1) && LexEnd(text, j, integer).Some?
    requires !IsDigit(At(text, j + |integer|))
    ensures IntegerEnd(text, j) == LexEnd(text, j, integer) && IsDigit(At(text, j))
  {
    if integer[0] != ZERO {
      DigitsSkip(text, j, integer);
    }
  }

  lemma CompleteNumber(text: Text, i: nat, n: Number)
    requires ValidNumber(n) && NumberEnd(text, i, n).Some? && Stops(At(text, NumberEnd(text, i, n).value))
    ensures ScanNumber(text, i) == NumberEnd(text, i, n)
    ensures At(text, i) == MINUS || IsDigit(At(text, i))
  {
    var j := MinusEnd(text, i, n.negative).value;
    var k := LexEnd(text, j, n.integer).value;
    var l := LexEnd(text, k, FractionText(n.fraction)).value;
    CompleteExponent(text, l, n.exponent);
    CompleteFraction(text, k, n.fraction);
    CompleteInteger(text, j, n.integer);
  }

  // Strings

  // The surrogate rule read from left to right.
  predicate PairedFrom(pending: bool, s: Text)
    decreases s
  {
    if s == [] then !pending
    else Continues(pending, s[0]) && PairedFrom(!pending && IsHigh(s[0]), s[1..])
  }

  // Past a unit that is no high surrogate, the rule is that of the remaining text alone.
  lemma PairedRest(s: Text, k: nat)
    requires 0 < k <= |s| && !IsHigh(s[k - 1])
    ensures WellPaired(s[k..]) <==> forall i :: k <= i < |s| ==> PairedAt(s, i)
  {
    var t := s[k..];
    forall i | 0 <= i < |t|
      ensures PairedAt(t, i) <==> PairedAt(s, k + i)
    {
      assert t[i] == s[k + i];
      assert i + 1 < |t| ==> t[i + 1] == s[k + i + 1];
      assert i > 0 ==> t[i - 1] == s[k + i - 1];
    }
    assert forall i :: k <= i < |s| ==> (PairedAt(t, i - k) <==> PairedAt(s, i));
  }

  lemma {:induction false} PairedMeans(s: Text)
    ensures PairedFrom(false, s) <==> WellPaired(s)
    decreases s
  {
    if s != [] {
      assert WellPaired(s) ==> PairedAt(s, 0);
      if !IsHigh(s[0]) {
        PairedRest(s, 1);
        PairedMeans(s[1..]);
      } else if |s| >= 2 && IsLow(s[1]) {
        PairedRest(s, 2);
        assert s[1..][1..] == s[2..];
        PairedMeans(s[2..]);
        assert PairedAt(s, 0) && PairedAt(s, 1);
      }
    }
  }

  lemma TokenHere(text: Text, i: nat)
    requires TokenAt(text, i).Some?
    ensures LexEnd(text, i, TokenText(TokenAt(text, i).value)).Some?
  {
    var s := TokenText(TokenAt(text, i).value);
    assert forall k :: 0 <= k < |s| ==> s[k] == At(text, i + k);
    LexEndMeans(text, i, s);
  }

  lemma TokenThere(text: Text, i: nat, t: CharToken)
    requires ValidToken(t) && LexEnd(text, i, TokenText(t)).Some?
    ensures TokenAt(text, i) == Some(t) && At(text, i) != QUOTE
  {
    var s := TokenText(t);
    LexEndMeans(text, i, s);
    assert forall k :: 0 <= k < |s| ==> s[k] == At(text, i + k);
    if t.Hex? {
      assert s[1] == LOWER_U && s[2] == t.h0 && s[3] == t.h1 && s[4] == t.h2 && s[5] == t.h3;
    } else if t.Escape? {
      assert s[1] == t.letter;
    }
  }

  lemma PairedCons(pending: bool, u: CodeUnit, s: Text)
    ensures PairedFrom(pending, [u] + s) <==> Continues(pending, u) && PairedFrom(!pending && IsHigh(u), s)
  {
    assert ([u] + s)[1..] == s;
  }

  lemma {:induction false} SoundChars(text: Text, i: nat, pending: bool) returns (cs: Chars)
    requires ScanChars(text, i, pending).Some?
    ensures ValidChars(cs) && PairedFrom(pending, Units(cs)) && CharsEnd(text, i, cs).Some?
    ensures ScanChars(text, i, pending) == Some((CharsEnd(text, i, cs).value, Units(cs)))
    decreases |text| - i
  {
    if At(text, i) == QUOTE {
      cs := NoChars;
    } else {
      var t := TokenAt(text, i).value;
      TokenHere(text, i);
      var rest := SoundChars(text, i + |TokenText(t)|, !pending && IsHigh(TokenUnit(t)));
      cs := Chars(t, rest);
      PairedCons(pending, TokenUnit(t), Units(rest));
    }
  }

  lemma {:induction false} CompleteChars(text: Text, i: nat, pending: bool, cs: Chars)
    requires ValidChars(cs) && PairedFrom(pending, Units(cs)) && CharsEnd(text, i, cs).Some?
    ensures ScanChars(text, i, pending) == Some((CharsEnd(text, i, cs).value, Units(cs)))
    decreases cs
  {
    if cs.Chars? {
      var t, u := cs.first, TokenUnit(cs.first);
      TokenThere(text, i, t);
      PairedCons(pending, u, Units(cs.rest));
      CompleteChars(text, LexEnd(text, i, TokenText(t)).value, !pending && IsHigh(u), cs.rest);
      ScanCharsStep(text, i, pending, t);
    }
  }

  lemma ScanCharsStep(text: Text, i: nat, pending: bool, t: CharToken)
    requires At(text, i) != QUOTE && TokenAt(text, i) == Some(t) && Continues(pending, TokenUnit(t))
    ensures var rest := ScanChars(text, i + |TokenText(t)|, !pending && IsHigh(TokenUnit(t)));
            ScanChars(text, i, pending) ==
            if rest.None? then None else Some((rest.value.0, [TokenUnit(t)] + rest.value.1))
  {
  }

  lemma SoundString(text: Text, i: nat) returns (cs: Chars)
    requires ScanString(text, i).Some?
    ensures ValidString(cs) && StringEnd(text, i, cs).Some?
    ensures ScanString(text, i) == Some((StringEnd(text, i, cs).value, Units(cs)))
  {
    cs := SoundChars(text, i + 1, false);
    PairedMeans(Units(cs));
  }

  lemma CompleteString(text: Text, i: nat, cs: Chars)
    requires ValidString(cs) && StringEnd(text, i, cs).Some?
    ensures ScanString(text, i) == Some((StringEnd(text, i, cs).value, Units(cs)))
    ensures At(text, i) == QUOTE
  {
    PairedMeans(Units(cs));
    CompleteChars(text, i + 1, false, cs);
  }

  // What is scanned is the text of a tree

  lemma LiteralEnd(text: Text, i: nat, literal: Text)
    ensures ScanLiteral(text, i, literal) == LexEnd(text, i, literal)
  {
    LexEndMeans(text, i, literal);
  }

  lemma SoundScalar(text: Text, i: nat) returns (v: Value)
    requires ScanScalar(text, i).Some?
    ensures ValidValue(v) && Depth(v) == 0 && ValueEnd(text, i, v) == ScanScalar(text, i)
  {
    var c := At(text, i);
    if c == QUOTE {
      var cs := SoundString(text, i);
      v := Str(cs);
    } else if c == TRUE_TEXT[0] {
      LiteralEnd(text, i, TRUE_TEXT);
      v := True;
    } else if c == FALSE_TEXT[0] {
      LiteralEnd(text, i, FALSE_TEXT);
      v := False;
    } else if c == NULL_TEXT[0] {
      LiteralEnd(text, i, NULL_TEXT);
      v := Null;
    } else {
      var n := SoundNumber(text, i);
      v := Num(n);
    }
  }

  lemma {:induction false} SoundValue(text: Text, i: nat, depth: nat) returns (v: Value)
    requires depth <= MAX_JSON_DEPTH && ScanValue(text, i, depth).Some?
    ensures ValidValue(v) && depth + Depth(v) <= MAX_JSON_DEPTH && ValueEnd(text, i, v) == ScanValue(text, i, depth)
    decreases |text| - i, 2
  {
    if At(text, i) == OPEN_BRACE {
      v := SoundObject(text, i, depth);
    } else if At(text, i) == OPEN_BRACKET {
      v := SoundArray(text, i, depth);
    } else {
      v := SoundScalar(text, i);
    }
  }

  lemma {:induction false} SoundObject(text: Text, i: nat, depth: nat) returns (v: Value)
    requires depth <= MAX_JSON_DEPTH && At(text, i) == OPEN_BRACE && ScanObject(text, i, depth).Some?
    ensures ValidValue(v) && depth + Depth(v) <= MAX_JSON_DEPTH && ValueEnd(text, i, v) == ScanObject(text, i, depth)
    decreases |text| - i, 1
  {
    var j := SpaceEnd(text, i + 1);
    SpaceHere(text, i + 1);
    if At(text, j) == CLOSE_BRACE {
      v := EmptyObject(text[i + 1..j]);
    } else {
      var m := SoundMembers(text, i + 1, depth + 1, {});
      v := Object(m);
    }
  }

  lemma {:induction false} SoundArray(text: Text, i: nat, depth: nat) returns (v: Value)
    requires depth <= MAX_JSON_DEPTH && At(text, i) == OPEN_BRACKET && ScanArray(text, i, depth).Some?
    ensures ValidValue(v) && depth + Depth(v) <= MAX_JSON_DEPTH && ValueEnd(text, i, v) == ScanArray(text, i, depth)
    decreases |text| - i, 1
  {
    var j := SpaceEnd(text, i + 1);
    SpaceHere(text, i + 1);
    if At(text, j) == CLOSE_BRACKET {
      v := EmptyArray(text[i + 1..j]);
    } else {
      var e := SoundElements(text, i + 1, depth + 1);
      v := Array(e);
    }
  }

  // From the white space before an element to the closing bracket.
  lemma {:induction false} SoundElements(text: Text, i: nat, depth: nat) returns (e: Elements)
    requires i <= |text| && depth <= MAX_JSON_DEPTH && ScanElements(text, SpaceEnd(text, i), depth).Some?
    ensures ValidElements(e) && depth + ElementsDepth(e) <= MAX_JSON_DEPTH
    ensures ElementsEnd(text, i, e) == ScanElements(text, SpaceEnd(text, i), depth)
    decreases |text| - SpaceEnd(text, i), 4
  {
    var j := SpaceEnd(text, i);
    SpaceHere(text, i);
    var v := SoundValue(text, j, depth);
    e := SoundElementsTail(text, ScanValue(text, j, depth).value, depth, text[i..j], v);
  }

  lemma {:induction false} SoundElementsTail(text: Text, i: nat, depth: nat, before: Text,
                                             v: Value) returns (e: Elements)
    requires i <= |text| && depth <= MAX_JSON_DEPTH && ScanElementsTail(text, i, depth).Some?
    requires IsWs(before) && ValidValue(v) && depth + Depth(v) <= MAX_JSON_DEPTH
    ensures ValidElements(e) && depth + ElementsDepth(e) <= MAX_JSON_DEPTH && e.before == before && e.value == v
    ensures ElementsTailEnd(text, i, e) == ScanElementsTail(text, i, depth)
    decreases |text| - i, 3
  {
    SpaceHere(text, i);
    if At(text, SpaceEnd(text, i)) == COMMA {
      e := SoundElementsMore(text, i, depth, before, v);
    } else {
      e := Elements(before, v, text[i..SpaceEnd(text, i)], None);
    }
  }

  lemma {:induction false} SoundElementsMore(text: Text, i: nat, depth: nat, before: Text,
                                             v: Value) returns (e: Elements)
    requires i <= |text| && depth <= MAX_JSON_DEPTH && At(text, SpaceEnd(text, i)) == COMMA
    requires ScanElements(text, SpaceEnd(text, SpaceEnd(text, i) + 1), depth).Some?
    requires IsWs(before) && ValidValue(v) && depth + Depth(v) <= MAX_JSON_DEPTH
    ensures ValidElements(e) && depth + ElementsDepth(e) <= MAX_JSON_DEPTH && e.before == before && e.value == v
    ensures ElementsTailEnd(text, i, e) == ScanElementsTail(text, i, depth)
    decreases |text| - i, 2
  {
    SpaceHere(text, i);
    var rest := SoundElements(text, SpaceEnd(text, i) + 1, depth);
    e := Elements(before, v, text[i..SpaceEnd(text, i)], Some(rest));
  }

  lemma SoundColon(text: Text, i: nat)
    requires i <= |text| && ScanColon(text, i).Some?
    ensures var colon := SpaceEnd(text, i);
            var before, after := text[i..colon], text[colon + 1..SpaceEnd(text, colon + 1)];
            IsWs(before) && IsWs(after) && ColonEnd(text, i, before, after) == ScanColon(text, i)
  {
    SpaceHere(text, i);
    SpaceHere(text, SpaceEnd(text, i) + 1);
  }

  lemma SoundHead(text: Text, i: nat) returns (m: Members)
    requires i <= |text| && ScanHead(text, SpaceEnd(text, i)).Some?
    ensures IsWs(m.before) && ValidString(m.key) && IsWs(m.colonBefore) && IsWs(m.colonAfter)
    ensures HeadEnd(text, i, m) == Some(ScanHead(text, SpaceEnd(text, i)).value.0)
    ensures Units(m.key) == ScanHead(text, SpaceEnd(text, i)).value.1
  {
    var j := SpaceEnd(text, i);
    var key := SoundString(text, j);
    var keyEnd := ScanString(text, j).value.0;
    var colon := SpaceEnd(text, keyEnd);
    SpaceHere(text, i);
    SoundColon(text, keyEnd);
    m := Members(text[i..j], key, text[keyEnd..colon], text[colon + 1..SpaceEnd(text, colon + 1)], Null, [], None);
  }

  // A tree's head does not depend on what follows it.
  lemma HeadEndOfHead(text: Text, i: nat, m: Members, n: Members)
    requires m.before == n.before && m.key == n.key && m.colonBefore == n.colonBefore && m.colonAfter == n.colonAfter
    ensures HeadEnd(text, i, m) == HeadEnd(text, i, n)
  {
  }

  // From the white space before a key to the closing brace.
  lemma {:induction false} SoundMembers(text: Text, i: nat, depth: nat, keys: set<Text>) returns (m: Members)
    requires i <= |text| && depth <= MAX_JSON_DEPTH && ScanMembers(text, SpaceEnd(text, i), depth, keys).Some?
    ensures ValidMembers(m) && ReadableKeys(m) && Keys(m) !! keys && depth + MembersDepth(m) <= MAX_JSON_DEPTH
    ensures MembersEnd(text, i, m) == ScanMembers(text, SpaceEnd(text, i), depth, keys)
    decreases |text| - SpaceEnd(text, i), 4
  {
    var head := SoundHead(text, i);
    var start := ScanHead(text, SpaceEnd(text, i)).value.0;
    var v := SoundValue(text, start, depth);
    m := SoundMembersTail(text, ScanValue(text, start, depth).value, depth, keys, head.(value := v));
    HeadEndOfHead(text, i, m, head);
  }

  predicate ValidHead(m: Members) {
    && IsWs(m.before) && ValidString(m.key) && IsWs(m.colonBefore) && IsWs(m.colonAfter) && ValidValue(m.value)
  }

  lemma JoinMembers(m: Members, depth: nat, keys: set<Text>)
    requires ValidHead(m) && IsWs(m.after) && depth + Depth(m.value) <= MAX_JSON_DEPTH && Units(m.key) !in keys
    requires m.rest.Some? ==>
               && ValidMembers(m.rest.value) && ReadableKeys(m.rest.value)
               && Keys(m.rest.value) !! keys + {Units(m.key)} && depth + MembersDepth(m.rest.value) <= MAX_JSON_DEPTH
    ensures ValidMembers(m) && ReadableKeys(m) && Keys(m) !! keys && depth + MembersDepth(m) <= MAX_JSON_DEPTH
  {
    if m.rest.Some? {
      assert Units(m.key) in keys + {Units(m.key)};
    }
  }

  lemma ScanMembersMore(text: Text, i: nat, depth: nat, keys: set<Text>)
    requires i <= |text| && At(text, SpaceEnd(text, i)) == COMMA
    ensures ScanMembersTail(text, i, depth, keys)
            == ScanMembers(text, SpaceEnd(text, SpaceEnd(text, i) + 1), depth, keys)
  {
  }

  lemma {:induction false} MembersTailMore(text: Text, i: nat, m: Members, rest: Members, separator: nat)
    requires LexEnd(text, i, m.after) == Some(separator) && m.rest == Some(rest) && At(text, separator) == COMMA
    ensures MembersTailEnd(text, i, m) == MembersEnd(text, separator + 1, rest)
  {
  }

  lemma {:induction false} SoundMembersTail(text: Text, i: nat, depth: nat, keys: set<Text>,
                                            head: Members) returns (m: Members)
    requires i <= |text| && depth <= MAX_JSON_DEPTH
    requires ValidHead(head) && depth + Depth(head.value) <= MAX_JSON_DEPTH && Units(head.key) !in keys
    requires ScanMembersTail(text, i, depth, keys + {Units(head.key)}).Some?
    ensures ValidMembers(m) && ReadableKeys(m) && Keys(m) !! keys && depth + MembersDepth(m) <= MAX_JSON_DEPTH
    ensures m == head.(after := m.after, rest := m.rest)
    ensures MembersTailEnd(text, i, m) == ScanMembersTail(text, i, depth, keys + {Units(head.key)})
    decreases |text| - i, 3
  {
    SpaceHere(text, i);
    if At(text, SpaceEnd(text, i)) == COMMA {
      m := SoundMembersMore(text, i, depth, keys, head);
    } else {
      m := head.(after := text[i..SpaceEnd(text, i)], rest := None);
      JoinMembers(m, depth, keys);
    }
  }

  lemma {:induction false} SoundMembersMore(text: Text, i: nat, depth: nat, keys: set<Text>,
                                            head: Members) returns (m: Members)
    requires i <= |text| && depth <= MAX_JSON_DEPTH && At(text, SpaceEnd(text, i)) == COMMA
    requires ValidHead(head) && depth + Depth(head.value) <= MAX_JSON_DEPTH && Units(head.key) !in keys
    requires ScanMembers(text, SpaceEnd(text, SpaceEnd(text, i) + 1), depth, keys + {Units(head.key)}).Some?
    ensures ValidMembers(m) && ReadableKeys(m) && Keys(m) !! keys && depth + MembersDepth(m) <= MAX_JSON_DEPTH
    ensures m == head.(after := m.after, rest := m.rest)
    ensures MembersTailEnd(text, i, m) == ScanMembersTail(text, i, depth, keys + {Units(head.key)})
    decreases |text| - i, 2
  {
    var separator := SpaceEnd(text, i);
    SpaceHere(text, i);
    var rest := SoundMembers(text, separator + 1, depth, keys + {Units(head.key)});
    m := head.(after := text[i..separator], rest := Some(rest));
    ScanMembersMore(text, i, depth, keys + {Units(head.key)});
    MembersTailMore(text, i, m, rest, separator);
    JoinMembers(m, depth, keys);
  }

  // The text of a tree is scanned

  // What may follow a value in a document: the end, white space, or a separator.
  predicate Delimits(c: int) {
    c == -1 || IsSpace(c) || c == COMMA || c == CLOSE_BRACKET || c == CLOSE_BRACE
  }

  lemma CompleteScalar(text: Text, i: nat, v: Value)
    requires ValidValue(v) && Depth(v) == 0
    requires ValueEnd(text, i, v).Some? && Delimits(At(text, ValueEnd(text, i, v).value))
    ensures ScanScalar(text, i) == ValueEnd(text, i, v)
    ensures !IsSpace(At(text, i)) && At(text, i) != -1
    ensures At(text, i) !in {CLOSE_BRACKET, CLOSE_BRACE, OPEN_BRACKET, OPEN_BRACE}
  {
    match v
    case Num(n) => CompleteNumber(text, i, n);
    case Str(cs) => CompleteString(text, i, cs);
    case True => LiteralEnd(text, i, TRUE_TEXT);
    case False => LiteralEnd(text, i, FALSE_TEXT);
    case Null => LiteralEnd(text, i, NULL_TEXT);
  }

  // A value's text starts with neither white space nor a closing bracket.
  lemma FirstUnit(text: Text, i: nat, v: Value)
    requires ValidValue(v) && ValueEnd(text, i, v).Some?
    ensures !IsSpace(At(text, i)) && At(text, i) != CLOSE_BRACKET && At(text, i) != CLOSE_BRACE
  {
    if v.Num? {
      var j := MinusEnd(text, i, v.n.negative).value;
      assert IsDigit(At(text, j));
    }
  }

  lemma {:induction false} CompleteContainer(text: Text, i: nat, depth: nat, v: Value)
    requires v.EmptyArray? || v.EmptyObject? || v.Array? || v.Object?
    requires ValidValue(v) && depth + Depth(v) <= MAX_JSON_DEPTH && ValueEnd(text, i, v).Some?
    ensures ScanValue(text, i, depth) == ValueEnd(text, i, v)
    decreases v, 4
  {
    match v
    case EmptyArray(ws) => SpaceSkips(text, i + 1, ws);
    case EmptyObject(ws) => SpaceSkips(text, i + 1, ws);
    case Array(e) => CompleteElements(text, i + 1, depth + 1, e);
    case Object(m) => CompleteMembers(text, i + 1, depth + 1, m, {});
  }

  lemma {:induction false} CompleteValue(text: Text, i: nat, depth: nat, v: Value)
    requires ValidValue(v) && depth + Depth(v) <= MAX_JSON_DEPTH
    requires ValueEnd(text, i, v).Some? && Delimits(At(text, ValueEnd(text, i, v).value))
    ensures ScanValue(text, i, depth) == ValueEnd(text, i, v)
    decreases v, 5
  {
    if v.EmptyArray? || v.EmptyObject? || v.Array? || v.Object? {
      CompleteContainer(text, i, depth, v);
    } else {
      CompleteScalar(text, i, v);
    }
  }

  // A value followed by white space and a delimiter is delimited.
  lemma SpacedDelimits(text: Text, end: nat, ws: Text)
    requires LexEnd(text, end, ws).Some? && IsWs(ws) && Delimits(At(text, end + |ws|))
    ensures Delimits(At(text, end))
  {
  }

  lemma {:induction false} CompleteElements(text: Text, i: nat, depth: nat, e: Elements)
    requires ValidElements(e) && depth + ElementsDepth(e) <= MAX_JSON_DEPTH && ElementsEnd(text, i, e).Some?
    ensures i <= |text| && ScanElements(text, SpaceEnd(text, i), depth) == ElementsEnd(text, i, e)
    ensures At(text, SpaceEnd(text, i)) != CLOSE_BRACKET
    decreases e, 3
  {
    var j := LexEnd(text, i, e.before).value;
    var end := ValueEnd(text, j, e.value).value;
    ElementsEndParts(text, i, e, j, end);
    CompleteElementsTail(text, end, depth, e);
    CompleteValue(text, j, depth, e.value);
    FirstUnit(text, j, e.value);
    SpaceSkips(text, i, e.before);
  }

  lemma ElementsEndParts(text: Text, i: nat, e: Elements, j: nat, end: nat)
    requires LexEnd(text, i, e.before) == Some(j) && ValueEnd(text, j, e.value) == Some(end)
    ensures ElementsEnd(text, i, e) == ElementsTailEnd(text, end, e)
  {
  }

  lemma {:induction false} CompleteElementsTail(text: Text, i: nat, depth: nat, e: Elements)
    requires ValidElements(e) && depth + ElementsDepth(e) <= MAX_JSON_DEPTH && ElementsTailEnd(text, i, e).Some?
    ensures i <= |text| && ScanElementsTail(text, i, depth) == ElementsTailEnd(text, i, e)
    ensures Delimits(At(text, i))
    decreases e, 2
  {
    var separator := LexEnd(text, i, e.after).value;
    SpacedDelimits(text, i, e.after);
    SpaceSkips(text, i, e.after);
    if e.rest.Some? {
      CompleteElements(text, separator + 1, depth, e.rest.value);
    }
  }

  lemma CompleteColon(text: Text, i: nat, before: Text, after: Text)
    requires IsWs(before) && IsWs(after) && ColonEnd(text, i, before, after).Some?
    requires !IsSpace(At(text, ColonEnd(text, i, before, after).value))
    ensures i <= |text| && ScanColon(text, i) == ColonEnd(text, i, before, after)
  {
    SpaceSkips(text, i, before);
    SpaceSkips(text, i + |before| + 1, after);
  }

  // The part of a member up to its value is scanned.
  lemma CompleteHead(text: Text, i: nat, m: Members)
    requires IsWs(m.before) && ValidString(m.key) && IsWs(m.colonBefore) && IsWs(m.colonAfter)
    requires HeadEnd(text, i, m).Some? && !IsSpace(At(text, HeadEnd(text, i, m).value))
    ensures i <= |text| && At(text, SpaceEnd(text, i)) == QUOTE
    ensures ScanHead(text, SpaceEnd(text, i)) == Some((HeadEnd(text, i, m).value, Units(m.key)))
  {
    var j := LexEnd(text, i, m.before).value;
    CompleteString(text, j, m.key);
    SpaceSkips(text, i, m.before);
    CompleteColon(text, StringEnd(text, j, m.key).value, m.colonBefore, m.colonAfter);
  }

  lemma {:induction false} CompleteMembers(text: Text, i: nat, depth: nat, m: Members, keys: set<Text>)
    requires ValidMembers(m) && ReadableKeys(m) && Keys(m) !! keys
    requires depth + MembersDepth(m) <= MAX_JSON_DEPTH && MembersEnd(text, i, m).Some?
    ensures i <= |text| && ScanMembers(text, SpaceEnd(text, i), depth, keys) == MembersEnd(text, i, m)
    ensures At(text, SpaceEnd(text, i)) == QUOTE
    decreases m, 3
  {
    var start := HeadEnd(text, i, m).value;
    var end := ValueEnd(text, start, m.value).value;
    CompleteMembersTail(text, end, depth, m, keys);
    CompleteValue(text, start, depth, m.value);
    FirstUnit(text, start, m.value);
    CompleteHead(text, i, m);
  }

  lemma KeysApart(m: Members, keys: set<Text>)
    requires ValidMembers(m) && ReadableKeys(m) && Keys(m) !! keys && m.rest.Some?
    ensures Keys(m.rest.value) !! keys + {Units(m.key)}
  {
  }

  lemma {:induction false} CompleteMembersTail(text: Text, i: nat, depth: nat, m: Members, keys: set<Text>)
    requires ValidMembers(m) && ReadableKeys(m) && Keys(m) !! keys
    requires depth + MembersDepth(m) <= MAX_JSON_DEPTH && MembersTailEnd(text, i, m).Some?
    ensures i <= |text| && ScanMembersTail(text, i, depth, keys + {Units(m.key)}) == MembersTailEnd(text, i, m)
    ensures Delimits(At(text, i))
    decreases m, 2
  {
    var separator := LexEnd(text, i, m.after).value;
    SpacedDelimits(text, i, m.after);
    SpaceSkips(text, i, m.after);
    if m.rest.Some? {
      KeysApart(m, keys);
      CompleteMembers(text, separator + 1, depth, m.rest.value, keys + {Units(m.key)});
    }
  }

  // The recogniser accepts a text exactly when the whole text derives from the grammar.
  lemma AcceptsIffDerives(text: Text)
    ensures Accepts(text) <==> Derives(text)
  {
    if Accepts(text) {
      AcceptedDerives(text);
    }
    if Derives(text) {
      var d: Document :| ValidDocument(d) && DocumentText(d) == text;
      DerivedIsAccepted(d);
    }
  }

  lemma DocumentParts(d: Document, text: Text)
    ensures DocumentText(d) == text <==> DocumentEnd(d, text) == Some(|text|)
  {
    LexSplit(text, 0, d.before, ValueText(d.value) + d.after);
    if LexEnd(text, 0, d.before).Some? {
      LexSplit(text, |d.before|, ValueText(d.value), d.after);
      ValueEndMeans(text, |d.before|, d.value);
    }
    assert DocumentEnd(d, text) == LexEnd(text, 0, DocumentText(d));
    WholeText(text, DocumentText(d));
  }

  lemma WholeText(text: Text, s: Text)
    ensures s == text <==> LexEnd(text, 0, s) == Some(|text|)
  {
    LexEndMeans(text, 0, s);
    assert text[0..|text|] == text;
  }

  function DocumentEnd(d: Document, text: Text): Option<nat> {
    var i :- LexEnd(text, 0, d.before);
    var end :- ValueEnd(text, i, d.value);
    LexEnd(text, end, d.after)
  }

  lemma AcceptedDerives(text: Text)
    requires Accepts(text)
    ensures Derives(text)
  {
    var i := SpaceEnd(text, 0);
    var v := SoundValue(text, i, 0);
    SurroundedDerives(text, v);
  }

  lemma SurroundedDerives(text: Text, v: Value)
    requires ValidValue(v) && Depth(v) <= MAX_JSON_DEPTH
    requires var end := ValueEnd(text, SpaceEnd(text, 0), v);
             end.Some? && end.value <= |text| && SpaceEnd(text, end.value) == |text|
    ensures Derives(text)
  {
    var i := SpaceEnd(text, 0);
    var end := ValueEnd(text, i, v).value;
    SpaceHere(text, 0);
    SpaceHere(text, end);
    PartsDerive(Document(text[0..i], v, text[end..|text|]), text, i, end);
  }

  lemma PartsDerive(d: Document, text: Text, i: nat, end: nat)
    requires ValidDocument(d) && LexEnd(text, 0, d.before) == Some(i)
    requires ValueEnd(text, i, d.value) == Some(end) && LexEnd(text, end, d.after) == Some(|text|)
    ensures Derives(text)
  {
    DocumentParts(d, text);
  }

  lemma DerivedIsAccepted(d: Document)
    requires ValidDocument(d)
    ensures Accepts(DocumentText(d))
  {
    var text := DocumentText(d);
    DocumentParts(d, text);
    WholeText(text, text);
    var end := ValueEnd(text, |d.before|, d.value).value;
    SpacedDelimits(text, end, d.after);
    CompleteValue(text, |d.before|, 0, d.value);
    FirstUnit(text, |d.before|, d.value);
    SpaceSkips(text, 0, d.before);
    SpaceSkips(text, end, d.after);
  }
}
