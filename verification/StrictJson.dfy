// The strict JSON recogniser: one scanner whose index, depth and duplicate flag
// the scanning methods advance in place.
module StrictJson {
  import opened Wrappers
  import opened JsonGrammar
  import S = JsonScanner
  import JsonCorrectness

  // A scanned prefix of a string put before the scan of the rest.
  function Prepend(value: Text, r: Option<(nat, Text)>): Option<(nat, Text)> {
    if r.None? then None else Some((r.value.0, value + r.value.1))
  }

  datatype Separator = Closed | More | Neither

  class Scanner {
    const text: Text
    var index: nat
    var duplicate: bool
    var depth: nat

    constructor (text: Text)
      ensures this.text == text && index == 0 && !duplicate && depth == 0
    {
      this.text := text;
      index, duplicate, depth := 0, false, 0;
    }

    function CharAt(i: nat): int {
      S.At(text, i)
    }

    method ScanSpace()
      requires index <= |text|
      modifies this`index
      ensures index == S.SpaceEnd(text, old(index))
    {
      while index < |text| && IsSpace(CharAt(index))
        invariant index <= |text| && S.SpaceEnd(text, index) == S.SpaceEnd(text, old(index))
      {
        index := index + 1;
      }
    }

    method Enter() returns (ok: bool)
      modifies this`depth
      ensures depth == old(depth) + 1 && ok == (depth <= MAX_JSON_DEPTH)
    {
      depth := depth + 1;
      ok := depth <= MAX_JSON_DEPTH;
    }

    method Leave(result: bool) returns (r: bool)
      requires depth > 0
      modifies this`depth
      ensures depth == old(depth) - 1 && r == result
    {
      depth := depth - 1;
      r := result;
    }

    // One character of a string, escaped or not; not the closing quote.
    method ScanCharacter() returns (unit: Option<CodeUnit>)
      requires index < |text| && CharAt(index) != QUOTE
      modifies this`index
      ensures old(index) <= index <= |text|
      ensures var r := S.UnitAt(text, old(index));
              (unit.Some? <==> r.Some?) && (unit.Some? ==> r.value == (index, unit.value))
    {
      var character := text[index];
      index := index + 1;
      if character < 0x20 {
        return None;
      }
      if character != BACKSLASH {
        return Some(character);
      }
      if index >= |text| {
        return None;
      }
      var escape := CharAt(index);
      index := index + 1;
      if escape != LOWER_U {
        return EscapeValue(escape);
      }
      if !(IsHex(CharAt(index)) && IsHex(CharAt(index + 1)) && IsHex(CharAt(index + 2)) && IsHex(CharAt(index + 3))) {
        return None;
      }
      var hex := [text[index], text[index + 1], text[index + 2], text[index + 3]];
      index := index + 4;
      unit := Some(HexNumber(hex));
    }

    method ScanString() returns (key: Option<Text>)
      requires index <= |text|
      modifies this`index
      ensures old(index) <= index <= |text|
      ensures var r := S.ScanString(text, old(index));
              && (key.Some? <==> r.Some?)
              && (key.Some? ==> r.value == (index, key.value))
    {
      if CharAt(index) != QUOTE {
        return None;
      }
      index := index + 1;
      var value: Text := [];
      var pendingHighSurrogate := false;
      PrependNothing(index);
      while index < |text|
        invariant old(index) < index <= |text|
        invariant S.ScanString(text, old(index)) == Prepend(value, S.ScanChars(text, index, pendingHighSurrogate))
      {
        if CharAt(index) == QUOTE {
          index := index + 1;
          PrependAll(value);
          return if pendingHighSurrogate then None else Some(value);
        }
        ghost var here, pending := index, pendingHighSurrogate;
        var unit := ScanCharacter();
        if unit.None? {
          return None;
        }
        if pendingHighSurrogate {
          if unit.value < 0xDC00 || unit.value > 0xDFFF {
            return None;
          }
          pendingHighSurrogate := false;
        } else if 0xD800 <= unit.value <= 0xDBFF {
          pendingHighSurrogate := true;
        } else if 0xDC00 <= unit.value <= 0xDFFF {
          return None;
        }
        PrependStep(here, pending, index, unit.value, value);
        value := value + [unit.value];
      }
      return None;
    }

    lemma PrependAll(value: Text)
      ensures value + [] == value
    {
    }

    lemma PrependNothing(i: nat)
      ensures Prepend([], S.ScanChars(text, i, false)) == S.ScanChars(text, i, false)
    {
      var r := S.ScanChars(text, i, false);
      if r.Some? {
        assert [] + r.value.1 == r.value.1;
      }
    }

    // Reading one more character moves it from the rest into the prefix.
    lemma PrependStep(i: nat, pending: bool, end: nat, u: CodeUnit, value: Text)
      requires CharAt(i) != QUOTE && S.UnitAt(text, i) == Some((end, u)) && S.Continues(pending, u)
      ensures Prepend(value, S.ScanChars(text, i, pending))
              == Prepend(value + [u], S.ScanChars(text, end, !pending && IsHigh(u)))
    {
      PrependOne(value, u, S.ScanChars(text, end, !pending && IsHigh(u)));
    }

    lemma PrependOne(value: Text, u: CodeUnit, r: Option<(nat, Text)>)
      ensures Prepend(value, if r.None? then None else Some((r.value.0, [u] + r.value.1))) == Prepend(value + [u], r)
    {
      if r.Some? {
        assert value + ([u] + r.value.1) == value + [u] + r.value.1;
      }
    }

    method ScanLiteral(literal: Text) returns (ok: bool)
      requires index <= |text|
      modifies this`index
      ensures old(index) <= index <= |text|
      ensures var r := S.ScanLiteral(text, old(index), literal);
              ok == r.Some? && (ok ==> index == r.value)
    {
      if index + |literal| > |text| || text[index..index + |literal|] != literal {
        return false;
      }
      index := index + |literal|;
      ok := true;
    }

    method ScanNumber() returns (ok: bool)
      requires index <= |text|
      modifies this`index
      ensures old(index) <= index <= |text|
      ensures var r := S.ScanNumber(text, old(index));
              ok == r.Some? && (ok ==> index == r.value)
    {
      var end := S.ScanNumber(text, index);
      if end.None? {
        return false;
      }
      index := end.value;
      ok := true;
    }

    // A value from the index on is scanned exactly when there is one; the depth is
    // then what it was. After a duplicate key nothing more is scanned.
    method ScanValue() returns (ok: bool)
      requires index <= |text|
      modifies this
      ensures old(index) <= index <= |text|
      ensures old(duplicate) ==> !ok
      ensures !old(duplicate) ==> ok == S.ScanValue(text, old(index), old(depth)).Some?
      ensures ok ==> S.ScanValue(text, old(index), old(depth)) == Some(index) && depth == old(depth) && !duplicate
      ensures !ok ==> depth >= old(depth)
      decreases |text| - index, 2
    {
      if duplicate || index >= |text| {
        return false;
      }
      var character := CharAt(index);
      if character == OPEN_BRACE {
        ok := ScanObject();
      } else if character == OPEN_BRACKET {
        ok := ScanArray();
      } else if character == QUOTE {
        var key := ScanString();
        ok := key.Some?;
      } else if character == TRUE_TEXT[0] {
        ok := ScanLiteral(TRUE_TEXT);
      } else if character == FALSE_TEXT[0] {
        ok := ScanLiteral(FALSE_TEXT);
      } else if character == NULL_TEXT[0] {
        ok := ScanLiteral(NULL_TEXT);
      } else {
        ok := ScanNumber();
      }
    }

    // A key, the colon after it and the white space around: a key already seen sets the flag.
    method ScanKey(keys: seq<Text>) returns (key: Option<Text>)
      requires index <= |text|
      modifies this`index, this`duplicate
      ensures old(index) <= index <= |text|
      ensures var r := S.ScanHead(text, old(index));
              && (key.Some? <==> r.Some?)
              && (key.Some? ==> r.value == (index, key.value) && duplicate == (old(duplicate) || key.value in keys))
    {
      key := ScanString();
      if key.None? {
        return;
      }
      if key.value in keys {
        duplicate := true;
      }
      ScanSpace();
      if CharAt(index) != COLON {
        return None;
      }
      index := index + 1;
      ScanSpace();
    }

    // One member: a key not seen before, the colon and the value. What remains is
    // to scan what follows the value.
    method ScanMember(keys: seq<Text>, ghost seen: set<Text>) returns (key: Option<Text>)
      requires index <= |text| && !duplicate
      requires forall k :: k in seen <==> k in keys
      modifies this
      ensures old(index) <= index <= |text| && depth >= old(depth)
      ensures var r := S.ScanMembers(text, old(index), old(depth), seen);
              if key.None? then r.None?
              else depth == old(depth) && !duplicate
                   && r == S.ScanMembersTail(text, index, depth, seen + {key.value})
      decreases |text| - index, 3
    {
      key := ScanKey(keys);
      if key.None? {
        return;
      }
      var value := ScanValue();
      if !value {
        return None;
      }
    }

    method ScanObject() returns (ok: bool)
      requires index < |text| && CharAt(index) == OPEN_BRACE && !duplicate
      modifies this
      ensures old(index) <= index <= |text|
      ensures ok == S.ScanObject(text, old(index), old(depth)).Some?
      ensures ok ==> S.ScanObject(text, old(index), old(depth)) == Some(index) && depth == old(depth) && !duplicate
      ensures !ok ==> depth >= old(depth)
      decreases |text| - index, 1
    {
      var entered := Enter();
      if !entered {
        return false;
      }
      index := index + 1;
      ScanSpace();
      if CharAt(index) == CLOSE_BRACE {
        index := index + 1;
        depth := depth - 1;
        return true;
      }
      ok := ScanMembers();
    }

    // The loop over the members, from the first key to the closing brace.
    method ScanMembers() returns (ok: bool)
      requires index <= |text| && depth > 0 && !duplicate
      modifies this
      ensures old(index) <= index <= |text|
      ensures ok == S.ScanMembers(text, old(index), old(depth), {}).Some?
      ensures ok ==> S.ScanMembers(text, old(index), old(depth), {}) == Some(index) && depth == old(depth) - 1 && !duplicate
      ensures !ok ==> depth >= old(depth) - 1
      decreases |text| - index, 4
    {
      var keys: seq<Text> := [];
      ghost var seen: set<Text> := {};
      ghost var scan := S.ScanMembers(text, index, depth, {});
      var closed := false;
      while index < |text| && !closed
        invariant old(index) <= index <= |text| && depth == old(depth) && !duplicate
        invariant if closed then scan == Some(index) else S.ScanMembers(text, index, depth, seen) == scan
        invariant forall k :: k in seen <==> k in keys
        decreases |text| - index
      {
        var key := ScanMember(keys, seen);
        if key.None? {
          ok := Leave(false);
          return;
        }
        keys, seen := keys + [key.value], seen + {key.value};
        var separator := ScanSeparator(CLOSE_BRACE);
        if separator.Neither? {
          ok := Leave(false);
          return;
        }
        closed := separator.Closed?;
      }
      ok := Leave(closed);
    }

    // After an element or a member: the closing bracket, or a comma and white space.
    method ScanSeparator(close: CodeUnit) returns (separator: Separator)
      requires index <= |text| && close != COMMA
      modifies this`index
      ensures old(index) <= index <= |text|
      ensures var i := S.SpaceEnd(text, old(index));
              && (separator.Closed? <==> CharAt(i) == close) && (separator.More? <==> CharAt(i) == COMMA)
              && (separator.Closed? ==> index == i + 1) && (separator.More? ==> index == S.SpaceEnd(text, i + 1))
    {
      ScanSpace();
      var character := CharAt(index);
      if character == close {
        index := index + 1;
        return Closed;
      }
      if character != COMMA {
        return Neither;
      }
      index := index + 1;
      ScanSpace();
      separator := More;
    }

    method ScanArray() returns (ok: bool)
      requires index < |text| && CharAt(index) == OPEN_BRACKET && !duplicate
      modifies this
      ensures old(index) <= index <= |text|
      ensures ok == S.ScanArray(text, old(index), old(depth)).Some?
      ensures ok ==> S.ScanArray(text, old(index), old(depth)) == Some(index) && depth == old(depth) && !duplicate
      ensures !ok ==> depth >= old(depth)
      decreases |text| - index, 1
    {
      var entered := Enter();
      if !entered {
        return false;
      }
      index := index + 1;
      ScanSpace();
      if CharAt(index) == CLOSE_BRACKET {
        index := index + 1;
        depth := depth - 1;
        return true;
      }
      ok := ScanElements();
    }

    // The loop over the elements, from the first value to the closing bracket.
    method ScanElements() returns (ok: bool)
      requires index <= |text| && depth > 0 && !duplicate
      modifies this
      ensures old(index) <= index <= |text|
      ensures ok == S.ScanElements(text, old(index), old(depth)).Some?
      ensures ok ==> S.ScanElements(text, old(index), old(depth)) == Some(index) && depth == old(depth) - 1 && !duplicate
      ensures !ok ==> depth >= old(depth) - 1
      decreases |text| - index, 4
    {
      ghost var scan := S.ScanElements(text, index, depth);
      var closed := false;
      while index < |text| && !closed
        invariant old(index) <= index <= |text| && depth == old(depth) && !duplicate
        invariant if closed then scan == Some(index) else S.ScanElements(text, index, depth) == scan
        decreases |text| - index
      {
        var value := ScanValue();
        if !value {
          ok := Leave(false);
          return;
        }
        var separator := ScanSeparator(CLOSE_BRACKET);
        if separator.Neither? {
          ok := Leave(false);
          return;
        }
        closed := separator.Closed?;
      }
      ok := Leave(closed);
    }
  }

  // False exactly for the texts that derive from the grammar.
  method HasDuplicateObjectKey(text: Text) returns (rejected: bool)
    ensures !rejected <==> Derives(text)
  {
    var scanner := new Scanner(text);
    JsonCorrectness.AcceptsIffDerives(text);
    scanner.ScanSpace();
    var value := scanner.ScanValue();
    if !value {
      return true;
    }
    scanner.ScanSpace();
    rejected := scanner.duplicate || scanner.index != |text|;
  }
}
