// The recogniser as functions of a position: where a value starting at an index
// ends, if one does.
module JsonScanner {
  import opened Wrappers
  import opened JsonGrammar

  // The code unit at an index, or -1 past the end.
  function At(text: Text, i: nat): int {
    if i < |text| then text[i] else -1
  }

  // The first index from i on that holds no white space.
  function SpaceEnd(text: Text, i: nat): (j: nat)
    requires i <= |text|
    ensures i <= j <= |text|
    decreases |text| - i
  {
    if IsSpace(At(text, i)) then SpaceEnd(text, i + 1) else i
  }

  // The first index from i on that holds no digit.
  function DigitsEnd(text: Text, i: nat): (j: nat)
    requires i <= |text|
    ensures i <= j <= |text|
    decreases |text| - i
  {
    if IsDigit(At(text, i)) then DigitsEnd(text, i + 1) else i
  }

  // One character of a string: the token at an index other than a closing quote.
  function TokenAt(text: Text, i: nat): (t: Option<CharToken>)
    ensures t.Some? ==> ValidToken(t.value) && i + |TokenText(t.value)| <= |text|
  {
    var c := At(text, i);
    if c < 0x20 || c == QUOTE then None
    else if c != BACKSLASH then Some(Plain(c))
    else if At(text, i + 1) == LOWER_U then
      if IsHex(At(text, i + 2)) && IsHex(At(text, i + 3)) && IsHex(At(text, i + 4)) && IsHex(At(text, i + 5))
      then Some(Hex(text[i + 2], text[i + 3], text[i + 4], text[i + 5]))
      else None
    else if EscapeValue(At(text, i + 1)).Some? then Some(Escape(text[i + 1]))
    else None
  }

  // The surrogate rule for the next unit, given whether a high surrogate is pending.
  predicate Continues(pending: bool, unit: CodeUnit) {
    if pending then IsLow(unit) else !IsLow(unit)
  }

  // Where the character at an index ends and the code unit it stands for.
  function UnitAt(text: Text, i: nat): (r: Option<(nat, CodeUnit)>)
    ensures r.Some? ==> i < r.value.0 <= |text|
  {
    var t :- TokenAt(text, i);
    Some((i + |TokenText(t)|, TokenUnit(t)))
  }

  // The rest of a string after its opening quote: its end and its unescaped value.
  function ScanChars(text: Text, i: nat, pending: bool): (r: Option<(nat, Text)>)
    ensures r.Some? ==> i < r.value.0 <= |text|
    decreases |text| - i
  {
    if At(text, i) == QUOTE then
      if pending then None else Some((i + 1, []))
    else
      var c :- UnitAt(text, i);
      if !Continues(pending, c.1) then None
      else
        var rest :- ScanChars(text, c.0, !pending && IsHigh(c.1));
        Some((rest.0, [c.1] + rest.1))
  }

  function ScanString(text: Text, i: nat): (r: Option<(nat, Text)>)
    ensures r.Some? ==> i < r.value.0 <= |text|
  {
    if At(text, i) != QUOTE then None else ScanChars(text, i + 1, false)
  }

  function ScanLiteral(text: Text, i: nat, literal: Text): Option<nat> {
    if i + |literal| <= |text| && text[i..i + |literal|] == literal then Some(i + |literal|) else None
  }

  function IntegerEnd(text: Text, i: nat): (r: Option<nat>)
    ensures r.Some? ==> i < r.value <= |text|
  {
    if At(text, i) == ZERO then Some(i + 1)
    else if IsDigit(At(text, i)) then Some(DigitsEnd(text, i))
    else None
  }

  function FractionEnd(text: Text, i: nat): (j: nat)
    requires i <= |text|
    ensures i <= j <= |text|
  {
    if At(text, i) == POINT && IsDigit(At(text, i + 1)) then DigitsEnd(text, i + 1) else i
  }

  function ExponentEnd(text: Text, i: nat): (j: nat)
    requires i <= |text|
    ensures i <= j <= |text|
  {
    if At(text, i) == LOWER_E || At(text, i) == UPPER_E then
      var k := if At(text, i + 1) == PLUS || At(text, i + 1) == MINUS then i + 2 else i + 1;
      if IsDigit(At(text, k)) then DigitsEnd(text, k) else i
    else i
  }

  // The longest number at an index, each optional part taken when it is there.
  function ScanNumber(text: Text, i: nat): (r: Option<nat>)
    ensures r.Some? ==> i < r.value <= |text|
  {
    var j := if At(text, i) == MINUS then i + 1 else i;
    var integer := IntegerEnd(text, j);
    if integer.None? then None else Some(ExponentEnd(text, FractionEnd(text, integer.value)))
  }

  function ScanValue(text: Text, i: nat, depth: nat): (r: Option<nat>)
    ensures r.Some? ==> i < r.value <= |text|
    decreases |text| - i, 2
  {
    var c := At(text, i);
    if c == -1 then None
    else if c == OPEN_BRACE then ScanObject(text, i, depth)
    else if c == OPEN_BRACKET then ScanArray(text, i, depth)
    else ScanScalar(text, i)
  }

  function ScanScalar(text: Text, i: nat): (r: Option<nat>)
    ensures r.Some? ==> i < r.value <= |text|
  {
    var c := At(text, i);
    if c == QUOTE then (var s :- ScanString(text, i); Some(s.0))
    else if c == TRUE_TEXT[0] then ScanLiteral(text, i, TRUE_TEXT)
    else if c == FALSE_TEXT[0] then ScanLiteral(text, i, FALSE_TEXT)
    else if c == NULL_TEXT[0] then ScanLiteral(text, i, NULL_TEXT)
    else ScanNumber(text, i)
  }

  function ScanObject(text: Text, i: nat, depth: nat): (r: Option<nat>)
    requires i < |text|
    ensures r.Some? ==> i < r.value <= |text|
    decreases |text| - i, 1
  {
    if depth + 1 > MAX_JSON_DEPTH then None
    else
      var j := SpaceEnd(text, i + 1);
      if At(text, j) == CLOSE_BRACE then Some(j + 1) else ScanMembers(text, j, depth + 1, {})
  }

  // The colon after a key, between white space.
  function ScanColon(text: Text, i: nat): (r: Option<nat>)
    requires i <= |text|
    ensures r.Some? ==> i < r.value <= |text|
  {
    var colon := SpaceEnd(text, i);
    if At(text, colon) == COLON then Some(SpaceEnd(text, colon + 1)) else None
  }

  // A member up to its value: where the value starts, and the key.
  function ScanHead(text: Text, i: nat): (r: Option<(nat, Text)>)
    ensures r.Some? ==> i < r.value.0 <= |text|
  {
    var key :- ScanString(text, i);
    var start :- ScanColon(text, key.0);
    Some((start, key.1))
  }

  // The members from a key's opening quote, given the keys already seen.
  function ScanMembers(text: Text, i: nat, depth: nat, keys: set<Text>): (r: Option<nat>)
    ensures r.Some? ==> i < r.value <= |text|
    decreases |text| - i, 4
  {
    var head :- ScanHead(text, i);
    if head.1 in keys then None
    else
      var end :- ScanValue(text, head.0, depth);
      ScanMembersTail(text, end, depth, keys + {head.1})
  }

  // What follows a member's value.
  function ScanMembersTail(text: Text, i: nat, depth: nat, keys: set<Text>): (r: Option<nat>)
    requires i <= |text|
    ensures r.Some? ==> i < r.value <= |text|
    decreases |text| - i, 3
  {
    var separator := SpaceEnd(text, i);
    if At(text, separator) == CLOSE_BRACE then Some(separator + 1)
    else if At(text, separator) == COMMA then ScanMembers(text, SpaceEnd(text, separator + 1), depth, keys)
    else None
  }

  function ScanArray(text: Text, i: nat, depth: nat): (r: Option<nat>)
    requires i < |text|
    ensures r.Some? ==> i < r.value <= |text|
    decreases |text| - i, 1
  {
    if depth + 1 > MAX_JSON_DEPTH then None
    else
      var j := SpaceEnd(text, i + 1);
      if At(text, j) == CLOSE_BRACKET then Some(j + 1) else ScanElements(text, j, depth + 1)
  }

  function ScanElements(text: Text, i: nat, depth: nat): (r: Option<nat>)
    ensures r.Some? ==> i < r.value <= |text|
    decreases |text| - i, 4
  {
    var end :- ScanValue(text, i, depth);
    ScanElementsTail(text, end, depth)
  }

  // What follows an element.
  function ScanElementsTail(text: Text, i: nat, depth: nat): (r: Option<nat>)
    requires i <= |text|
    ensures r.Some? ==> i < r.value <= |text|
    decreases |text| - i, 3
  {
    var separator := SpaceEnd(text, i);
    if At(text, separator) == CLOSE_BRACKET then Some(separator + 1)
    else if At(text, separator) == COMMA then ScanElements(text, SpaceEnd(text, separator + 1), depth)
    else None
  }

  // A whole text is accepted when one value and white space fill it.
  predicate Accepts(text: Text) {
    var value := ScanValue(text, SpaceEnd(text, 0), 0);
    value.Some? && SpaceEnd(text, value.value) == |text|
  }
}
