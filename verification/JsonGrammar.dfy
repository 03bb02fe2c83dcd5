// The grammar of RFC 8259, sections 2 to 7, as syntax trees that print to texts
// of UTF-16 code units, with the restrictions of the strict recogniser: container
// nesting at most 100, distinct keys in an object, no unpaired surrogate.
module JsonGrammar {
  import opened Wrappers

  // A JavaScript string as its sequence of code units. Nothing here depends on
  // their being at most 16 bits wide.
  type CodeUnit = nat
  type Text = seq<CodeUnit>

  const MAX_JSON_DEPTH := 100

  const QUOTE: CodeUnit := 0x22
  const BACKSLASH: CodeUnit := 0x5C
  const COMMA: CodeUnit := 0x2C
  const COLON: CodeUnit := 0x3A
  const OPEN_BRACE: CodeUnit := 0x7B
  const CLOSE_BRACE: CodeUnit := 0x7D
  const OPEN_BRACKET: CodeUnit := 0x5B
  const CLOSE_BRACKET: CodeUnit := 0x5D
  const MINUS: CodeUnit := 0x2D
  const PLUS: CodeUnit := 0x2B
  const POINT: CodeUnit := 0x2E
  const ZERO: CodeUnit := 0x30
  const LOWER_E: CodeUnit := 0x65
  const UPPER_E: CodeUnit := 0x45
  const LOWER_U: CodeUnit := 0x75

  const TRUE_TEXT: Text := [0x74, 0x72, 0x75, 0x65]
  const FALSE_TEXT: Text := [0x66, 0x61, 0x6C, 0x73, 0x65]
  const NULL_TEXT: Text := [0x6E, 0x75, 0x6C, 0x6C]

  // The predicates on one position take an int so that the end of the text, -1, satisfies none of them.

  predicate IsSpace(c: int) {
    c == 0x20 || c == 0x09 || c == 0x0A || c == 0x0D
  }

  predicate IsDigit(c: int) {
    0x30 <= c <= 0x39
  }

  predicate IsHex(c: int) {
    0x30 <= c <= 0x39 || 0x41 <= c <= 0x46 || 0x61 <= c <= 0x66
  }

  predicate IsHigh(c: int) {
    0xD800 <= c <= 0xDBFF
  }

  predicate IsLow(c: int) {
    0xDC00 <= c <= 0xDFFF
  }

  function HexValue(c: CodeUnit): (v: int)
    requires IsHex(c)
    ensures 0 <= v < 16
  {
    if c <= 0x39 then c - 0x30 else if c <= 0x46 then c - 0x41 + 10 else c - 0x61 + 10
  }

  // The code unit a one-letter escape stands for.
  function EscapeValue(c: int): Option<CodeUnit> {
    if c == 0x22 then Some(0x22)
    else if c == 0x5C then Some(0x5C)
    else if c == 0x2F then Some(0x2F)
    else if c == 0x62 then Some(0x08)
    else if c == 0x66 then Some(0x0C)
    else if c == 0x6E then Some(0x0A)
    else if c == 0x72 then Some(0x0D)
    else if c == 0x74 then Some(0x09)
    else None
  }

  datatype CharToken =
    | Plain(u: CodeUnit)
    | Escape(letter: CodeUnit)
    | Hex(h0: CodeUnit, h1: CodeUnit, h2: CodeUnit, h3: CodeUnit)

  predicate ValidToken(t: CharToken) {
    match t
    case Plain(u) => u >= 0x20 && u != QUOTE && u != BACKSLASH
    case Escape(letter) => EscapeValue(letter).Some?
    case Hex(h0, h1, h2, h3) => IsHex(h0) && IsHex(h1) && IsHex(h2) && IsHex(h3)
  }

  function TokenText(t: CharToken): (s: Text)
    ensures s != []
  {
    match t
    case Plain(u) => [u]
    case Escape(letter) => [BACKSLASH, letter]
    case Hex(h0, h1, h2, h3) => [BACKSLASH, LOWER_U, h0, h1, h2, h3]
  }

  function HexNumber(digits: Text): CodeUnit
    requires forall c :: c in digits ==> IsHex(c)
  {
    if digits == [] then 0
    else HexNumber(digits[..|digits| - 1]) * 16 + HexValue(digits[|digits| - 1])
  }

  function TokenUnit(t: CharToken): CodeUnit
    requires ValidToken(t)
  {
    match t
    case Plain(u) => u
    case Escape(letter) => EscapeValue(letter).value
    case Hex(h0, h1, h2, h3) => HexNumber([h0, h1, h2, h3])
  }

  // The characters of a string, from left to right.
  datatype Chars = NoChars | Chars(first: CharToken, rest: Chars)

  predicate ValidChars(cs: Chars) {
    cs.Chars? ==> ValidToken(cs.first) && ValidChars(cs.rest)
  }

  // The code units that the characters stand for.
  function Units(cs: Chars): Text
    requires ValidChars(cs)
  {
    match cs case NoChars => [] case Chars(first, rest) => [TokenUnit(first)] + Units(rest)
  }

  // The characters and the closing quote.
  function CharsText(cs: Chars): Text {
    match cs case NoChars => [QUOTE] case Chars(first, rest) => TokenText(first) + CharsText(rest)
  }

  // A high surrogate is followed by a low one, and a low one follows a high one.
  predicate PairedAt(s: Text, i: nat)
    requires i < |s|
  {
    && (IsHigh(s[i]) ==> i + 1 < |s| && IsLow(s[i + 1]))
    && (IsLow(s[i]) ==> i > 0 && IsHigh(s[i - 1]))
  }

  predicate WellPaired(s: Text) {
    forall i :: 0 <= i < |s| ==> PairedAt(s, i)
  }

  predicate ValidString(cs: Chars) {
    ValidChars(cs) && WellPaired(Units(cs))
  }

  function StringText(cs: Chars): Text {
    [QUOTE] + CharsText(cs)
  }

  datatype Exponent = Exponent(marker: CodeUnit, sign: Option<CodeUnit>, digits: Text)

  datatype Number = Number(negative: bool, integer: Text, fraction: Option<Text>, exponent: Option<Exponent>)

  predicate IsDigits(s: Text) {
    s != [] && forall i :: 0 <= i < |s| ==> IsDigit(s[i])
  }

  predicate ValidExponent(e: Exponent) {
    && (e.marker == LOWER_E || e.marker == UPPER_E)
    && (e.sign.Some? ==> e.sign.value == PLUS || e.sign.value == MINUS)
    && IsDigits(e.digits)
  }

  predicate ValidNumber(n: Number) {
    && IsDigits(n.integer) && (n.integer[0] == ZERO ==> |n.integer| == 1)
    && (n.fraction.Some? ==> IsDigits(n.fraction.value))
    && (n.exponent.Some? ==> ValidExponent(n.exponent.value))
  }

  function FractionText(f: Option<Text>): Text {
    if f.Some? then [POINT] + f.value else []
  }

  function SignText(s: Option<CodeUnit>): Text {
    if s.Some? then [s.value] else []
  }

  function ExponentText(e: Option<Exponent>): Text {
    if e.Some? then [e.value.marker] + (SignText(e.value.sign) + e.value.digits) else []
  }

  function MinusText(negative: bool): Text {
    if negative then [MINUS] else []
  }

  function NumberText(n: Number): Text {
    MinusText(n.negative) + (n.integer + (FractionText(n.fraction) + ExponentText(n.exponent)))
  }

  datatype Value =
    | True | False | Null
    | Num(n: Number)
    | Str(chars: Chars)
    | EmptyArray(inner: Text)
    | Array(elements: Elements)
    | EmptyObject(inner: Text)
    | Object(members: Members)

  datatype Elements =
    | Elements(before: Text, value: Value, after: Text, rest: Option<Elements>)

  datatype Members =
    | Members(before: Text, key: Chars, colonBefore: Text, colonAfter: Text,
              value: Value, after: Text, rest: Option<Members>)

  predicate IsWs(s: Text) {
    forall i :: 0 <= i < |s| ==> IsSpace(s[i])
  }

  // Printing

  function ValueText(v: Value): Text {
    match v
    case True => TRUE_TEXT
    case False => FALSE_TEXT
    case Null => NULL_TEXT
    case Num(n) => NumberText(n)
    case Str(chars) => StringText(chars)
    case EmptyArray(inner) => [OPEN_BRACKET] + (inner + [CLOSE_BRACKET])
    case Array(elements) => [OPEN_BRACKET] + ElementsText(elements)
    case EmptyObject(inner) => [OPEN_BRACE] + (inner + [CLOSE_BRACE])
    case Object(members) => [OPEN_BRACE] + MembersText(members)
  }

  // The elements of an array up to and including its closing bracket.
  function ElementsText(e: Elements): Text {
    e.before + (ValueText(e.value) + (e.after +
      (match e.rest case None => [CLOSE_BRACKET] case Some(rest) => [COMMA] + ElementsText(rest))))
  }

  // A member up to its value.
  function HeadText(m: Members): Text {
    m.before + (StringText(m.key) + (m.colonBefore + ([COLON] + m.colonAfter)))
  }

  // The members of an object up to and including its closing brace.
  function MembersText(m: Members): Text {
    HeadText(m) + (ValueText(m.value) + (m.after +
      (match m.rest case None => [CLOSE_BRACE] case Some(rest) => [COMMA] + MembersText(rest))))
  }

  // The container nesting of a value.
  function Depth(v: Value): nat {
    match v
    case EmptyArray(_) => 1
    case Array(elements) => 1 + ElementsDepth(elements)
    case EmptyObject(_) => 1
    case Object(members) => 1 + MembersDepth(members)
    case _ => 0
  }

  function Max(a: nat, b: nat): nat {
    if a < b then b else a
  }

  function ElementsDepth(e: Elements): nat {
    match e.rest
    case None => Depth(e.value)
    case Some(rest) => Max(Depth(e.value), ElementsDepth(rest))
  }

  function MembersDepth(m: Members): nat {
    match m.rest
    case None => Depth(m.value)
    case Some(rest) => Max(Depth(m.value), MembersDepth(rest))
  }

  predicate ReadableKeys(m: Members) {
    ValidChars(m.key) && (m.rest.Some? ==> ReadableKeys(m.rest.value))
  }

  // The unescaped keys of an object.
  function Keys(m: Members): set<Text>
    requires ReadableKeys(m)
  {
    {Units(m.key)} + (match m.rest case None => {} case Some(rest) => Keys(rest))
  }

  predicate ValidValue(v: Value) {
    match v
    case Num(n) => ValidNumber(n)
    case Str(chars) => ValidString(chars)
    case EmptyArray(inner) => IsWs(inner)
    case Array(elements) => ValidElements(elements)
    case EmptyObject(inner) => IsWs(inner)
    case Object(members) => ValidMembers(members)
    case _ => true
  }

  predicate ValidElements(e: Elements) {
    && IsWs(e.before) && ValidValue(e.value) && IsWs(e.after)
    && (match e.rest case None => true case Some(rest) => ValidElements(rest))
  }

  // Members with distinct unescaped keys.
  predicate ValidMembers(m: Members) {
    && IsWs(m.before) && ValidString(m.key) && IsWs(m.colonBefore) && IsWs(m.colonAfter)
    && ValidValue(m.value) && IsWs(m.after)
    && (match m.rest case None => true case Some(rest) => ValidMembers(rest) && ReadableKeys(rest) && Units(m.key) !in Keys(rest))
  }

  // A whole text: one value between white space.
  datatype Document = Document(before: Text, value: Value, after: Text)

  predicate ValidDocument(d: Document) {
    IsWs(d.before) && ValidValue(d.value) && Depth(d.value) <= MAX_JSON_DEPTH && IsWs(d.after)
  }

  function DocumentText(d: Document): Text {
    d.before + (ValueText(d.value) + d.after)
  }

  // A text derives from the grammar when some tree prints to it.
  ghost predicate Derives(text: Text) {
    exists d: Document :: ValidDocument(d) && DocumentText(d) == text
  }
}
