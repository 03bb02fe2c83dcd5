// A way of writing instants and packed documents that has the properties asked of
// the helper's: what is assumed of them can be met.
module CodecWitness {
  import opened Wrappers
  import opened Records
  import opened JsonTree
  import GenerationCodec
  import StorageFiles

  // Instants, by the number of digits after the seconds

  function Code(n: int): (r: nat)
    ensures Decode(r) == n
  {
    if n >= 0 then 2 * n else -2 * n - 1
  }

  function Decode(r: nat): int {
    if r % 2 == 0 then r / 2 else -((r + 1) / 2)
  }

  function Repeated(c: char, n: nat): (r: string)
    ensures |r| == n
  {
    seq(n, _ => c)
  }

  function FormatInstant(t: Instant): string {
    "1970-01-01T00:00:00." + Repeated('0', Code(t)) + "Z"
  }

  function ReadInstant(text: string): Option<Instant> {
    if |text| < 26 then None else Some(Decode(|text| - 26))
  }

  // Documents, as texts none of which starts another

  function Counted(n: nat): string {
    Repeated('1', n) + "0"
  }

  function Prefixed(text: string): string {
    Counted(|text|) + text
  }

  ghost function Pack(j: Json): string
    decreases j, 1, 0
  {
    match j
    case JNull => "n"
    case JBool(flag) => if flag then "t" else "f"
    case JInt(number) => "i" + Counted(Code(number))
    case JReal(numeral) => "r" + Prefixed(numeral)
    case JString(text) => "s" + Prefixed(text)
    case JArray(items) => "a" + PackItems(j, 0)
    case JObject(fields) => "o" + PackFields(j, fields)
  }

  ghost function PackItems(j: Json, from: nat): string
    requires j.JArray? && from <= |j.items|
    decreases j, 0, |j.items| - from
  {
    if from == |j.items| then "e" else "m" + Pack(j.items[from]) + PackItems(j, from + 1)
  }

  ghost predicate Among(fields: map<string, Json>, j: Json) {
    j.JObject? && forall k :: k in fields ==> k in j.fields && fields[k] == j.fields[k]
  }

  ghost function PackFields(j: Json, fields: map<string, Json>): string
    requires Among(fields, j)
    decreases j, 0, |fields|
  {
    if fields == map[] then "e"
    else
      var k := AnyKey(fields);
      "m" + Prefixed(k) + Pack(j.fields[k]) + PackFields(j, fields - {k})
  }

  ghost function AnyKey(fields: map<string, Json>): (k: string)
    requires fields != map[]
    ensures k in fields
  {
    var k :| k in fields;
    k
  }

  // No text is the start of another

  lemma CountedUnique(m: nat, n: nat, x: string, y: string)
    requires Counted(m) + x == Counted(n) + y
    ensures m == n && x == y
  {
    var text := Counted(m) + x;
    assert text[m] == '0' && text[n] == '0';
    assert forall i :: 0 <= i < m || 0 <= i < n ==> text[i] == '1';
    assert x == text[m + 1..] && y == text[n + 1..];
  }

  lemma PrefixedUnique(a: string, b: string, x: string, y: string)
    requires Prefixed(a) + x == Prefixed(b) + y
    ensures a == b && x == y
  {
    assert Prefixed(a) + x == Counted(|a|) + (a + x) && Prefixed(b) + y == Counted(|b|) + (b + y);
    CountedUnique(|a|, |b|, a + x, b + y);
    assert a == (a + x)[..|a|] && b == (b + y)[..|b|];
    assert x == (a + x)[|a|..] && y == (b + y)[|b|..];
  }

  // Texts that start with a character, after it.
  lemma AfterFirst(c: char, d: char, x: string, y: string)
    requires [c] + x == [d] + y
    ensures c == d && x == y
  {
    assert x == ([c] + x)[1..] && y == ([d] + y)[1..];
  }

  lemma {:induction false} PackUnique(a: Json, b: Json, x: string, y: string)
    requires Pack(a) + x == Pack(b) + y
    ensures a == b && x == y
    decreases a, 1, 0
  {
    TagsAgree(a, b, x, y);
    var restA, restB := Pack(a)[1..] + x, Pack(b)[1..] + y;
    assert Pack(a) + x == [Pack(a)[0]] + restA && Pack(b) + y == [Pack(b)[0]] + restB;
    AfterFirst(Pack(a)[0], Pack(b)[0], restA, restB);
    match a {
      case JInt(number) =>
        CountedUnique(Code(number), Code(b.number), x, y);
      case JReal(numeral) =>
        PrefixedUnique(numeral, b.numeral, x, y);
      case JString(text) =>
        PrefixedUnique(text, b.text, x, y);
      case JArray(items) =>
        ItemsUnique(a, b, 0, x, y);
      case JObject(fields) =>
        FieldsUnique(a, b, fields, b.fields, x, y);
      case _ =>
        assert restA == x && restB == y;
    }
  }

  lemma TagsAgree(a: Json, b: Json, x: string, y: string)
    requires Pack(a) + x == Pack(b) + y
    ensures Pack(a) != [] && Pack(b) != [] && Pack(a)[0] == Pack(b)[0]
    ensures a.JNull? == b.JNull? && a.JBool? == b.JBool? && a.JInt? == b.JInt? && a.JReal? == b.JReal?
    ensures a.JString? == b.JString? && a.JArray? == b.JArray? && a.JObject? == b.JObject?
    ensures a.JBool? ==> a.flag == b.flag
  {
    assert (Pack(a) + x)[0] == Pack(a)[0] && (Pack(b) + y)[0] == Pack(b)[0];
  }

  lemma {:induction false} ItemsUnique(a: Json, b: Json, from: nat, x: string, y: string)
    requires a.JArray? && b.JArray? && from <= |a.items| && from <= |b.items|
    requires PackItems(a, from) + x == PackItems(b, from) + y
    ensures |a.items| == |b.items| && a.items[from..] == b.items[from..] && x == y
    decreases a, 0, |a.items| - from
  {
    assert (PackItems(a, from) + x)[0] == PackItems(a, from)[0] && (PackItems(b, from) + y)[0] == PackItems(b, from)[0];
    if from == |a.items| {
      AfterFirst('e', 'e', x, y);
    } else {
      var restA, restB := PackItems(a, from + 1) + x, PackItems(b, from + 1) + y;
      assert PackItems(a, from) + x == ['m'] + (Pack(a.items[from]) + restA);
      assert PackItems(b, from) + y == ['m'] + (Pack(b.items[from]) + restB);
      AfterFirst('m', 'm', Pack(a.items[from]) + restA, Pack(b.items[from]) + restB);
      PackUnique(a.items[from], b.items[from], restA, restB);
      ItemsUnique(a, b, from + 1, x, y);
      assert a.items[from..] == [a.items[from]] + a.items[from + 1..];
      assert b.items[from..] == [b.items[from]] + b.items[from + 1..];
    }
  }

  lemma {:induction false} FieldsUnique(a: Json, b: Json, m: map<string, Json>, n: map<string, Json>, x: string, y: string)
    requires Among(m, a) && Among(n, b)
    requires PackFields(a, m) + x == PackFields(b, n) + y
    ensures m == n && x == y
    decreases a, 0, |m|
  {
    assert (PackFields(a, m) + x)[0] == PackFields(a, m)[0] && (PackFields(b, n) + y)[0] == PackFields(b, n)[0];
    if m == map[] {
      AfterFirst('e', 'e', x, y);
    } else {
      var k, l := AnyKey(m), AnyKey(n);
      var restA, restB := PackFields(a, m - {k}), PackFields(b, n - {l});
      MemberUnique(k, l, Pack(a.fields[k]), Pack(b.fields[l]), restA, restB, x, y);
      PackUnique(a.fields[k], b.fields[l], restA + x, restB + y);
      FieldsUnique(a, b, m - {k}, n - {l}, x, y);
      WithKey(m, n, k);
    }
  }

  lemma MemberUnique(k: string, l: string, p: string, q: string, restA: string, restB: string, x: string, y: string)
    requires "m" + Prefixed(k) + p + restA + x == "m" + Prefixed(l) + q + restB + y
    ensures k == l && p + (restA + x) == q + (restB + y)
  {
    assert "m" + Prefixed(k) + p + restA + x == ['m'] + (Prefixed(k) + (p + (restA + x)));
    assert "m" + Prefixed(l) + q + restB + y == ['m'] + (Prefixed(l) + (q + (restB + y)));
    AfterFirst('m', 'm', Prefixed(k) + (p + (restA + x)), Prefixed(l) + (q + (restB + y)));
    PrefixedUnique(k, l, p + (restA + x), q + (restB + y));
  }

  lemma WithKey(m: map<string, Json>, n: map<string, Json>, k: string)
    requires k in m && k in n && m[k] == n[k] && m - {k} == n - {k}
    ensures m == n
  {
    assert m == (m - {k})[k := m[k]] && n == (n - {k})[k := n[k]];
  }

  // The codec

  ghost function Unpack(text: string): (r: Option<Json>)
    ensures forall j :: Pack(j) == text ==> r == Some(j)
  {
    if j :| Pack(j) == text then
      PackedOnce(text);
      Some(j)
    else None
  }

  lemma PackedOnce(text: string)
    ensures forall i, j :: Pack(i) == text && Pack(j) == text ==> i == j
  {
    forall i, j | Pack(i) == text && Pack(j) == text
      ensures i == j
    {
      PackUnique(i, j, [], []);
    }
  }

  ghost function Witness(): TextCodec {
    TextCodec(FormatInstant, ReadInstant, (j: Json) => Pack(j), (text: string) => Unpack(text))
  }

  lemma InstantReadBack(t: Instant)
    ensures Stamped(FormatInstant(t)) && ReadInstant(WithOffset(FormatInstant(t))) == Some(t)
  {
  }

  lemma WitnessTimes()
    ensures Faithful(Witness())
  {
    forall t: Instant
      ensures Stamped(Witness().format(t)) && Witness().fromIso(WithOffset(Witness().format(t))) == Some(t)
    {
      InstantReadBack(t);
    }
  }

  lemma WitnessDocuments()
    ensures GenerationCodec.PacksDocuments(Witness())
  {
    forall j: Json
      ensures GenerationCodec.Unpacks(Witness(), j)
    {
      assert Unpack(Pack(j)) == Some(j);
    }
  }

  // This codec, and with it the helper's formats, meet everything that is asked of them.
  lemma WitnessLawful()
    ensures Faithful(Witness()) && GenerationCodec.PacksDocuments(Witness())
    ensures StorageFiles.Lawful(StorageFiles.HelperFormat(Witness()))
  {
    WitnessTimes();
    WitnessDocuments();
    StorageFiles.HelperFormatLawful(Witness());
  }
}
