// JSON values as trees, and reading and printing lists of them. A number with a
// fraction or an exponent is kept as its numeral.
module JsonTree {
  import opened Wrappers
  import opened Records
  import opened Sorting

  datatype Json =
    | JNull
    | JBool(flag: bool)
    | JInt(number: int)
    | JReal(numeral: string)
    | JString(text: string)
    | JArray(items: seq<Json>)
    | JObject(fields: map<string, Json>)

  // How instants, and documents nested in strings, are written as text.
  datatype TextCodec = TextCodec(
    format: Instant -> string, fromIso: string -> Option<Instant>,
    pack: Json -> string, unpack: string -> Option<Json>)

  // A printed instant is an RFC 3339 text in UTC with microseconds, which reads
  // back with its Z written as an offset.
  ghost predicate Faithful(codec: TextCodec) {
    forall t: Instant :: Stamped(codec.format(t)) && codec.fromIso(WithOffset(codec.format(t))) == Some(t)
  }

  predicate Stamped(text: string) {
    |text| >= 21 && text[10] == 'T' && text[|text| - 1] == 'Z'
  }

  function WithOffset(text: string): string
    requires text != []
  {
    text[..|text| - 1] + "+00:00"
  }

  function PrintAll<T>(write: T -> Json, xs: seq<T>): seq<Json> {
    Map(write, xs)
  }

  function ParseAll<T, E>(read: Json -> Result<T, E>, values: seq<Json>): Result<seq<T>, E> {
    if values == [] then Ok([])
    else
      var first :- read(values[0]);
      var rest :- ParseAll(read, values[1..]);
      Ok([first] + rest)
  }

  lemma {:induction false} ParsePrinted<T, E>(write: T -> Json, read: Json -> Result<T, E>, xs: seq<T>)
    requires forall x :: x in xs ==> read(write(x)) == Ok(x)
    ensures ParseAll(read, PrintAll(write, xs)) == Ok(xs)
  {
    if xs != [] {
      assert xs[0] in xs;
      ParsePrinted(write, read, xs[1..]);
      var values := PrintAll(write, xs);
      assert values[1..] == PrintAll(write, xs[1..]);
      assert read(values[0]) == Ok(xs[0]);
      assert xs == [xs[0]] + xs[1..];
    }
  }

  // When every value reads as the image of what it reads as elsewhere, so does the list.
  lemma {:induction false} ParseMapped<T, U, E>(read: Json -> Result<T, E>, again: Json -> Result<U, E>,
                                             change: Json -> Json, f: T -> U, values: seq<Json>)
    requires forall v :: v in values ==>
               again(change(v)) == match read(v) case Ok(x) => Ok(f(x)) case Err(e) => Err(e)
    ensures ParseAll(again, Map(change, values)) ==
            match ParseAll(read, values) case Ok(xs) => Ok(Map(f, xs)) case Err(e) => Err(e)
  {
    if values != [] {
      ParseMapped(read, again, change, f, values[1..]);
      assert Map(change, values)[1..] == Map(change, values[1..]);
      if read(values[0]).Ok? && ParseAll(read, values[1..]).Ok? {
        var first, rest := read(values[0]).value, ParseAll(read, values[1..]).value;
        assert Map(f, [first] + rest) == [f(first)] + Map(f, rest);
      }
    }
  }
}
