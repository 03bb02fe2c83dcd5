// Decimal numerals, and lists joined with commas.
module DecimalText {
  import opened StateValidation

  function DigitOf(n: nat): (c: char)
    requires n < 10
    ensures IsDigit(c)
  {
    '0' + n as char
  }

  function DigitValue(c: char): (n: nat)
    requires IsDigit(c)
    ensures n < 10
  {
    c as int - '0' as int
  }

  // The numeral of a number, without leading zeros.
  function Numeral(n: nat): (s: string)
    ensures s != [] && AllDigits(s)
    ensures n > 0 ==> s[0] != '0'
  {
    if n < 10 then [DigitOf(n)] else Numeral(n / 10) + [DigitOf(n % 10)]
  }

  // The value of a string of digits; leading zeros are allowed.
  function Value(s: string): nat
    requires AllDigits(s)
  {
    if s == [] then 0 else Value(s[..|s| - 1]) * 10 + DigitValue(s[|s| - 1])
  }

  lemma {:induction false} NumeralValue(n: nat)
    ensures Value(Numeral(n)) == n
  {
    if n >= 10 {
      NumeralValue(n / 10);
      var s := Numeral(n);
      assert s[..|s| - 1] == Numeral(n / 10);
      assert DigitValue(DigitOf(n % 10)) == n % 10;
    } else {
      var s := Numeral(n);
      assert s[..|s| - 1] == [];
    }
  }

  function PowerOfTen(k: nat): nat {
    if k == 0 then 1 else 10 * PowerOfTen(k - 1)
  }

  lemma {:induction false} NumeralLength(n: nat, k: nat)
    requires k >= 1 && n < PowerOfTen(k)
    ensures |Numeral(n)| <= k
  {
    if n >= 10 {
      NumeralLength(n / 10, k - 1);
    }
  }

  // Lists joined with commas

  function Joined(texts: seq<string>): string
    requires texts != []
  {
    if |texts| == 1 then texts[0] else texts[0] + "," + Joined(texts[1..])
  }

  // The text up to the first comma, and the rest after it if there is one.
  function BeforeComma(text: string): string {
    if text == "" || text[0] == ',' then "" else [text[0]] + BeforeComma(text[1..])
  }

  function SplitAtCommas(text: string): (parts: seq<string>)
    ensures parts != []
    decreases |text|
  {
    var first := BeforeComma(text);
    BeforeCommaIsPrefix(text);
    if |first| == |text| then [first] else [first] + SplitAtCommas(text[|first| + 1..])
  }

  lemma {:induction false} BeforeCommaIsPrefix(text: string)
    ensures |BeforeComma(text)| <= |text| && BeforeComma(text) == text[..|BeforeComma(text)|]
    ensures |BeforeComma(text)| < |text| ==> text[|BeforeComma(text)|] == ','
  {
    if text != "" && text[0] != ',' {
      BeforeCommaIsPrefix(text[1..]);
    }
  }

  lemma {:induction false} BeforeCommaOf(head: string, tail: string)
    requires ',' !in head && (tail == "" || tail[0] == ',')
    ensures BeforeComma(head + tail) == head
  {
    if head == "" {
      assert head + tail == tail;
    } else {
      assert (head + tail)[1..] == head[1..] + tail;
      BeforeCommaOf(head[1..], tail);
    }
  }

  // Splitting at the commas undoes joining, for texts without commas.
  lemma {:induction false} SplitJoined(texts: seq<string>)
    requires texts != [] && forall t :: t in texts ==> ',' !in t
    ensures SplitAtCommas(Joined(texts)) == texts
  {
    if |texts| == 1 {
      BeforeCommaOf(texts[0], "");
      assert texts[0] + "" == texts[0];
    } else {
      var rest := Joined(texts[1..]);
      var text := Joined(texts);
      assert text == texts[0] + ("," + rest);
      BeforeCommaOf(texts[0], "," + rest);
      assert text[|texts[0]| + 1..] == rest;
      SplitJoined(texts[1..]);
    }
  }
}
