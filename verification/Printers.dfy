/**
The two printers whose output the database keys on or reads back: the chunk key
(`id:ordinal`, zero-padded to six columns) and the pgvector literal (`%.8f` with trailing
zeros and the trailing dot trimmed). Both lose nothing.
*/
module Printers {

  // ---- Decimal digits ----

  predicate AllDigits(s: string) {
    forall i | 0 <= i < |s| :: '0' <= s[i] <= '9'
  }

  function Digits(n: nat): (s: string)
    ensures s != "" && AllDigits(s)
  {
    var last := [('0' as int + n % 10) as char];
    if n < 10 then last else Digits(n / 10) + last
  }

  function Zeros(n: nat): (s: string)
    ensures |s| == n && AllDigits(s)
    ensures forall i | 0 <= i < n :: s[i] == '0'
  {
    if n == 0 then "" else Zeros(n - 1) + "0"
  }

  // Left-pads with zeros up to a width; longer texts are left alone.
  function ZeroPad(width: nat, s: string): (r: string)
    requires AllDigits(s)
    ensures AllDigits(r) && |s| <= |r|
    ensures |s| <= width ==> |r| == width
  {
    if |s| >= width then s else Zeros(width - |s|) + s
  }

  function ParseDigits(s: string): int {
    if s == "" then 0 else 10 * ParseDigits(s[..|s| - 1]) + (s[|s| - 1] as int - '0' as int)
  }

  lemma {:induction false} ParseOfDigits(n: nat)
    ensures ParseDigits(Digits(n)) == n
  {
    var s := Digits(n);
    if n >= 10 {
      ParseOfDigits(n / 10);
      assert s[..|s| - 1] == Digits(n / 10);
    } else {
      assert s[..0] == "";
    }
  }

  lemma {:induction false} ParseZeros(k: nat)
    ensures ParseDigits(Zeros(k)) == 0
  {
    if k > 0 {
      ParseZeros(k - 1);
      assert Zeros(k)[..k - 1] == Zeros(k - 1);
    }
  }

  lemma {:induction false} ParseLeadingZeros(k: nat, s: string)
    ensures ParseDigits(Zeros(k) + s) == ParseDigits(s)
  {
    hide Zeros, AllDigits;
    var t := Zeros(k) + s;
    if s == "" {
      assert t == Zeros(k);
      ParseZeros(k);
    } else {
      ParseLeadingZeros(k, s[..|s| - 1]);
      assert t[..|t| - 1] == Zeros(k) + s[..|s| - 1];
    }
  }

  lemma ParseOfPadded(width: nat, n: nat)
    ensures ParseDigits(ZeroPad(width, Digits(n))) == n
  {
    ParseOfDigits(n);
    if |Digits(n)| < width {
      ParseLeadingZeros(width - |Digits(n)|, Digits(n));
    }
  }

  // ---- chunkKey ----

  // fmt's %06d: the minus sign takes one of the six columns.
  function SixColumns(n: int): (s: string)
    ensures ':' !in s
  {
    if n >= 0 then ZeroPad(6, Digits(n)) else "-" + ZeroPad(5, Digits(-n))
  }

  function ParseSigned(s: string): int {
    if s != "" && s[0] == '-' then -ParseDigits(s[1..]) else ParseDigits(s)
  }

  function ChunkKey(documentId: string, ordinal: int): string {
    documentId + ":" + SixColumns(ordinal)
  }

  lemma ParseOfSixColumns(n: int)
    ensures ParseSigned(SixColumns(n)) == n
  {
    if n >= 0 {
      ParseOfPadded(6, n);
    } else {
      ParseOfPadded(5, -n);
      assert SixColumns(n)[1..] == ZeroPad(5, Digits(-n));
    }
  }

  // At least six columns, and exactly six where the number fits in them: digits, the minus sign of a
  // negative number first, and no leading zero beyond six columns. It reads back as the number.
  lemma SixColumnsShape(n: int)
    ensures var s := SixColumns(n);
      && |s| >= 6 && (-99999 <= n <= 999999 ==> |s| == 6)
      && (s[0] == '-' <==> n < 0) && AllDigits(if n < 0 then s[1..] else s)
      && ParseSigned(s) == n
    ensures n > 999999 || n < -99999 ==> SixColumns(n) == (if n < 0 then "-" else "") + Digits(if n < 0 then -n else n)
  {
    ParseOfSixColumns(n);
    PowFive();
    if -99999 <= n <= 999999 {
      DigitsFitWidth(if n < 0 then -n else n, if n < 0 then 5 else 6);
    } else {
      DigitsOverflow(if n < 0 then -n else n, if n < 0 then 5 else 6);
    }
    hide Digits, Zeros, ParseSigned;
  }

  lemma PowFive()
    ensures Pow10(5) == 100000 && Pow10(6) == 1000000
  {
    assert Pow10(3) == 1000;
  }

  lemma {:induction false} DigitsOverflow(n: nat, width: nat)
    requires n >= Pow10(width)
    ensures |Digits(n)| > width
  {
    if width > 0 {
      DigitsOverflow(n / 10, width - 1);
    }
  }

  // Only the last colon separates, whatever colons the first part holds.
  lemma LastColonSplits(a: string, x: string, b: string, y: string)
    requires a + ":" + x == b + ":" + y
    requires ':' !in x && ':' !in y
    ensures a == b && x == y
  {
    var s := a + ":" + x;
    var t := b + ":" + y;
    assert s[|a|] == ':' && t[|b|] == ':';
    assert forall i | |a| < i < |s| :: s[i] == x[i - |a| - 1];
    assert forall i | |b| < i < |t| :: t[i] == y[i - |b| - 1];
    assert |a| == |b|;
    assert a == s[..|a|] && b == t[..|b|];
    assert x == s[|a| + 1..] && y == t[|b| + 1..];
  }

  lemma ChunkKeyInjective(a: string, i: int, b: string, j: int)
    ensures ChunkKey(a, i) == ChunkKey(b, j) <==> a == b && i == j
  {
    if ChunkKey(a, i) == ChunkKey(b, j) {
      LastColonSplits(a, SixColumns(i), b, SixColumns(j));
      ParseOfSixColumns(i);
      ParseOfSixColumns(j);
    }
  }

  // ---- vectorLiteral ----

  const SCALE := 1_0000_0000

  // A component rounded to eight decimals: a count of 1e-8 units with an IEEE sign bit.
  datatype Fixed = Fixed(negative: bool, units: nat) {
    function Value(): int {
      if negative then -(units as int) else units
    }
  }

  // fmt's %.8f
  function FormatFixed(v: Fixed): string {
    (if v.negative then "-" else "") + Digits(v.units / SCALE) + "." + ZeroPad(8, Digits(v.units % SCALE))
  }

  // strings.TrimRight with a one-character cutset
  function TrimRightChar(s: string, c: char): (r: string)
    ensures |r| <= |s| && r == s[..|r|]
    ensures r != "" ==> r[|r| - 1] != c
    ensures forall i | |r| <= i < |s| :: s[i] == c
  {
    if s != "" && s[|s| - 1] == c then TrimRightChar(s[..|s| - 1], c) else s
  }

  function ComponentText(v: Fixed): string {
    var t := TrimRightChar(TrimRightChar(FormatFixed(v), '0'), '.');
    if t == "" then "0" else t
  }

  function IndexOf(s: string, c: char): (i: nat)
    ensures i <= |s| && c !in s[..i]
    ensures i < |s| ==> s[i] == c
  {
    if s == "" || s[0] == c then 0
    else
      var j := IndexOf(s[1..], c);
      assert s[..1 + j] == [s[0]] + s[1..][..j];
      1 + j
  }

  // Reads a decimal with at most eight fraction digits back as a count of 1e-8 units.
  function ParseMagnitude(s: string): int {
    var dot := IndexOf(s, '.');
    var fraction := if dot < |s| then s[dot + 1..] else "";
    ParseDigits(s[..dot]) * SCALE
    + ParseDigits(fraction + Zeros(if |fraction| <= 8 then 8 - |fraction| else 0))
  }

  function ParseComponent(s: string): int {
    if s != "" && s[0] == '-' then -ParseMagnitude(s[1..]) else ParseMagnitude(s)
  }

  function Pow10(k: nat): (p: nat)
    ensures p >= 1
  {
    if k == 0 then 1 else 10 * Pow10(k - 1)
  }

  lemma {:induction false} DigitsFitWidth(n: nat, width: nat)
    requires width >= 1 && n < Pow10(width)
    ensures |Digits(n)| <= width
  {
    if n >= 10 {
      assert Pow10(1) == 10 * Pow10(0);
      DigitsFitWidth(n / 10, width - 1);
    }
  }

  lemma {:induction false} TrimRightUnique(s: string, c: char, r: string)
    requires |r| <= |s| && r == s[..|r|]
    requires r != "" ==> r[|r| - 1] != c
    requires forall i | |r| <= i < |s| :: s[i] == c
    ensures TrimRightChar(s, c) == r
  {
    if s != "" && s[|s| - 1] == c {
      TrimRightUnique(s[..|s| - 1], c, r);
    }
  }

  // What is left of "I.F" after both trims: I alone when F is all zeros, else I.F' where F'
  // is F without its trailing zeros.
  function ShortDecimal(whole: string, fraction: string): string {
    var f := TrimRightChar(fraction, '0');
    if f == "" then whole else whole + "." + f
  }

  lemma TrimmedDecimal(whole: string, fraction: string)
    requires whole != "" && whole[|whole| - 1] != '.'
    requires AllDigits(fraction)
    ensures TrimRightChar(TrimRightChar(whole + "." + fraction, '0'), '.') == ShortDecimal(whole, fraction)
  {
    var s := whole + "." + fraction;
    var f := TrimRightChar(fraction, '0');
    var r := whole + "." + f;
    assert r == s[..|r|];
    assert forall i | |r| <= i < |s| :: s[i] == fraction[i - |whole| - 1];
    TrimRightUnique(s, '0', r);
    if f == "" {
      assert r == whole + ".";
      TrimRightUnique(r, '.', whole);
    } else {
      assert r[|r| - 1] == f[|f| - 1];
      TrimRightUnique(r, '.', r);
    }
  }

  lemma {:induction false} ZerosUnique(s: string)
    requires forall i | 0 <= i < |s| :: s[i] == '0'
    ensures s == Zeros(|s|)
  {}

  lemma IndexUnique(s: string, c: char, i: nat)
    requires i <= |s| && c !in s[..i] && (i < |s| ==> s[i] == c)
    ensures IndexOf(s, c) == i
  {
    var j := IndexOf(s, c);
    assert forall k | 0 <= k < i :: s[k] in s[..i];
    assert forall k | 0 <= k < j :: s[k] in s[..j];
  }

  lemma ParseOfShortDecimal(whole: string, fraction: string)
    requires AllDigits(whole) && AllDigits(fraction) && |fraction| == 8
    ensures ParseMagnitude(ShortDecimal(whole, fraction)) == ParseDigits(whole) * SCALE + ParseDigits(fraction)
  {
    hide ParseDigits;
    var f := TrimRightChar(fraction, '0');
    hide TrimRightChar;
    var s := ShortDecimal(whole, fraction);
    ZerosUnique(fraction[|f|..]);
    assert fraction == f + Zeros(8 - |f|);
    assert s[..|whole|] == whole;
    IndexUnique(s, '.', |whole|);
    if f == "" {
      assert "" + Zeros(8) == fraction;
    } else {
      assert s[|whole| + 1..] == f;
    }
  }

  function Magnitude(units: nat): string {
    ShortDecimal(Digits(units / SCALE), ZeroPad(8, Digits(units % SCALE)))
  }

  lemma EightDigitFraction(units: nat)
    ensures var f := ZeroPad(8, Digits(units % SCALE)); |f| == 8 && ParseDigits(f) == units % SCALE
  {
    PowEight();
    DigitsFitWidth(units % SCALE, 8);
    ParseOfPadded(8, units % SCALE);
  }

  lemma MagnitudeRoundTrip(units: nat)
    ensures ParseMagnitude(Magnitude(units)) == units
  {
    EightDigitFraction(units);
    ParseOfDigits(units / SCALE);
    ParseOfShortDecimal(Digits(units / SCALE), ZeroPad(8, Digits(units % SCALE)));
  }

  lemma MagnitudeShape(units: nat)
    ensures Magnitude(units) != "" && Magnitude(units)[0] != '-' && ',' !in Magnitude(units)
  {
    var whole := Digits(units / SCALE);
    var fraction := ZeroPad(8, Digits(units % SCALE));
    var f := TrimRightChar(fraction, '0');
    assert ',' !in whole && ',' !in fraction;
    assert Magnitude(units)[0] == whole[0];
  }

  lemma ShortDecimalPrefix(sign: string, whole: string, fraction: string)
    ensures ShortDecimal(sign + whole, fraction) == sign + ShortDecimal(whole, fraction)
  {
    var f := TrimRightChar(fraction, '0');
    assert sign + whole + "." + f == sign + (whole + "." + f);
  }

  lemma ComponentShape(v: Fixed)
    ensures ComponentText(v) == (if v.negative then "-" else "") + Magnitude(v.units)
  {
    var sign := if v.negative then "-" else "";
    var whole := Digits(v.units / SCALE);
    var fraction := ZeroPad(8, Digits(v.units % SCALE));
    TrimmedDecimal(sign + whole, fraction);
    MagnitudeShape(v.units);
    ShortDecimalPrefix(sign, whole, fraction);
  }

  lemma ComponentRoundTrip(v: Fixed)
    ensures ParseComponent(ComponentText(v)) == v.Value()
    ensures ',' !in ComponentText(v) && ComponentText(v) != ""
  {
    hide ComponentText, Magnitude, ParseMagnitude;
    ComponentShape(v);
    MagnitudeShape(v.units);
    MagnitudeRoundTrip(v.units);
    if v.negative {
      assert ComponentText(v)[1..] == Magnitude(v.units);
    } else {
      assert ComponentText(v) == Magnitude(v.units);
    }
  }

  lemma PowEight()
    ensures Pow10(8) == SCALE
  {
    assert Pow10(4) == 10000;
  }

  // strings.Join(parts, ",")
  function Join(parts: seq<string>): string {
    if parts == [] then ""
    else if |parts| == 1 then parts[0]
    else parts[0] + "," + Join(parts[1..])
  }

  function Components(vector: seq<Fixed>): seq<string> {
    seq(|vector|, i requires 0 <= i < |vector| => ComponentText(vector[i]))
  }

  function Literal(vector: seq<Fixed>): string {
    "[" + Join(Components(vector)) + "]"
  }

  // The reader: the brackets, and between them the components, separated by commas.
  function ParseList(s: string): seq<int>
    decreases |s|
  {
    var comma := IndexOf(s, ',');
    [ParseComponent(s[..comma])] + if comma < |s| then ParseList(s[comma + 1..]) else []
  }

  datatype Reading = NotAVector | Vector(values: seq<int>)

  function ParseLiteral(s: string): Reading {
    if |s| < 2 || s[0] != '[' || s[|s| - 1] != ']' then NotAVector
    else if |s| == 2 then Vector([])
    else Vector(ParseList(s[1..|s| - 1]))
  }

  function Values(vector: seq<Fixed>): seq<int> {
    seq(|vector|, i requires 0 <= i < |vector| => vector[i].Value())
  }

  lemma SplitAtComma(head: string, tail: string)
    requires ',' !in head
    ensures ParseList(head + "," + tail) == [ParseComponent(head)] + ParseList(tail)
  {
    var s := head + "," + tail;
    assert s[..|head|] == head && s[|head| + 1..] == tail;
    IndexUnique(s, ',', |head|);
  }

  lemma SplitAtEnd(last: string)
    requires ',' !in last
    ensures ParseList(last) == [ParseComponent(last)]
  {
    assert last[..|last|] == last;
    IndexUnique(last, ',', |last|);
  }

  function ParseAll(parts: seq<string>): seq<int> {
    seq(|parts|, i requires 0 <= i < |parts| => ParseComponent(parts[i]))
  }

  lemma ParseAllCons(parts: seq<string>)
    requires parts != []
    ensures ParseAll(parts) == [ParseComponent(parts[0])] + ParseAll(parts[1..])
  {}

  lemma {:induction false} SplitOfJoin(parts: seq<string>)
    requires parts != []
    requires forall i | 0 <= i < |parts| :: ',' !in parts[i] && parts[i] != ""
    ensures ParseList(Join(parts)) == ParseAll(parts)
    ensures Join(parts) != ""
  {
    if |parts| == 1 {
      SplitAtEnd(parts[0]);
    } else {
      SplitOfJoin(parts[1..]);
      SplitAtComma(parts[0], Join(parts[1..]));
      ParseAllCons(parts);
    }
  }

  lemma ListRoundTrip(vector: seq<Fixed>)
    requires vector != []
    ensures ParseList(Join(Components(vector))) == Values(vector)
    ensures Join(Components(vector)) != ""
  {
    forall i | 0 <= i < |vector|
      ensures ',' !in ComponentText(vector[i]) && ComponentText(vector[i]) != ""
      ensures ParseComponent(ComponentText(vector[i])) == vector[i].Value()
    {
      ComponentRoundTrip(vector[i]);
    }
    SplitOfJoin(Components(vector));
    assert ParseAll(Components(vector)) == Values(vector);
  }

  // Reading a printed vector gives back exactly its components, to all eight decimals.
  lemma LiteralRoundTrip(vector: seq<Fixed>)
    ensures ParseLiteral(Literal(vector)) == Vector(Values(vector))
  {
    if vector == [] {
      assert Components(vector) == [];
    } else {
      var body := Join(Components(vector));
      ListRoundTrip(vector);
      assert Literal(vector)[1..|Literal(vector)| - 1] == body;
    }
  }

  // One component reads back as its value, and holds no comma to split it at.
  method PrintComponent(v: Fixed) returns (part: string)
    ensures ParseComponent(part) == v.Value()
    ensures part != "" && ',' !in part
    ensures part == ComponentText(v)
  {
    ComponentRoundTrip(v);
    hide ParseComponent;
    part := TrimRightChar(TrimRightChar(FormatFixed(v), '0'), '.');
    if part == "" {
      part := "0";
    }
  }

  // vectorLiteral: fills a slice of component texts, one per index, and joins it.
  method VectorLiteral(vector: seq<Fixed>) returns (r: string)
    ensures r == Literal(vector)
  {
    hide ComponentText, Join;
    var parts := new string[|vector|];
    for i := 0 to |vector|
      invariant forall k | 0 <= k < i :: parts[k] == ComponentText(vector[k])
    {
      var part := PrintComponent(vector[i]);
      parts[i] := part;
    }
    assert parts[..] == Components(vector);
    r := "[" + Join(parts[..]) + "]";
  }
}
