/** Amounts of PagoPA notices: cents in the QR code, "euro,cents" in the file, cents again where the
    instalments are compared. */
module PagoPaAmount {
  import opened Text

  /** Python `str(n)`. */
  function Signed(n: int): (r: string)
    ensures r != "" && forall c :: c in r ==> c == '-' || '0' <= c <= '9'
  {
    if n < 0 then "-" + Decimal(-n) else Decimal(n)
  }

  predicate Digits(s: string) {
    s != "" && forall c :: c in s ==> '0' <= c <= '9'
  }

  /** Python `int(s)` on an optional sign and digits; None is a ValueError. */
  function ParseInt(s: string): Option<int> {
    if s != "" && (s[0] == '-' || s[0] == '+') then
      if Digits(s[1..]) then Some(if s[0] == '-' then -Value(s[1..]) else Value(s[1..])) else None
    else if Digits(s) then Some(Value(s))
    else None
  }

  lemma ParseSigned(n: int)
    ensures ParseInt(Signed(n)) == Some(n)
  {
    DecimalValue(if n < 0 then -n else n);
    if n >= 0 {
      assert Decimal(n)[0] in Decimal(n);
    } else {
      assert Signed(n)[1..] == Decimal(-n);
    }
  }

  function TwoDigits(n: nat): (r: string)
    requires n < 100
    ensures |r| == 2 && forall c :: c in r ==> '0' <= c <= '9'
  {
    [Digit(n / 10), Digit(n % 10)]
  }

  /** `f"{c // 100},{c % 100:02d}"`: floor division, so the remainder is never negative. */
  function Importo(cents: int): string {
    Signed(cents / 100) + "," + TwoDigits(cents % 100)
  }

  /** What stands before and after the first comma. */
  function Partition(s: string): (string, string) {
    if s == "" then ("", "")
    else if s[0] == ',' then ("", s[1..])
    else
      var (a, b) := Partition(s[1..]);
      ([s[0]] + a, b)
  }

  /** _importo_to_cents */
  function ImportoToCents(importo: string): Option<int> {
    var (euro, cents) := Partition(importo);
    var (e, c) := (ParseInt(euro), ParseInt((cents + "00")[..2]));
    if e.Some? && c.Some? then Some(e.value * 100 + c.value) else None
  }

  lemma {:induction false} PartitionAt(a: string, b: string)
    requires ',' !in a
    ensures Partition(a + "," + b) == (a, b)
  {
    var s := a + "," + b;
    if a == "" {
      assert s[0] == ',' && s[1..] == b;
    } else {
      assert s[0] == a[0] && a[0] in a && s[1..] == a[1..] + "," + b;
      PartitionAt(a[1..], b);
      assert [a[0]] + a[1..] == a;
    }
  }

  lemma ParseTwoDigits(n: nat)
    requires n < 100
    ensures ParseInt(TwoDigits(n)) == Some(n)
  {
    var s := TwoDigits(n);
    assert s[..1] == [Digit(n / 10)] && s[..1][..0] == [];
    assert s[0] in s;
    assert Value(s) == 10 * Value(s[..1]) + n % 10;
  }

  /** Printing cents and reading them back is the identity, for negative amounts too. */
  lemma AmountRoundTrip(cents: int)
    ensures ImportoToCents(Importo(cents)) == Some(cents)
  {
    var two := TwoDigits(cents % 100);
    PartitionAt(Signed(cents / 100), two);
    ParseSigned(cents / 100);
    ParseTwoDigits(cents % 100);
    assert (two + "00")[..2] == two;
  }

  datatype Payment = Payment(numeroAvviso: string, cfEnte: string, importo: string)

  /** _parse_pagopa_qr */
  function ParseQr(text: string): Option<Payment> {
    var parts := Split(text, '|');
    if |parts| < 5 || parts[0] != "PAGOPA" then None
    else
      var cents := ParseInt(parts[4]);
      Some(Payment(parts[2], parts[3], if cents.Some? then Importo(cents.value) else ""))
  }

  /** A notice's QR code gives its number, its creditor and an amount that reads back as the cents of the
      code; anything after the amount is ignored. */
  lemma QrRoundTrip(numero: string, cf: string, cents: int, extra: seq<string>)
    requires '|' !in numero && '|' !in cf && forall x :: x in extra ==> '|' !in x
    ensures var q := ParseQr(Join(["PAGOPA", "002", numero, cf, Signed(cents)] + extra, '|'));
      && q.Some? && q.value.numeroAvviso == numero && q.value.cfEnte == cf
      && ImportoToCents(q.value.importo) == Some(cents)
  {
    SplitJoin(["PAGOPA", "002", numero, cf, Signed(cents)] + extra, '|');
    ParseSigned(cents);
    AmountRoundTrip(cents);
  }
}
