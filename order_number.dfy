/** The order number that the post_save receiver in orders/signals.py writes back:
    "ORD-" + str(order.id) + "-" + uuid4().hex[:6].upper(). The random hex string is an input. */
module OrderNumbers {
  import opened Common

  predicate IsDigit(c: char) {
    '0' <= c <= '9'
  }

  predicate AllDigits(s: string) {
    forall i :: 0 <= i < |s| ==> IsDigit(s[i])
  }

  function DigitChar(d: nat): (c: char)
    requires d < 10
    ensures IsDigit(c) && c as int - '0' as int == d
  {
    ('0' as int + d) as char
  }

  /** str(n) for a non-negative integer: decimal digits without leading zeros. */
  function Decimal(n: nat): (s: string)
    ensures |s| >= 1 && AllDigits(s)
    ensures n == 0 <==> s == "0"
    ensures n > 0 ==> s[0] != '0'
  {
    if n < 10 then [DigitChar(n)] else Decimal(n / 10) + [DigitChar(n % 10)]
  }

  function DigitValue(c: char): nat
    requires IsDigit(c)
  {
    c as int - '0' as int
  }

  /** Reads a string of decimal digits back as a number. */
  function ParseDecimal(s: string): nat
    requires AllDigits(s)
  {
    if s == [] then 0 else ParseDecimal(s[..|s| - 1]) * 10 + DigitValue(s[|s| - 1])
  }

  lemma {:induction false} ParseDecimalOfDecimal(n: nat)
    ensures ParseDecimal(Decimal(n)) == n
  {
    if n >= 10 {
      var s := Decimal(n);
      assert s[..|s| - 1] == Decimal(n / 10);
      ParseDecimalOfDecimal(n / 10);
    }
  }

  function Pow10(k: nat): (r: nat)
    ensures r >= 1
  {
    if k == 0 then 1 else 10 * Pow10(k - 1)
  }

  /** A number has at most k decimal digits exactly when it is below 10^k. */
  lemma {:induction false} DecimalLength(n: nat, k: nat)
    requires k >= 1
    ensures |Decimal(n)| <= k <==> n < Pow10(k)
  {
    if n >= 10 {
      if k == 1 {
        assert |Decimal(n)| == |Decimal(n / 10)| + 1;
      } else {
        DecimalLength(n / 10, k - 1);
      }
    } else {
      assert Pow10(k) == 10 * Pow10(k - 1);
    }
  }

  /** str.upper() on the ASCII letters that a hex digest contains. */
  function UpperChar(c: char): char {
    if 'a' <= c <= 'z' then (c as int - 32) as char else c
  }

  function Upper(s: string): (r: string)
    ensures |r| == |s|
    ensures forall i :: 0 <= i < |s| ==> r[i] == UpperChar(s[i])
  {
    seq(|s|, i requires 0 <= i < |s| => UpperChar(s[i]))
  }

  /** What uuid.uuid4().hex returns: 32 lower-case hexadecimal digits. */
  predicate IsUuidHex(h: string) {
    |h| == 32 && forall i :: 0 <= i < |h| ==> h[i] in "0123456789abcdef"
  }

  /** `hex[:6].upper()` (Python slicing: the whole string when it is shorter). */
  function Suffix(uuidHex: string): string {
    Upper(uuidHex[..if |uuidHex| < 6 then |uuidHex| else 6])
  }

  /** The number set_order_number assigns to the order with this id. */
  function OrderNumber(id: nat, uuidHex: string): (r: string)
    ensures |r| >= 6 && r[..4] == "ORD-"
    ensures |uuidHex| >= 6 ==> |r| == 11 + |Decimal(id)|
    ensures |uuidHex| >= 6 ==> r[|r| - 6..] == Suffix(uuidHex)
  {
    "ORD-" + Decimal(id) + "-" + Suffix(uuidHex)
  }

  /** The suffix is six upper-case hexadecimal digits. */
  lemma SuffixIsUpperHex(uuidHex: string)
    requires IsUuidHex(uuidHex)
    ensures |Suffix(uuidHex)| == 6
    ensures forall i :: 0 <= i < 6 ==> Suffix(uuidHex)[i] in "0123456789ABCDEF"
  {
    forall i | 0 <= i < 6
      ensures Suffix(uuidHex)[i] in "0123456789ABCDEF"
    {
      var c := uuidHex[i];
      assert c in "0123456789abcdef";
      assert Suffix(uuidHex)[i] == UpperChar(c);
    }
  }

  /** Recovers the order id from a number of the form ORD-<digits>-<six characters>. */
  function ParseOrderId(s: string): Option<nat> {
    if |s| >= 12 && s[..4] == "ORD-" && s[|s| - 7] == '-' && AllDigits(s[4..|s| - 7])
    then Some(ParseDecimal(s[4..|s| - 7]))
    else None
  }

  /** The id can be read back from every number assigned with a full-length digest. */
  lemma OrderNumberRoundTrip(id: nat, uuidHex: string)
    requires |uuidHex| >= 6
    ensures ParseOrderId(OrderNumber(id, uuidHex)) == Some(id)
  {
    var d := Decimal(id);
    var s := OrderNumber(id, uuidHex);
    assert s == "ORD-" + d + "-" + Suffix(uuidHex);
    assert |Suffix(uuidHex)| == 6;
    assert s[|s| - 7] == '-';
    assert s[4..|s| - 7] == d;
    ParseDecimalOfDecimal(id);
  }

  /** Orders with different ids never share a number, whatever the random suffixes. */
  lemma DistinctIdsDistinctNumbers(id1: nat, hex1: string, id2: nat, hex2: string)
    requires |hex1| >= 6 && |hex2| >= 6
    requires id1 != id2
    ensures OrderNumber(id1, hex1) != OrderNumber(id2, hex2)
  {
    OrderNumberRoundTrip(id1, hex1);
    OrderNumberRoundTrip(id2, hex2);
  }

  /** The number fits the column's max_length of 20 exactly while the id has at most nine digits. */
  lemma OrderNumberFitsColumn(id: nat, uuidHex: string)
    requires |uuidHex| >= 6
    ensures |OrderNumber(id, uuidHex)| <= 20 <==> id < 1000000000
  {
    DecimalLength(id, 9);
    assert Pow10(9) == 1000000000;
  }
}
