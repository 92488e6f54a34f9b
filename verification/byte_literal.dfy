/** How a byte array appears in the generated source: Ruby's `Array#to_s`
    on the result of `xor_unpacked`, e.g. `[1, 2, 3]` (keys-generator.rb:159,
    178). A small parser shows that the literal determines its bytes. */
module ByteLiteral {
  import opened Wrappers
  import opened RepeatingXor

  predicate IsDigit(c: char) {
    '0' <= c <= '9'
  }

  predicate AllDigits(s: string) {
    forall i :: 0 <= i < |s| ==> IsDigit(s[i])
  }

  function Digit(d: nat): (c: char)
    requires d < 10
    ensures IsDigit(c)
  {
    (48 + d) as char
  }

  /** The decimal numeral of `n`, as `Integer#to_s` writes it. */
  function Decimal(n: nat): (s: string)
    ensures |s| > 0 && AllDigits(s)
  {
    if n < 10 then [Digit(n)] else Decimal(n / 10) + [Digit(n % 10)]
  }

  /** The number a digit string denotes. */
  function DigitsValue(s: string): nat
    requires AllDigits(s)
  {
    if |s| == 0 then 0 else DigitsValue(s[..|s| - 1]) * 10 + (s[|s| - 1] as int - 48)
  }

  lemma {:induction false} DecimalRoundTrip(n: nat)
    ensures DigitsValue(Decimal(n)) == n
  {
    if n >= 10 {
      var s := Decimal(n);
      assert s[..|s| - 1] == Decimal(n / 10);
      DecimalRoundTrip(n / 10);
    }
  }

  /** The elements of the array, separated by `", "`. */
  function JoinDecimals(bs: seq<byte>): string {
    if |bs| == 0 then ""
    else if |bs| == 1 then Decimal(bs[0] as nat)
    else Decimal(bs[0] as nat) + ", " + JoinDecimals(bs[1..])
  }

  /** `Array#to_s` of a byte array. */
  function RenderBytes(bs: seq<byte>): (s: string)
    ensures |s| >= 2 && s[0] == '[' && s[|s| - 1] == ']'
  {
    "[" + JoinDecimals(bs) + "]"
  }

  /** Index of the first comma, or the length when there is none. */
  function CommaIndex(s: string): (k: nat)
    ensures k <= |s|
    ensures k < |s| ==> s[k] == ','
    ensures forall i :: 0 <= i < k ==> s[i] != ','
  {
    if |s| == 0 then 0
    else if s[0] == ',' then 0
    else 1 + CommaIndex(s[1..])
  }

  function ParseItem(s: string): Option<byte> {
    if |s| > 0 && AllDigits(s) && DigitsValue(s) < 256 then Some(DigitsValue(s) as bv8) else None
  }

  /** Reads `d, d, ..., d` back into bytes. */
  function ParseItems(s: string): Option<seq<byte>>
    decreases |s|
  {
    if |s| == 0 then Some([])
    else
      var k := CommaIndex(s);
      match ParseItem(s[..k])
      case None => None
      case Some(b) =>
        if k == |s| then Some([b])
        else if k + 1 < |s| && s[k + 1] == ' ' then
          match ParseItems(s[k + 2..])
          case None => None
          case Some(rest) => Some([b] + rest)
        else None
  }

  /** Reads a rendered byte array back. */
  function ParseBytes(s: string): Option<seq<byte>> {
    if |s| >= 2 && s[0] == '[' && s[|s| - 1] == ']' then ParseItems(s[1..|s| - 1]) else None
  }

  /** A lone numeral is a one-element list. */
  lemma ParseSingle(d: string, b: byte)
    requires |d| > 0 && AllDigits(d) && ParseItem(d) == Some(b)
    ensures ParseItems(d) == Some([b])
  {
    assert CommaIndex(d) == |d|;
    assert d[..|d|] == d;
  }

  /** A numeral followed by `", "` and more items. */
  lemma ParseCons(d: string, b: byte, tail: string, rest: seq<byte>)
    requires |d| > 0 && AllDigits(d) && ParseItem(d) == Some(b)
    requires ParseItems(tail) == Some(rest)
    ensures ParseItems(d + ", " + tail) == Some([b] + rest)
  {
    var s := d + ", " + tail;
    assert s[|d|] == ',';
    assert CommaIndex(s) == |d|;
    assert s[..|d|] == d;
    assert s[|d| + 2..] == tail;
  }

  lemma {:induction false} JoinRoundTrip(bs: seq<byte>)
    ensures ParseItems(JoinDecimals(bs)) == Some(bs)
    decreases |bs|
  {
    if |bs| > 0 {
      var d := Decimal(bs[0] as nat);
      DecimalRoundTrip(bs[0] as nat);
      assert ParseItem(d) == Some(bs[0]);
      if |bs| == 1 {
        ParseSingle(d, bs[0]);
        assert [bs[0]] == bs;
      } else {
        JoinRoundTrip(bs[1..]);
        ParseCons(d, bs[0], JoinDecimals(bs[1..]), bs[1..]);
        assert [bs[0]] + bs[1..] == bs;
      }
    }
  }

  /** The emitted literal denotes exactly the bytes it was rendered from. */
  lemma RenderBytesRoundTrip(bs: seq<byte>)
    ensures ParseBytes(RenderBytes(bs)) == Some(bs)
  {
    var s := RenderBytes(bs);
    assert s[1..|s| - 1] == JoinDecimals(bs);
    JoinRoundTrip(bs);
  }
}
