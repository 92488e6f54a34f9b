/** The repeating-key XOR primitive `String#xor_unpacked` (keys-generator.rb),
    which is also the algorithm of the `encoding` routine the generator emits
    into the Swift artifact. */
module RepeatingXor {
  import opened Wrappers

  /** One element of `unpack('C*')`. */
  type byte = bv8

  /** The error Ruby raises when the key has no byte to offer: `keyBytes[0]`
      is `nil` and `x ^ nil` fails. */
  datatype XorError = NilKeyByte

  /** The key counter of `xor_unpacked`: incremented after each data byte and
      reset to 0 when it reaches the key length. It is the successor modulo
      the key length. */
  function NextKeyIndex(k: nat, n: nat): (j: nat)
    requires k < n
    ensures j < n
    ensures j == (k + 1) % n
  {
    if k + 1 == n then
      ModUnique(n, n, 1, 0);
      0
    else
      ModUnique(k + 1, n, 0, k + 1);
      k + 1
  }

  lemma MulAtLeast(d: int, n: nat)
    requires d >= 1
    ensures d * n >= n
  {
  }

  /** Euclidean division has a unique remainder. */
  lemma ModUnique(x: int, n: nat, q: int, r: int)
    requires n > 0 && 0 <= r < n && x == q * n + r
    ensures x % n == r
  {
    var q2, r2 := x / n, x % n;
    assert x == q2 * n + r2;
    var d := q - q2;
    assert d * n == q * n - q2 * n;
    assert d * n == r2 - r;
    if d >= 1 {
      MulAtLeast(d, n);
    } else if d <= -1 {
      MulAtLeast(-d, n);
    }
  }

  lemma ModAddN(m: nat, n: nat)
    requires n > 0
    ensures (m + n) % n == m % n
  {
    var q, r := m / n, m % n;
    assert m == q * n + r;
    assert m + n == (q + 1) * n + r;
    ModUnique(m + n, n, q + 1, r);
  }

  /** `xor_unpacked` from the point where the key counter stands at `k`:
      the `map` over the data bytes with the wrap-to-zero counter. */
  function XorFrom(data: seq<byte>, key: seq<byte>, k: nat): (r: seq<byte>)
    requires k < |key| || |data| == 0
    ensures |r| == |data|
    ensures forall i :: 0 <= i < |data| ==> r[i] == data[i] ^ key[(k + i) % |key|]
    decreases |data|
  {
    if |data| == 0 then []
    else
      var rest := XorFrom(data[1..], key, NextKeyIndex(k, |key|));
      assert forall i :: 1 <= i < |data| ==> rest[i - 1] == data[i] ^ key[(k + i) % |key|] by {
        forall i | 1 <= i < |data|
          ensures rest[i - 1] == data[i] ^ key[(k + i) % |key|]
        {
          ShiftMod(k, i - 1, |key|);
        }
      }
      ModUnique(k, |key|, 0, k);
      [data[0] ^ key[k]] + rest
  }

  /** `(k + 1) mod n + m` and `k + 1 + m` select the same key byte. */
  lemma ShiftMod(k: nat, m: nat, n: nat)
    requires k < n
    ensures (NextKeyIndex(k, n) + m) % n == (k + 1 + m) % n
  {
    if k + 1 == n {
      ModAddN(m, n);
    }
  }

  /** `String#xor_unpacked`: the counter starts at 0. Defined only when
      the key is non-empty or there is nothing to XOR. */
  function XorUnpacked(data: seq<byte>, key: seq<byte>): (r: seq<byte>)
    requires |key| > 0 || |data| == 0
    ensures |r| == |data|
    ensures forall i :: 0 <= i < |data| ==> r[i] == data[i] ^ key[i % |key|]
  {
    XorFrom(data, key, 0)
  }

  /** `xor_unpacked` with its error path: an empty key meets its first data
      byte as `nil` and Ruby raises. */
  function TryXorUnpacked(data: seq<byte>, key: seq<byte>): (r: Result<seq<byte>, XorError>)
    ensures r.Failure? <==> |key| == 0 && |data| > 0
    ensures r.Success? ==> |r.value| == |data|
    ensures r.Success? ==> forall i :: 0 <= i < |data| ==> r.value[i] == data[i] ^ key[i % |key|]
  {
    if |key| == 0 && |data| > 0 then Failure(NilKeyByte) else Success(XorUnpacked(data, key))
  }

  /** XOR-ing twice with the same key restores the data: the generated code
      decodes with the very routine the generator encodes with. */
  lemma XorInvolution(data: seq<byte>, key: seq<byte>)
    requires |key| > 0 || |data| == 0
    ensures XorUnpacked(XorUnpacked(data, key), key) == data
  {
    var once := XorUnpacked(data, key);
    var twice := XorUnpacked(once, key);
    forall i | 0 <= i < |data|
      ensures twice[i] == data[i]
    {
      assert twice[i] == (data[i] ^ key[i % |key|]) ^ key[i % |key|];
    }
  }

  /** The transform leaves the data unchanged exactly when every key byte it
      uses is zero; any non-zero key byte hides the corresponding data byte. */
  lemma XorFixedPointIff(data: seq<byte>, key: seq<byte>)
    requires |key| > 0 || |data| == 0
    ensures XorUnpacked(data, key) == data
            <==> forall i :: 0 <= i < |data| ==> key[i % |key|] == 0
  {
    var r := XorUnpacked(data, key);
    if r == data {
      forall i | 0 <= i < |data|
        ensures key[i % |key|] == 0
      {
        assert data[i] ^ key[i % |key|] == data[i];
      }
    }
  }

  /** Every byte is below 128. */
  predicate IsAscii(s: seq<byte>) {
    forall i :: 0 <= i < |s| ==> s[i] < 128
  }

  /** 7-bit closure: XOR of 7-bit data with a 7-bit key is 7-bit. This is why
      the forced `.ascii` conversions of the generated code never meet a byte
      outside ASCII when every input is ASCII. */
  lemma XorSevenBit(data: seq<byte>, key: seq<byte>)
    requires |key| > 0 || |data| == 0
    requires IsAscii(data) && IsAscii(key)
    ensures IsAscii(XorUnpacked(data, key))
  {
    var r := XorUnpacked(data, key);
    forall i | 0 <= i < |r|
      ensures r[i] < 128
    {
      var a, b := data[i], key[i % |key|];
      assert a < 128 && b < 128;
    }
  }
}
