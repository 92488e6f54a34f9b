/** The run-time behaviour of the generated Swift code: the `encoding`
    extension (keys-generator.rb:112-126), the `value` getter
    (keys-generator.rb:150-169) and the `encodingKey` getter
    (keys-generator.rb:173-185), stated over the generated `Artifact`. */
module SwiftRuntime {
  import opened Wrappers
  import opened RepeatingXor
  import opened KeyDerivation
  import opened Generator

  /** Why reading `value` can fail: the requested case is not one of the
      enum's cases, or a forced operation traps. */
  datatype RuntimeError = NotACase | Trap

  /** The emitted `encoding` loop: XOR in place with a key index that wraps to
      zero at the key length. It computes `xor_unpacked`, so the generator and
      the generated code use one algorithm. */
  method Encoding(value: seq<byte>, key: seq<byte>) returns (r: seq<byte>)
    requires |key| > 0 || |value| == 0
    ensures r == XorUnpacked(value, key)
  {
    var valueData := value;
    var keyIndex := 0;
    var i := 0;
    while i < |valueData|
      invariant 0 <= i <= |valueData| == |value|
      invariant |key| > 0 ==> keyIndex == i % |key|
      invariant forall j :: 0 <= j < i ==> valueData[j] == value[j] ^ key[j % |key|]
      invariant forall j :: i <= j < |value| ==> valueData[j] == value[j]
    {
      ModUnique(i, |key|, i / |key|, keyIndex);
      valueData := valueData[i := valueData[i] ^ key[keyIndex]];
      keyIndex := keyIndex + 1;
      if keyIndex == |key| {
        keyIndex := 0;
      }
      ModSucc(i, |key|);
      i := i + 1;
    }
    r := valueData;
  }

  /** The wrapped counter after `i + 1` steps is the successor of the one
      after `i` steps. */
  lemma ModSucc(i: nat, n: nat)
    requires n > 0
    ensures (i + 1) % n == if i % n + 1 == n then 0 else i % n + 1
  {
    var q, r := i / n, i % n;
    assert i == q * n + r;
    if r + 1 == n {
      ModUnique(i + 1, n, q + 1, 0);
    } else {
      ModUnique(i + 1, n, q, r + 1);
    }
  }

  /** The `switch self` of the `value` getter: the byte literal of the first
      branch for the case. */
  function SwitchBytes(branches: seq<Branch>, self: seq<byte>): (r: Option<seq<byte>>)
    ensures r.None? <==> forall i :: 0 <= i < |branches| ==> branches[i].caseName != self
  {
    if |branches| == 0 then None
    else if branches[0].caseName == self then Some(branches[0].bytes)
    else
      var r := SwitchBytes(branches[1..], self);
      assert r.None? <==> forall i :: 1 <= i < |branches| ==> branches[i].caseName != self by {
        assert forall i :: 1 <= i < |branches| ==> branches[i] == branches[1..][i - 1];
      }
      r
  }

  /** The branch the switch takes is the first one naming the case. */
  lemma {:induction false} SwitchBytesFirstMatch(branches: seq<Branch>, self: seq<byte>, i: nat)
    requires i < |branches| && branches[i].caseName == self
    requires forall j :: 0 <= j < i ==> branches[j].caseName != self
    ensures SwitchBytes(branches, self) == Some(branches[i].bytes)
  {
    if i > 0 {
      SwitchBytesFirstMatch(branches[1..], self, i - 1);
    }
  }

  /** Reading `value` on case `self` of the generated enum: pick the byte
      literal, rebuild the entry key through `encodingKey`, decode. */
  function Value(a: Artifact, self: seq<byte>, ctx: Context): (r: Result<seq<byte>, RuntimeError>)
    ensures r == Failure(NotACase) <==> forall i :: 0 <= i < |a.branches| ==> a.branches[i].caseName != self
  {
    match SwitchBytes(a.branches, self)
    case None => Failure(NotACase)
    case Some(bytes) =>
      match DecodeValue(bytes, a.storedKey, ctx)
      case Failure(_) => Failure(Trap)
      case Success(v) => Success(v)
  }

  /** The central theorem: in the code generated for `keys`, reading `value`
      on any entry's case returns that entry's original bytes, given that the
      program describes its type by the generator's type name and the case by
      its key. An entry shadowed by an earlier one of the same name is reached
      through the earlier branch, so the statement is about first occurrences. */
  lemma GeneratedValueRoundTrip(keys: seq<Entry>, typeName: seq<byte>, xorKey: seq<byte>, i: nat, ctx: Context)
    requires Compile(keys, typeName, xorKey).Success?
    requires i < |keys|
    requires forall j :: 0 <= j < i ==> keys[j].name != keys[i].name
    requires ctx == Context(typeName, keys[i].name)
    ensures Value(Compile(keys, typeName, xorKey).value, keys[i].name, ctx) == Success(keys[i].value)
  {
    var a := Compile(keys, typeName, xorKey).value;
    SwitchBytesFirstMatch(a.branches, keys[i].name, i);
    EntryRoundTrip(keys[i].value, keys[i].name, xorKey, typeName, ctx);
  }
}
