/** The two-tier key derivation: how the generator stores the master key and
    each entry value (keys-generator.rb:159, 178), and how the emitted Swift
    code reconstructs them at run time (keys-generator.rb:165-166, 178-181). */
module KeyDerivation {
  import opened Wrappers
  import opened RepeatingXor

  /** The per-entry key `key + @xor_key`, rebuilt at run time as
      `String(describing: self) + key`. */
  function EntryKey(caseName: seq<byte>, masterKey: seq<byte>): seq<byte> {
    caseName + masterKey
  }

  /** The generator can XOR an entry value: the entry key has a byte to offer,
      or there is no value byte to XOR. */
  predicate Encodable(value: seq<byte>, caseName: seq<byte>, xorKey: seq<byte>) {
    |EntryKey(caseName, xorKey)| > 0 || |value| == 0
  }

  /** The generator can XOR the master key against the type name. */
  predicate MasterKeyStorable(xorKey: seq<byte>, typeName: seq<byte>) {
    |typeName| > 0 || |xorKey| == 0
  }

  /** The master key as stored in the artifact: `@xor_key.xor_unpacked(@name)`. */
  function StoredMasterKey(xorKey: seq<byte>, typeName: seq<byte>): (r: seq<byte>)
    requires MasterKeyStorable(xorKey, typeName)
    ensures |r| == |xorKey|
    ensures forall i :: 0 <= i < |xorKey| ==> r[i] == xorKey[i] ^ typeName[i % |typeName|]
  {
    XorUnpacked(xorKey, typeName)
  }

  /** The byte literal stored for one entry: `value.xor_unpacked(key + @xor_key)`.
      Each value byte meets the entry-key byte at its position, cycling. */
  function Ciphertext(value: seq<byte>, caseName: seq<byte>, xorKey: seq<byte>): (r: seq<byte>)
    requires Encodable(value, caseName, xorKey)
    ensures |r| == |value|
    ensures forall i :: 0 <= i < |value| ==>
      r[i] == value[i] ^ EntryKey(caseName, xorKey)[i % (|caseName| + |xorKey|)]
  {
    XorUnpacked(value, EntryKey(caseName, xorKey))
  }

  /** What the running program knows about itself: the text of
      `String(describing: type(of: self))` and of `String(describing: self)`. */
  datatype Context = Context(typeDescription: seq<byte>, selfDescription: seq<byte>)

  /** The master key recovered in the `encodingKey` getter: the stored bytes
      run through `encoding(type)`; Swift traps on an empty type name when
      there are bytes to decode. */
  function RecoverMasterKey(stored: seq<byte>, ctx: Context): (r: Result<seq<byte>, XorError>)
    ensures r.Success? <==> |ctx.typeDescription| > 0 || |stored| == 0
  {
    TryXorUnpacked(stored, ctx.typeDescription)
  }

  /** The `encodingKey` getter: the case's own description followed by the
      recovered master key. */
  function RuntimeEntryKey(stored: seq<byte>, ctx: Context): (r: Result<seq<byte>, XorError>)
    ensures r.Success? ==> ctx.selfDescription <= r.value
    ensures r.Success? ==> |r.value| == |ctx.selfDescription| + |stored|
  {
    var masterKey :- RecoverMasterKey(stored, ctx);
    Success(EntryKey(ctx.selfDescription, masterKey))
  }

  /** The `value` getter once the switch has picked the byte literal:
      `encodedString.encoding(encodingKey)`. */
  function DecodeValue(bytes: seq<byte>, stored: seq<byte>, ctx: Context): (r: Result<seq<byte>, XorError>)
    ensures r.Success? ==> |r.value| == |bytes|
  {
    var key :- RuntimeEntryKey(stored, ctx);
    TryXorUnpacked(bytes, key)
  }

  /** Master-key recovery: XOR-ing the stored bytes with the type name again
      gives back the master key, provided the program describes its own type
      by the name the generator used. */
  lemma MasterKeyRecovery(xorKey: seq<byte>, typeName: seq<byte>, ctx: Context)
    requires MasterKeyStorable(xorKey, typeName)
    requires ctx.typeDescription == typeName
    ensures RecoverMasterKey(StoredMasterKey(xorKey, typeName), ctx) == Success(xorKey)
  {
    XorInvolution(xorKey, typeName);
  }

  /** If the type describes itself differently at a position the master key
      reaches, recovery yields a different key. */
  lemma WrongTypeNameLosesKey(xorKey: seq<byte>, typeName: seq<byte>, ctx: Context, j: nat)
    requires j < |xorKey| && j < |typeName| && j < |ctx.typeDescription|
    requires ctx.typeDescription[j] != typeName[j]
    ensures RecoverMasterKey(StoredMasterKey(xorKey, typeName), ctx) != Success(xorKey)
  {
    var stored := StoredMasterKey(xorKey, typeName);
    StoredByte(xorKey, typeName, j);
    RecoveredByte(stored, ctx, j);
    XorCancels(xorKey[j], typeName[j], ctx.typeDescription[j]);
  }

  /** Below the type name's length, the stored master key byte is the key
      byte XOR the type-name byte at the same position. */
  lemma StoredByte(xorKey: seq<byte>, typeName: seq<byte>, j: nat)
    requires j < |xorKey| && j < |typeName|
    ensures StoredMasterKey(xorKey, typeName)[j] == xorKey[j] ^ typeName[j]
  {
    ModUnique(j, |typeName|, 0, j);
  }

  /** Below the type description's length, recovery XORs each stored byte
      with the description byte at the same position. */
  lemma RecoveredByte(stored: seq<byte>, ctx: Context, j: nat)
    requires j < |stored| && j < |ctx.typeDescription|
    ensures RecoverMasterKey(stored, ctx).Success?
    ensures RecoverMasterKey(stored, ctx).value[j] == stored[j] ^ ctx.typeDescription[j]
  {
    ModUnique(j, |ctx.typeDescription|, 0, j);
  }

  lemma XorCancels(x: byte, t: byte, d: byte)
    requires t != d
    ensures (x ^ t) ^ d != x
  {
  }

  /** The entry key the program rebuilds at run time is byte-identical to the
      one the generator used. */
  lemma EntryKeyAgreement(xorKey: seq<byte>, typeName: seq<byte>, caseName: seq<byte>, ctx: Context)
    requires MasterKeyStorable(xorKey, typeName)
    requires ctx == Context(typeName, caseName)
    ensures RuntimeEntryKey(StoredMasterKey(xorKey, typeName), ctx) == Success(EntryKey(caseName, xorKey))
  {
    MasterKeyRecovery(xorKey, typeName, ctx);
  }

  /** Entry round trip: decoding the stored ciphertext with the stored master
      key reproduces the original value byte for byte. */
  lemma EntryRoundTrip(value: seq<byte>, caseName: seq<byte>, xorKey: seq<byte>, typeName: seq<byte>, ctx: Context)
    requires Encodable(value, caseName, xorKey) && MasterKeyStorable(xorKey, typeName)
    requires ctx == Context(typeName, caseName)
    ensures DecodeValue(Ciphertext(value, caseName, xorKey), StoredMasterKey(xorKey, typeName), ctx) == Success(value)
  {
    EntryKeyAgreement(xorKey, typeName, caseName, ctx);
    XorInvolution(value, EntryKey(caseName, xorKey));
  }

  /** With ASCII names, master key and value, every byte sequence the emitted
      code passes through a forced `.ascii` conversion is 7-bit: the stored
      master key, the ciphertext, the rebuilt entry key and the decoded value. */
  lemma AsciiThroughout(value: seq<byte>, caseName: seq<byte>, xorKey: seq<byte>, typeName: seq<byte>)
    requires Encodable(value, caseName, xorKey) && MasterKeyStorable(xorKey, typeName)
    requires IsAscii(value) && IsAscii(caseName) && IsAscii(xorKey) && IsAscii(typeName)
    ensures IsAscii(StoredMasterKey(xorKey, typeName))
    ensures IsAscii(Ciphertext(value, caseName, xorKey))
    ensures IsAscii(EntryKey(caseName, xorKey))
    ensures IsAscii(XorUnpacked(Ciphertext(value, caseName, xorKey), EntryKey(caseName, xorKey)))
  {
    XorSevenBit(xorKey, typeName);
    var k := EntryKey(caseName, xorKey);
    assert IsAscii(k) by {
      forall i | 0 <= i < |k|
        ensures k[i] < 128
      {
        if i < |caseName| { assert k[i] == caseName[i]; } else { assert k[i] == xorKey[i - |caseName|]; }
      }
    }
    XorSevenBit(value, k);
    XorSevenBit(Ciphertext(value, caseName, xorKey), k);
  }

  /** The stored ciphertext equals the plaintext exactly when every entry-key
      byte it meets is zero. */
  lemma CiphertextHidesValueIff(value: seq<byte>, caseName: seq<byte>, xorKey: seq<byte>)
    requires Encodable(value, caseName, xorKey)
    ensures var k := EntryKey(caseName, xorKey);
            Ciphertext(value, caseName, xorKey) == value
            <==> forall i :: 0 <= i < |value| ==> k[i % |k|] == 0
  {
    XorFixedPointIff(value, EntryKey(caseName, xorKey));
  }
}
