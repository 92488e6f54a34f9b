/** Worked instances of the generator and the generated code. */
module Scenarios {
  import opened Wrappers
  import opened RepeatingXor
  import opened KeyDerivation
  import opened Generator
  import opened SwiftRuntime

  const ApiKey: seq<byte> := [0x61, 0x70, 0x69, 0x4B, 0x65, 0x79]   // "apiKey"
  const Abc: seq<byte> := [0x61, 0x62, 0x63]                          // "abc"
  const Zz: seq<byte> := [0x7A, 0x7A]                                 // "zz"
  const Secrets: seq<byte> := [0x53, 0x65, 0x63, 0x72, 0x65, 0x74, 0x73] // "Secrets"

  /** Master key `zz` under type `Secrets` is stored as `[41, 31]`. */
  lemma ApiKeyStoredKey()
    ensures StoredMasterKey(Zz, Secrets) == [0x29, 0x1F]
  {
    var stored := StoredMasterKey(Zz, Secrets);
    assert stored[0] == Zz[0] ^ Secrets[0];
    assert 1 % |Secrets| == 1;
    assert stored[1] == Zz[1] ^ Secrets[1];
  }

  /** Value `abc` under case `apiKey` and master key `zz` is stored as `[0, 18, 10]`. */
  lemma ApiKeyCiphertext()
    ensures Ciphertext(Abc, ApiKey, Zz) == [0x00, 0x12, 0x0A]
  {
    var c := Ciphertext(Abc, ApiKey, Zz);
    var k := EntryKey(ApiKey, Zz);
    assert |k| == 8;
    assert 1 % 8 == 1 && 2 % 8 == 2;
    assert c[0] == Abc[0] ^ k[0];
    assert c[1] == Abc[1] ^ k[1];
    assert c[2] == Abc[2] ^ k[2];
  }

  /** One key `apiKey` = `abc`, master key `zz`, type `Secrets`: the stored
      literals are `[41, 31]` and `[0, 18, 10]`, and reading the case at run
      time gives back `abc`. */
  lemma ApiKeyScenario()
    ensures Compile([Entry(ApiKey, Abc)], Secrets, Zz)
            == Success(Artifact(Secrets, [ApiKey], [Branch(ApiKey, [0x00, 0x12, 0x0A])], [0x29, 0x1F]))
    ensures Value(Compile([Entry(ApiKey, Abc)], Secrets, Zz).value, ApiKey, Context(Secrets, ApiKey)) == Success(Abc)
  {
    var keys := [Entry(ApiKey, Abc)];
    ApiKeyStoredKey();
    ApiKeyCiphertext();
    var r := Compile(keys, Secrets, Zz);
    assert r.Success?;
    assert r.value.cases == [ApiKey];
    assert r.value.branches == [Branch(ApiKey, [0x00, 0x12, 0x0A])];
    GeneratedValueRoundTrip(keys, Secrets, Zz, 0, Context(Secrets, ApiKey));
  }

  /** The generator does not reject an empty master key: the stored key is
      empty and each value is XOR-ed with its case name alone. */
  lemma EmptyMasterKeyAccepted(keys: seq<Entry>, typeName: seq<byte>)
    requires forall i :: 0 <= i < |keys| ==> |keys[i].name| > 0
    ensures Compile(keys, typeName, []).Success?
    ensures Compile(keys, typeName, []).value.storedKey == []
    ensures forall i :: 0 <= i < |keys| ==>
              Compile(keys, typeName, []).value.branches[i].bytes == XorUnpacked(keys[i].value, keys[i].name)
  {
    assert forall i :: 0 <= i < |keys| ==> EntryKey(keys[i].name, []) == keys[i].name;
  }
}
