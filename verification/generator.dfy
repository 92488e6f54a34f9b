/** What `SwiftCodeGenerator#generate` computes before it lays anything out
    as text: the enum cases, the per-case byte literals of the `value` getter
    and the stored master key of the `encodingKey` getter
    (keys-generator.rb:132-186). */
module Generator {
  import opened Wrappers
  import opened RepeatingXor
  import opened KeyDerivation

  /** One pair of the parsed keys document: the case name and the value bytes. */
  datatype Entry = Entry(name: seq<byte>, value: seq<byte>)

  /** One `case .name:` branch of the `value` getter with its byte literal. */
  datatype Branch = Branch(caseName: seq<byte>, bytes: seq<byte>)

  /** The content of the generated enum. */
  datatype Artifact = Artifact(
    typeName: seq<byte>,
    cases: seq<seq<byte>>,
    branches: seq<Branch>,
    storedKey: seq<byte>)

  /** Which `xor_unpacked` call raised: `x ^ nil` raises in both places, as
      an Integer cannot be XOR-ed with `nil`. */
  datatype GenError = EntryKeyEmpty(name: seq<byte>) | TypeNameEmpty

  predicate AllEncodable(keys: seq<Entry>, xorKey: seq<byte>) {
    forall i :: 0 <= i < |keys| ==> Encodable(keys[i].value, keys[i].name, xorKey)
  }

  /** Position of the first entry whose XOR raises. */
  function FirstUnencodable(keys: seq<Entry>, xorKey: seq<byte>): (i: nat)
    requires !AllEncodable(keys, xorKey)
    ensures i < |keys| && !Encodable(keys[i].value, keys[i].name, xorKey)
    ensures AllEncodable(keys[..i], xorKey)
  {
    if !Encodable(keys[0].value, keys[0].name, xorKey) then 0
    else
      assert !AllEncodable(keys[1..], xorKey) by {
        var j :| 0 <= j < |keys| && !Encodable(keys[j].value, keys[j].name, xorKey);
        assert keys[1..][j - 1] == keys[j];
      }
      var j := FirstUnencodable(keys[1..], xorKey);
      assert keys[..j + 1] == [keys[0]] + keys[1..][..j];
      j + 1
  }

  /** The `keys.each` loop of `generate_value_getter`: one branch per entry in
      iteration order, stopping at the first entry whose XOR raises. */
  function CompileBranches(keys: seq<Entry>, xorKey: seq<byte>): (r: Result<seq<Branch>, GenError>)
    ensures r.Success? <==> AllEncodable(keys, xorKey)
    ensures r.Success? ==> |r.value| == |keys|
    ensures r.Success? ==> forall i :: 0 <= i < |keys| ==>
              && Encodable(keys[i].value, keys[i].name, xorKey)
              && r.value[i] == Branch(keys[i].name, Ciphertext(keys[i].value, keys[i].name, xorKey))
    ensures r.Failure? ==> r.error == EntryKeyEmpty(keys[FirstUnencodable(keys, xorKey)].name)
  {
    if |keys| == 0 then Success([])
    else if !Encodable(keys[0].value, keys[0].name, xorKey) then Failure(EntryKeyEmpty(keys[0].name))
    else
      var r := CompileBranches(keys[1..], xorKey);
      if r.Failure? then
        assert !AllEncodable(keys, xorKey) by {
          var j :| 0 <= j < |keys[1..]| && !Encodable(keys[1..][j].value, keys[1..][j].name, xorKey);
        }
        assert FirstUnencodable(keys, xorKey) == FirstUnencodable(keys[1..], xorKey) + 1;
        Failure(r.error)
      else
        assert AllEncodable(keys, xorKey) by {
          forall i | 0 <= i < |keys|
            ensures Encodable(keys[i].value, keys[i].name, xorKey)
          {
            if i > 0 { assert keys[i] == keys[1..][i - 1]; }
          }
        }
        Success([Branch(keys[0].name, Ciphertext(keys[0].value, keys[0].name, xorKey))] + r.value)
  }

  /** The names written by the `case #{key}` loop of `generate_keys_struct`. */
  function CaseNames(keys: seq<Entry>): seq<seq<byte>> {
    seq(|keys|, i requires 0 <= i < |keys| => keys[i].name)
  }

  /** The generator run on the parsed keys, the type name and the master key.
      Entries are XOR-ed first (the value getter is emitted before the
      encoding-key getter), so an entry error wins over a type-name error. */
  function Compile(keys: seq<Entry>, typeName: seq<byte>, xorKey: seq<byte>): (r: Result<Artifact, GenError>)
    ensures r.Success? <==> AllEncodable(keys, xorKey) && MasterKeyStorable(xorKey, typeName)
    ensures r.Failure? && AllEncodable(keys, xorKey) ==> r.error == TypeNameEmpty
    ensures !AllEncodable(keys, xorKey) ==> r == Failure(EntryKeyEmpty(keys[FirstUnencodable(keys, xorKey)].name))
    ensures r.Success? ==>
              && r.value.typeName == typeName
              && r.value.storedKey == StoredMasterKey(xorKey, typeName)
              && |r.value.cases| == |r.value.branches| == |keys|
              && forall i :: 0 <= i < |keys| ==>
                   && r.value.cases[i] == keys[i].name
                   && r.value.branches[i] == Branch(keys[i].name, Ciphertext(keys[i].value, keys[i].name, xorKey))
  {
    var branches :- CompileBranches(keys, xorKey);
    if !MasterKeyStorable(xorKey, typeName) then Failure(TypeNameEmpty)
    else Success(Artifact(typeName, CaseNames(keys), branches, StoredMasterKey(xorKey, typeName)))
  }
}
