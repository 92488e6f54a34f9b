# keys-generator: the repeating-key XOR scheme, in Dafny

`keys-generator.rb` turns a JSON dictionary of secrets into a Swift file.
Neither the values nor the master key (`--xor_key`) appear there as plain
strings. Each value is stored as a byte array XOR-ed with `caseName + xorKey`.
The master key is stored as a byte array XOR-ed with the enum's type name. A
small Swift `encoding` routine undoes both steps when the program runs.

This project models that scheme and proves it correct:

- `xor.dfy` (`RepeatingXor`): `String#xor_unpacked`, with its wrap-to-zero
  key counter. The modules below use it as their single XOR definition.
- `derivation.dfy` (`KeyDerivation`): the two-tier key derivation. This
  includes how the generated code recovers the master key and rebuilds each
  entry key.
- `generator.dfy` (`Generator`): what the generator computes from the keys,
  the type name and the master key. That is the enum cases, the switch
  branches with their byte literals, and the stored master key, or the
  error Ruby raises.
- `runtime.dfy` (`SwiftRuntime`): what the generated Swift does at run time.
  This covers the `encoding` loop, the `value` getter and the `encodingKey`
  getter. The two facts the scheme relies on are explicit parameters
  (`Context`): `String(describing: type(of: self))` is the generator's type
  name, and `String(describing: self)` is the case name.
- `code_writer.dfy` (`CodeWriter`): the `CodeWriter` class as an immutable
  `(level, out)` record. A small statement tree mirrors the nested
  `intending` blocks.
- `byte_literal.dfy` (`ByteLiteral`): `Array#to_s` for byte arrays
  (`[1, 2, 3]`), with a parser that reads a literal back.
- `emitter.dfy` (`SwiftEmitter`): the text `generate` writes.
- `scenarios.dfy` (`Scenarios`): worked instances.

Bytes are `bv8`. Ruby and Swift strings are modelled as their byte
sequences, which is what `unpack('C*')` gives. The emitted file is a
`string`, and a byte string interpolated into it becomes one character per
byte.

## Model

| member | source | states |
|---|---|---|
| RepeatingXor.NextKeyIndex | keys-generator.rb:15-19 | incrementing the key index and resetting it to 0 at the key length is the successor modulo the key length |
| RepeatingXor.XorFrom | keys-generator.rb:11-22 | from a key index `k`, the `map` with the wrapping counter gives output as long as the data, and byte `i` is `data[i] ^ key[(k + i) mod |key|]` |
| RepeatingXor.XorUnpacked | keys-generator.rb:8-25 | `xor_unpacked` keeps the data length, and byte `i` is `data[i] ^ key[i mod |key|]` |
| RepeatingXor.TryXorUnpacked | keys-generator.rb:10-14 | fails exactly when the key is empty and there is a data byte (`x ^ nil` raises), and otherwise gives the `mod`-indexed XOR |
| RepeatingXor.XorInvolution | keys-generator.rb:13-22 | XOR-ing twice with the same key gives back the data, so one routine both encodes and decodes |
| RepeatingXor.XorFixedPointIff | keys-generator.rb:13-22 | the output equals the input if and only if every key byte used is zero |
| RepeatingXor.XorSevenBit | keys-generator.rb:14 | 7-bit data XOR-ed with a 7-bit key gives 7-bit output |
| KeyDerivation.StoredMasterKey | keys-generator.rb:178 | the stored master key is as long as `xor_key`, and byte `i` is `xor_key[i]` XOR the type-name byte at `i mod |name|` |
| KeyDerivation.Ciphertext | keys-generator.rb:159 | the stored literal is as long as the value, and byte `i` is `value[i]` XOR byte `i mod |key + xor_key|` of the entry key `key + xor_key` |
| KeyDerivation.StoredByte | keys-generator.rb:178 | below the type name's length, a stored master-key byte is the key byte XOR the type-name byte at the same position |
| KeyDerivation.RecoveredByte | keys-generator.rb:179-180 | below the type description's length, recovery succeeds and each recovered byte is the stored byte XOR the description byte at the same position |
| KeyDerivation.RecoverMasterKey | keys-generator.rb:178-180 | the run-time recovery succeeds exactly when the type description is non-empty or there is no stored byte |
| KeyDerivation.RuntimeEntryKey | keys-generator.rb:181 | the rebuilt key starts with the case's own description, followed by as many bytes as were stored |
| KeyDerivation.DecodeValue | keys-generator.rb:165-166 | decoding a byte literal gives a value of the same length |
| KeyDerivation.MasterKeyRecovery | keys-generator.rb:178-180 | XOR-ing the stored master key again with the type name gives back the master key exactly |
| KeyDerivation.WrongTypeNameLosesKey | keys-generator.rb:178-180 | a type description of any length that differs from the generator's type name at a position within the master key, the type name and the description recovers a key other than the master key |
| KeyDerivation.EntryKeyAgreement | keys-generator.rb:178-181 | the run-time `String(describing: self) + key` is byte-identical to the generator's `key + @xor_key` |
| KeyDerivation.EntryRoundTrip | keys-generator.rb:159-181 | decoding the stored ciphertext with the stored master key gives back the original value |
| KeyDerivation.AsciiThroughout | keys-generator.rb:159-180 | with ASCII inputs, every byte sequence that goes through a forced `.ascii` conversion is 7-bit: stored key, ciphertext, entry key, decoded value |
| KeyDerivation.CiphertextHidesValueIff | keys-generator.rb:159 | the stored literal equals the plaintext if and only if every entry-key byte it uses is zero |
| Generator.FirstUnencodable | keys-generator.rb:156-159 | when some entry cannot be XOR-ed, picks the first one; every earlier entry can be |
| Generator.CompileBranches | keys-generator.rb:156-161 | one branch per key, in order, holding `xor_unpacked(value, key + xor_key)`; fails exactly when some entry's XOR raises, and reports the first such entry |
| Generator.Compile | keys-generator.rb:132-185 | succeeds if and only if every entry and the master key can be XOR-ed; an entry error comes before a type-name error; on success, one case and one branch per key in order, and the stored key is `xor_key.xor_unpacked(name)` |
| SwiftRuntime.Encoding | keys-generator.rb:112-126 | the emitted in-place loop with its wrapping `keyIndex` computes exactly `xor_unpacked` |
| SwiftRuntime.SwitchBytes | keys-generator.rb:154-161 | the switch finds no branch if and only if no branch names the case |
| SwiftRuntime.SwitchBytesFirstMatch | keys-generator.rb:154-161 | the switch takes the first branch that names the case |
| SwiftRuntime.Value | keys-generator.rb:150-169 | reading `value` reports "not a case" if and only if no branch names the case |
| SwiftRuntime.GeneratedValueRoundTrip | keys-generator.rb:132-185 | in the generated code, reading `value` on a key's case returns that key's original bytes |
| CodeWriter.Tabs | keys-generator.rb:44 | `"\t" * n` is `n` tab characters |
| CodeWriter.Write | keys-generator.rb:43-46 | `write` keeps the level and appends `level` tabs, then the string, to the unchanged previous output |
| CodeWriter.Writeln | keys-generator.rb:48-51 | `writeln` with no argument appends only `"\n"`, with no indentation; with an argument it writes the indented string, then `"\n"` |
| CodeWriter.Run | keys-generator.rb:53-57 | every call, including `intending { ... }`, leaves the level as it was and only appends to the output |
| CodeWriter.RunAll | keys-generator.rb:43-57 | a sequence of calls leaves the level as it was and only appends |
| CodeWriter.RunText | keys-generator.rb:43-57 | threading the writer through one call, `intending` included, keeps the level and appends exactly that call's text at the current level |
| CodeWriter.RunAllText | keys-generator.rb:43-57 | threading the writer through a block of calls keeps the level and appends exactly the block's text: for a block of `writeln(t)` calls at level `L`, the concatenation of `L` tabs, `t` and a line break per call |
| CodeWriter.RunAllFromInitial | keys-generator.rb:30-57 | a fresh writer that runs a block ends at level 0 holding exactly the block's text |
| CodeWriter.IndentedBlock | keys-generator.rb:53-57 | `intending { body }` at level `L` appends the text of the whole body written at level `L + 1`, and returns to level `L` |
| CodeWriter.BlockTextAppend | keys-generator.rb:43-57 | the text of two consecutive blocks is the text of the first followed by the text of the second |
| CodeWriter.BlockTextWrapped | keys-generator.rb:53-57 | an opening line, an indented body and a closing call write the opening line, the body one level deeper, then the closing call |
| CodeWriter.BlockTextSeparated | keys-generator.rb:93-97 | three blocks separated by bare `writeln` calls write their texts joined by line breaks with no indentation |
| CodeWriter.RunAllAppend | keys-generator.rb:43-57 | running two blocks one after the other is the same as running their concatenation |
| ByteLiteral.RenderBytes | keys-generator.rb:159 | an array literal starts with `[` and ends with `]` |
| ByteLiteral.RenderBytesRoundTrip | keys-generator.rb:159 | reading the emitted literal back gives exactly the bytes it was rendered from |
| SwiftEmitter.Header | keys-generator.rb:103-106 | the header is the comment line (with its own extra line break) and `import Foundation`, at the margin |
| SwiftEmitter.EncodingLoop | keys-generator.rb:118-122 | the loop body is the XOR, the increment and the wrap-to-zero line, three tabs deep |
| SwiftEmitter.EncodingBody | keys-generator.rb:113-125 | the body of `encoding` is its setup lines two tabs deep, the loop body three deep, the closing brace and the `return` two deep |
| SwiftEmitter.EncodingFunction | keys-generator.rb:111-127 | `func encoding` opens and closes one tab deep around its body |
| SwiftEmitter.StringEncoding | keys-generator.rb:108-130 | the `fileprivate extension String` block opens and closes at the margin around the `encoding` function |
| SwiftEmitter.CaseLines | keys-generator.rb:136-138 | one `case k` line per key, in order, each one tab deep |
| SwiftEmitter.SwitchCases | keys-generator.rb:156-161 | twice as many calls as branches: for branch `i` in order, a `case .k:` label at position `2i` and the indented `bytes = [...]` assignment right after it |
| SwiftEmitter.SwitchCasesText | keys-generator.rb:156-161 | the switch cases write, per branch in order, `case .k:` two tabs deep and `bytes = ` with the branch's literal three tabs deep |
| SwiftEmitter.ValueBody | keys-generator.rb:152-167 | the getter body writes the `bytes` declaration, the `switch` with every branch, its closing brace, and the decoding lines, two tabs deep |
| SwiftEmitter.ValueGetter | keys-generator.rb:149-170 | `public var value: String` opens and closes one tab deep around that body |
| SwiftEmitter.KeyBlock | keys-generator.rb:177-182 | the `get` block writes the stored-key literal and the three recovery lines three tabs deep |
| SwiftEmitter.KeyBody | keys-generator.rb:174-184 | `@inline(__always)` and `get {` two tabs deep, the `get` block, then its closing brace |
| SwiftEmitter.EncodingKeyGetter | keys-generator.rb:172-186 | `private var encodingKey: String` opens and closes one tab deep around that body |
| SwiftEmitter.EnumBody | keys-generator.rb:135-144 | the enum's members are the case lines, the value getter and the encoding-key getter, separated by bare line breaks |
| SwiftEmitter.KeysStruct | keys-generator.rb:132-147 | `public enum Name {` at the margin, the members one tab deep, and a closing `}` with no line break |
| SwiftEmitter.Program | keys-generator.rb:93-97 | the file is the header, the `encoding` extension and the enum, separated by bare line breaks |
| SwiftEmitter.Emit | keys-generator.rb:87-98 | on a fresh writer, every indentation block is closed (level 0) and the output is exactly the file text |
| SwiftEmitter.CompiledArtifact | keys-generator.rb:132-185 | when every XOR is defined, the generator's artifact has the key names as cases, one branch per key with `xor_unpacked(value, k + xor_key)`, and the stored master key |
| SwiftEmitter.Generate | keys-generator.rb:87-185 | produces text if and only if every XOR in the generator is defined, and otherwise reports the first error Ruby raises; the text is exactly the file for the compiled artifact, and for every key it holds the key's `case k` line and its `case .k:` branch with the literal of `xor_unpacked(value, k + xor_key)` |
| SwiftEmitter.CaseLinesTextAppend | keys-generator.rb:136-138 | the case lines of two lists of names are the lines of the first list followed by those of the second |
| SwiftEmitter.SwitchTextAppend | keys-generator.rb:156-161 | the switch text of two lists of branches is the text of the first list followed by that of the second |
| SwiftEmitter.CaseLineInFile | keys-generator.rb:132-138 | every case name of an artifact has its `case k` line, one tab deep, somewhere in the file text |
| SwiftEmitter.BranchInFile | keys-generator.rb:149-161 | every branch of an artifact has its label and literal lines somewhere in the file text |
| SwiftEmitter.GeneratedTextListsEveryKey | keys-generator.rb:132-138 | in the file written for the compiled keys, every key has its `case k` line |
| SwiftEmitter.GeneratedTextHasEveryBranch | keys-generator.rb:149-161 | in the file written for the compiled keys, every key has `case .k:` two tabs deep followed by `bytes = ` and the literal of `xor_unpacked(value, k + xor_key)` three tabs deep, and that literal reads back as exactly those bytes |
| SwiftEmitter.GeneratedTextHasEveryKey | keys-generator.rb:132-161 | the file written for the compiled keys holds, for every key, both its `case k` line and its switch branch |
| Scenarios.ApiKeyStoredKey | keys-generator.rb:178 | master key `zz` under type `Secrets` is stored as `[41, 31]` |
| Scenarios.ApiKeyCiphertext | keys-generator.rb:159 | `abc` under case `apiKey` with master key `zz` is stored as `[0, 18, 10]` |
| Scenarios.ApiKeyScenario | keys-generator.rb:132-185 | generating `{apiKey: abc}` with key `zz` and type `Secrets` yields those literals, and reading `apiKey` at run time gives `abc` |
| Scenarios.EmptyMasterKeyAccepted | keys-generator.rb:156-178 | an empty master key is not rejected: the stored key is empty, and each value is XOR-ed with its case name alone |

## Left out

- The command-line class `GenerateKeysCommand` (keys-generator.rb:190-243): option parsing and `help!`. Its `--name` option is declared but never read, and the generator always receives `StaticKey`. The model takes the type name as a parameter.
- Reading and parsing the JSON keys file. The keys are an ordered sequence of (name, value bytes) pairs. A Ruby `Hash` has no duplicate names. The round-trip theorem is stated for the first entry with a given name, so it does not depend on uniqueness.
- `prepare_path` and `File.open`: directory creation, removal of an old file, `touch`, and appending to the file. One consequence is not modelled: when Ruby raises partway through, the text written so far stays in the file. The model returns an error instead.
- Character encodings. Strings are their bytes. Multi-byte UTF-8 names and values are not modelled beyond that.
- SwiftRuntime.Value: the Swift `.ascii` conversions (`data(using: .ascii)!`, `String(bytes:encoding:)!`) are not modelled as possible failures. `KeyDerivation.AsciiThroughout` shows that with 7-bit inputs every sequence they see is 7-bit. The only traps modelled are XOR with an empty key.
- Validation the code does not perform: empty or duplicate names, identifier validity, an empty master key, an empty key set. The code checks only that the options are not `nil` (keys-generator.rb:231).
- Whether the emitted Swift compiles.
- `CodeWriter.unintend` below level zero: the generator only calls it through balanced `intending` blocks, so the level never goes negative. `Write` and `Writeln` require a non-negative level, as `"\t" * -1` raises.

The code rejects neither an empty master key, nor duplicate entry names, nor
an empty key set: keys-generator.rb:231 checks only for `nil`
(`Scenarios.EmptyMasterKeyAccepted`). An empty master key is harmless: the
stored key is empty and each value is XOR-ed with its case name alone. The
code does fail, by raising, when a type name is empty and the master key is
not, and when a case name and the master key are both empty and the value is
not.
