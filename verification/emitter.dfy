/** `SwiftCodeGenerator#generate` as text (keys-generator.rb:87-186): the
    header, the `encoding` extension and the enum, laid out through the
    `CodeWriter` model. Each template is a statement tree; its contract gives
    the text it writes as a flat sequence of lines with explicit depths. */
module SwiftEmitter {
  import opened Wrappers
  import opened RepeatingXor
  import opened KeyDerivation
  import opened Generator
  import opened CodeWriter
  import opened ByteLiteral

  /** A byte string interpolated into the output: each byte becomes the
      character with that code. */
  function Text(b: seq<byte>): (t: string)
    ensures |t| == |b|
  {
    seq(|b|, i requires 0 <= i < |b| => (b[i] as int) as char)
  }

  /** `t` occurs in `s` as a contiguous piece of text: it is a prefix of `s`
      or occurs in what follows the first character. */
  predicate Occurs(t: string, s: string)
    decreases |s|
  {
    t <= s || (|s| > 0 && Occurs(t, s[1..]))
  }

  lemma {:induction false} OccursBetween(p: string, t: string, q: string)
    ensures Occurs(t, p + t + q)
    decreases |p|
  {
    if |p| == 0 {
      assert p + t + q == t + q;
    } else {
      OccursBetween(p[1..], t, q);
      assert (p + t + q)[1..] == p[1..] + t + q;
    }
  }

  lemma {:induction false} OccursAfter(t: string, s: string, p: string)
    requires Occurs(t, s)
    ensures Occurs(t, p + s)
    decreases |p|
  {
    if |p| == 0 {
      assert p + s == s;
    } else {
      OccursAfter(t, s, p[1..]);
      assert (p + s)[1..] == p[1..] + s;
    }
  }

  lemma {:induction false} OccursBefore(t: string, s: string, q: string)
    requires Occurs(t, s)
    ensures Occurs(t, s + q)
    decreases |s|
  {
    if t <= s {
      assert (s + q)[..|t|] == s[..|t|];
    } else {
      OccursBefore(t, s[1..], q);
      assert (s + q)[1..] == s[1..] + q;
    }
  }

  /** Occurrence in a piece is occurrence in any text around it. */
  /** A sequence is its prefix, one element, and the rest. */
  lemma SplitAt<T>(s: seq<T>, i: nat)
    requires i < |s|
    ensures s == s[..i] + [s[i]] + s[i + 1..]
  {
  }

  lemma OccursExtend(t: string, s: string, p: string, q: string)
    requires Occurs(t, s)
    ensures Occurs(t, p + s) && Occurs(t, s + q)
  {
    OccursAfter(t, s, p);
    OccursBefore(t, s, q);
  }

  /** The level of the enum's members. */
  const MemberLevel: nat := 1

  // ---- The file as flat text -------------------------------------------
  // Each template's text, one `LineAt(depth, text)` per `writeln`; nested
  // blocks are named so that their depths can be read off directly.

  const HeaderText: string :=
    LineAt(0, "// Generated automatically. Do not modify.\n")
    + LineAt(0, "import Foundation")

  const EncodingLoopText: string :=
    LineAt(3, "valueData[i] = valueData[i] ^ keyData[keyIndex]")
    + LineAt(3, "keyIndex += 1")
    + LineAt(3, "if keyIndex == keyData.count { keyIndex = 0 }")

  const EncodingBodyText: string :=
    LineAt(2, "var valueData = data(using: .ascii)!")
    + LineAt(2, "var keyData = key.data(using: .ascii)!")
    + LineAt(2, "var keyIndex = 0")
    + LineAt(2, "for i in 0..<valueData.count {")
    + EncodingLoopText
    + LineAt(2, "}")
    + LineAt(2, "return String(data: valueData, encoding: .ascii)!")

  const EncodingFunctionText: string :=
    LineAt(1, "func encoding(_ key: String) -> String {")
    + EncodingBodyText
    + LineAt(1, "}")

  const StringEncodingText: string :=
    LineAt(0, "fileprivate extension String {")
    + EncodingFunctionText
    + LineAt(0, "}")

  /** The `case k` line of one case name, one tab deep. */
  function CaseLineText(name: seq<byte>): string {
    LineAt(1, "case " + Text(name))
  }

  /** One `case k` line per case name. */
  function CaseLinesText(cases: seq<seq<byte>>): string {
    if |cases| == 0 then ""
    else CaseLineText(cases[0]) + CaseLinesText(cases[1..])
  }

  /** One switch branch: the label two tabs deep, the literal three. */
  function BranchText(b: Branch): string {
    LineAt(2, "case ." + Text(b.caseName) + ":") + LineAt(3, "bytes = " + RenderBytes(b.bytes))
  }

  function SwitchText(branches: seq<Branch>): string {
    if |branches| == 0 then ""
    else BranchText(branches[0]) + SwitchText(branches[1..])
  }

  function ValueBodyText(switchText: string): string {
    LineAt(2, "let bytes: [UInt8]\n")
    + LineAt(2, "switch self {")
    + switchText
    + LineAt(2, "}\n")
    + LineAt(2, "let encodedString = String(bytes: bytes, encoding: .ascii)!")
    + LineAt(2, "return encodedString.encoding(encodingKey)")
  }

  function ValueGetterText(switchText: string): string {
    LineAt(1, "public var value: String {")
    + ValueBodyText(switchText)
    + LineAt(1, "}")
  }

  function KeyBlockText(storedKey: seq<byte>): string {
    LineAt(3, "let bytes: [UInt8] = " + RenderBytes(storedKey))
    + LineAt(3, "let type = String(describing: type(of: self))")
    + LineAt(3, "let key = String(bytes: bytes, encoding: .ascii)!.encoding(type)")
    + LineAt(3, "return String(describing: self) + key")
  }

  function KeyBodyText(storedKey: seq<byte>): string {
    LineAt(2, "@inline(__always)")
    + LineAt(2, "get {")
    + KeyBlockText(storedKey)
    + LineAt(2, "}")
  }

  function EncodingKeyText(storedKey: seq<byte>): string {
    LineAt(1, "private var encodingKey: String {")
    + KeyBodyText(storedKey)
    + LineAt(1, "}")
  }

  /** The enum's members, separated by empty lines. */
  function EnumBodyText(a: Artifact): string {
    CaseLinesText(a.cases) + "\n"
    + ValueGetterText(SwitchText(a.branches)) + "\n"
    + EncodingKeyText(a.storedKey)
  }

  /** The line that opens the enum. */
  function EnumOpenText(typeName: seq<byte>): string {
    LineAt(0, "public enum " + Text(typeName) + " {")
  }

  /** The enum; its closing brace has no line break. */
  function EnumText(a: Artifact): string {
    EnumOpenText(a.typeName) + EnumBodyText(a) + "}"
  }

  /** The whole file: header, extension and enum, separated by empty lines. */
  function FileText(a: Artifact): string {
    HeaderText + "\n" + StringEncodingText + "\n" + EnumText(a)
  }

  /** The artifact the keys, type name and master key call for. */
  function ExpectedArtifact(keys: seq<Entry>, typeName: seq<byte>, xorKey: seq<byte>): Artifact
    requires AllEncodable(keys, xorKey) && MasterKeyStorable(xorKey, typeName)
  {
    Artifact(
      typeName,
      CaseNames(keys),
      seq(|keys|, i requires 0 <= i < |keys| =>
        Branch(keys[i].name, Ciphertext(keys[i].value, keys[i].name, xorKey))),
      StoredMasterKey(xorKey, typeName))
  }

  // ---- The templates as writer calls -------------------------------------
  // One method per `generate_*` method of the Ruby class; each returns the
  // calls it makes on the writer, and states the text they write.

  /** `prepare_header`. */
  method Header() returns (r: seq<Stmt>)
    ensures BlockText(0, r) == HeaderText
  {
    r := [ Line("// Generated automatically. Do not modify.\n"),
           Line("import Foundation") ];
    BlockText2(0, r[0], r[1]);
  }

  /** The body of the `for` loop in `generate_string_encoding`. */
  method EncodingLoop() returns (r: seq<Stmt>)
    ensures BlockText(3, r) == EncodingLoopText
  {
    r := [ Line("valueData[i] = valueData[i] ^ keyData[keyIndex]"),
           Line("keyIndex += 1"),
           Line("if keyIndex == keyData.count { keyIndex = 0 }") ];
    BlockText3(3, r[0], r[1], r[2]);
  }

  method EncodingBody() returns (r: seq<Stmt>)
    ensures BlockText(2, r) == EncodingBodyText
  {
    var loop := EncodingLoop();
    var setup := [ Line("var valueData = data(using: .ascii)!"),
                   Line("var keyData = key.data(using: .ascii)!"),
                   Line("var keyIndex = 0"),
                   Line("for i in 0..<valueData.count {") ];
    var rest := [ Indented(loop),
                  Line("}"),
                  Line("return String(data: valueData, encoding: .ascii)!") ];
    BlockText4(2, setup[0], setup[1], setup[2], setup[3]);
    BlockText3(2, rest[0], rest[1], rest[2]);
    BlockTextAppend(2, setup, rest);
    var x := BlockText(2, setup);
    AppendAssoc(x, StmtText(2, rest[0]) + StmtText(2, rest[1]), StmtText(2, rest[2]));
    AppendAssoc(x, StmtText(2, rest[0]), StmtText(2, rest[1]));
    r := setup + rest;
  }

  method EncodingFunction() returns (r: seq<Stmt>)
    ensures BlockText(1, r) == EncodingFunctionText
  {
    var body := EncodingBody();
    var open := "func encoding(_ key: String) -> String {";
    r := [ Line(open),
           Indented(body),
           Line("}") ];
    BlockTextWrapped(1, open, body, EncodingBodyText, Line("}"), LineAt(1, "}"));
  }

  /** `generate_string_encoding`: the Swift `encoding` extension whose
      behaviour is `SwiftRuntime.Encoding`. */
  method StringEncoding() returns (r: seq<Stmt>)
    ensures BlockText(0, r) == StringEncodingText
  {
    var func := EncodingFunction();
    var open := "fileprivate extension String {";
    r := [ Line(open),
           Indented(func),
           Line("}") ];
    BlockTextWrapped(0, open, func, EncodingFunctionText, Line("}"), LineAt(0, "}"));
  }

  /** The `case #{key}` loop: one line per case, in order. */
  function CaseLines(cases: seq<seq<byte>>): (r: seq<Stmt>)
    ensures |r| == |cases|
    ensures forall i :: 0 <= i < |cases| ==> r[i] == Line("case " + Text(cases[i]))
    ensures BlockText(1, r) == CaseLinesText(cases)
  {
    if |cases| == 0 then []
    else
      var rest := CaseLines(cases[1..]);
      BlockTextCons(1, Line("case " + Text(cases[0])), rest);
      [Line("case " + Text(cases[0]))] + rest
  }

  /** `case .#{key}:`. */
  function CaseLabel(b: Branch): Stmt {
    Line("case ." + Text(b.caseName) + ":")
  }

  /** The indented `bytes = [...]` under a case label. */
  function BytesAssignment(b: Branch): Stmt {
    Indented([Line("bytes = " + RenderBytes(b.bytes))])
  }

  lemma BranchStmtsText(b: Branch, rest: seq<Stmt>)
    ensures BlockText(2, [CaseLabel(b), BytesAssignment(b)] + rest) == BranchText(b) + BlockText(2, rest)
  {
    BlockText1(3, Line("bytes = " + RenderBytes(b.bytes)));
    BlockTextCons(2, BytesAssignment(b), rest);
    BlockTextCons(2, CaseLabel(b), [BytesAssignment(b)] + rest);
    assert [CaseLabel(b), BytesAssignment(b)] + rest == [CaseLabel(b)] + ([BytesAssignment(b)] + rest);
    AppendAssoc(StmtText(2, CaseLabel(b)), StmtText(2, BytesAssignment(b)), BlockText(2, rest));
  }

  /** The `case .#{key}:` loop: a case label followed by an indented
      assignment of the branch's byte literal, per branch in order. */
  function SwitchCases(branches: seq<Branch>): (r: seq<Stmt>)
    ensures |r| == 2 * |branches|
    ensures forall i :: 0 <= i < |branches| ==> r[2 * i] == CaseLabel(branches[i])
    ensures forall i :: 0 <= i < |branches| ==> r[2 * i + 1] == BytesAssignment(branches[i])
  {
    if |branches| == 0 then []
    else
      var rest := SwitchCases(branches[1..]);
      var r := [CaseLabel(branches[0]), BytesAssignment(branches[0])] + rest;
      assert forall i :: 1 <= i < |branches| ==>
          r[2 * i] == CaseLabel(branches[i]) && r[2 * i + 1] == BytesAssignment(branches[i]) by {
        forall i | 1 <= i < |branches|
          ensures r[2 * i] == CaseLabel(branches[i]) && r[2 * i + 1] == BytesAssignment(branches[i])
        {
          assert branches[i] == branches[1..][i - 1];
        }
      }
      r
  }

  /** The switch cases write exactly the branches' text. */
  lemma {:induction false} SwitchCasesText(branches: seq<Branch>)
    ensures BlockText(2, SwitchCases(branches)) == SwitchText(branches)
    decreases |branches|
  {
    if |branches| > 0 {
      SwitchCasesText(branches[1..]);
      BranchStmtsText(branches[0], SwitchCases(branches[1..]));
    }
  }

  /** The statements inside `public var value: String { ... }`. */
  method ValueBody(branches: seq<Branch>) returns (r: seq<Stmt>)
    ensures BlockText(2, r) == ValueBodyText(SwitchText(branches))
  {
    var head := [ Line("let bytes: [UInt8]\n"),
                  Line("switch self {") ];
    var cases := SwitchCases(branches);
    SwitchCasesText(branches);
    var tail := [ Line("}\n"),
                  Line("let encodedString = String(bytes: bytes, encoding: .ascii)!"),
                  Line("return encodedString.encoding(encodingKey)") ];
    BlockText2(2, head[0], head[1]);
    BlockText3(2, tail[0], tail[1], tail[2]);
    BlockTextAppend(2, head + cases, tail);
    BlockTextAppend(2, head, cases);
    var x := BlockText(2, head + cases);
    AppendAssoc(x, StmtText(2, tail[0]) + StmtText(2, tail[1]), StmtText(2, tail[2]));
    AppendAssoc(x, StmtText(2, tail[0]), StmtText(2, tail[1]));
    r := head + cases + tail;
  }

  /** `generate_value_getter`. */
  method ValueGetter(branches: seq<Branch>) returns (r: seq<Stmt>)
    ensures BlockText(1, r) == ValueGetterText(SwitchText(branches))
  {
    var body := ValueBody(branches);
    var open := "public var value: String {";
    r := [ Line(open),
           Indented(body),
           Line("}") ];
    BlockTextWrapped(1, open, body, ValueBodyText(SwitchText(branches)), Line("}"), LineAt(1, "}"));
  }

  /** The statements inside the `get { ... }` of the encoding key. */
  method KeyBlock(storedKey: seq<byte>) returns (r: seq<Stmt>)
    ensures BlockText(3, r) == KeyBlockText(storedKey)
  {
    r := [ Line("let bytes: [UInt8] = " + RenderBytes(storedKey)),
           Line("let type = String(describing: type(of: self))"),
           Line("let key = String(bytes: bytes, encoding: .ascii)!.encoding(type)"),
           Line("return String(describing: self) + key") ];
    BlockText4(3, r[0], r[1], r[2], r[3]);
  }

  method KeyBody(storedKey: seq<byte>) returns (r: seq<Stmt>)
    ensures BlockText(2, r) == KeyBodyText(storedKey)
  {
    var block := KeyBlock(storedKey);
    r := [ Line("@inline(__always)"),
           Line("get {"),
           Indented(block),
           Line("}") ];
    BlockText4(2, r[0], r[1], r[2], r[3]);
  }

  /** `generate_encoding_key`. */
  method EncodingKeyGetter(storedKey: seq<byte>) returns (r: seq<Stmt>)
    ensures BlockText(1, r) == EncodingKeyText(storedKey)
  {
    var body := KeyBody(storedKey);
    var open := "private var encodingKey: String {";
    r := [ Line(open),
           Indented(body),
           Line("}") ];
    BlockTextWrapped(1, open, body, KeyBodyText(storedKey), Line("}"), LineAt(1, "}"));
  }

  /** The body of the enum: cases, the value getter, the encoding key. */
  method EnumBody(a: Artifact) returns (r: seq<Stmt>)
    ensures BlockText(1, r) == EnumBodyText(a)
  {
    var cases := CaseLines(a.cases);
    var getter := ValueGetter(a.branches);
    var key := EncodingKeyGetter(a.storedKey);
    BlockTextSeparated(MemberLevel, cases, getter, key);
    r := cases + [BlankLine] + getter + [BlankLine] + key;
  }

  /** `generate_keys_struct`; the closing brace is written with `write`,
      so it has no indentation and no line break. */
  method KeysStruct(a: Artifact) returns (r: seq<Stmt>)
    ensures BlockText(0, r) == EnumText(a)
  {
    var body := EnumBody(a);
    var open := "public enum " + Text(a.typeName) + " {";
    r := [ Line(open),
           Indented(body),
           Raw("}") ];
    BlockTextClosedAtMargin(open, body, EnumBodyText(a), "}");
  }

  /** Everything `generate` writes, in order. */
  method Program(a: Artifact) returns (r: seq<Stmt>)
    ensures BlockText(0, r) == FileText(a)
  {
    var header := Header();
    var encoding := StringEncoding();
    var keys := KeysStruct(a);
    BlockTextSeparated(Margin, header, encoding, keys);
    r := header + [BlankLine] + encoding + [BlankLine] + keys;
  }

  /** `generate` on a fresh writer: every `intending` block is closed, so the
      level is back at 0, and the output is exactly the file text. */
  method Emit(a: Artifact) returns (w: Writer)
    ensures w.level == 0
    ensures w.out == FileText(a)
  {
    var program := Program(a);
    RunAllFromInitial(program);
    w := RunAll(Initial, program);
  }

  /** A successful compilation yields exactly the artifact the inputs call for. */
  lemma CompiledArtifact(keys: seq<Entry>, typeName: seq<byte>, xorKey: seq<byte>)
    requires AllEncodable(keys, xorKey) && MasterKeyStorable(xorKey, typeName)
    ensures Compile(keys, typeName, xorKey) == Success(ExpectedArtifact(keys, typeName, xorKey))
  {
    var a := Compile(keys, typeName, xorKey).value;
    var e := ExpectedArtifact(keys, typeName, xorKey);
    assert a.cases == e.cases;
    assert a.branches == e.branches;
  }

  /** The whole generator: the keys, type name and master key to the text of
      the Swift file, or the error the Ruby code raises first. */
  method Generate(keys: seq<Entry>, typeName: seq<byte>, xorKey: seq<byte>) returns (r: Result<string, GenError>)
    ensures r.Success? <==> AllEncodable(keys, xorKey) && MasterKeyStorable(xorKey, typeName)
    ensures !AllEncodable(keys, xorKey) ==> r == Failure(EntryKeyEmpty(keys[FirstUnencodable(keys, xorKey)].name))
    ensures AllEncodable(keys, xorKey) && !MasterKeyStorable(xorKey, typeName) ==> r == Failure(TypeNameEmpty)
    ensures r.Success? ==> HasEveryKey(keys, xorKey, r.value)
    ensures r.Success? ==> r.value == FileText(ExpectedArtifact(keys, typeName, xorKey))
  {
    var compiled := Compile(keys, typeName, xorKey);
    if compiled.Failure? {
      r := Failure(compiled.error);
    } else {
      CompiledArtifact(keys, typeName, xorKey);
      var w := Emit(compiled.value);
      GeneratedTextHasEveryKey(keys, typeName, xorKey, compiled.value);
      r := Success(w.out);
    }
  }

  /** The case lines of two lists of names are the lines of each, in order. */
  lemma {:induction false} CaseLinesTextAppend(xs: seq<seq<byte>>, ys: seq<seq<byte>>)
    ensures CaseLinesText(xs + ys) == CaseLinesText(xs) + CaseLinesText(ys)
    decreases |xs|
  {
    if |xs| == 0 {
      assert xs + ys == ys;
      assert "" + CaseLinesText(ys) == CaseLinesText(ys);
    } else {
      assert (xs + ys)[0] == xs[0];
      assert (xs + ys)[1..] == xs[1..] + ys;
      CaseLinesTextAppend(xs[1..], ys);
      AppendAssoc(CaseLineText(xs[0]), CaseLinesText(xs[1..]), CaseLinesText(ys));
    }
  }

  lemma CaseLinesTextSplit(cases: seq<seq<byte>>, i: nat)
    requires i < |cases|
    ensures CaseLinesText(cases)
            == CaseLinesText(cases[..i]) + CaseLineText(cases[i]) + CaseLinesText(cases[i + 1..])
  {
    var before, c, after := cases[..i], cases[i], cases[i + 1..];
    SplitAt(cases, i);
    calc {
      CaseLinesText(cases);
      CaseLinesText(before + [c] + after);
      { CaseLinesTextAppend(before + [c], after); }
      CaseLinesText(before + [c]) + CaseLinesText(after);
      { CaseLinesTextAppend(before, [c]); }
      CaseLinesText(before) + CaseLinesText([c]) + CaseLinesText(after);
    }
    CaseLinesTextSingle(c);
  }

  lemma CaseLinesTextSingle(c: seq<byte>)
    ensures CaseLinesText([c]) == CaseLineText(c)
  {
    assert [c][1..] == [];
    var x := CaseLineText(c);
    assert x + "" == x;
  }

  /** The switch text of two lists of branches is the text of each, in order. */
  lemma {:induction false} SwitchTextAppend(xs: seq<Branch>, ys: seq<Branch>)
    ensures SwitchText(xs + ys) == SwitchText(xs) + SwitchText(ys)
    decreases |xs|
  {
    if |xs| == 0 {
      assert xs + ys == ys;
      assert "" + SwitchText(ys) == SwitchText(ys);
    } else {
      assert (xs + ys)[0] == xs[0];
      assert (xs + ys)[1..] == xs[1..] + ys;
      SwitchTextAppend(xs[1..], ys);
      AppendAssoc(BranchText(xs[0]), SwitchText(xs[1..]), SwitchText(ys));
    }
  }

  lemma SwitchTextSplit(branches: seq<Branch>, i: nat)
    requires i < |branches|
    ensures SwitchText(branches)
            == SwitchText(branches[..i]) + BranchText(branches[i]) + SwitchText(branches[i + 1..])
  {
    var before, b, after := branches[..i], branches[i], branches[i + 1..];
    SplitAt(branches, i);
    calc {
      SwitchText(branches);
      SwitchText(before + [b] + after);
      { SwitchTextAppend(before + [b], after); }
      SwitchText(before + [b]) + SwitchText(after);
      { SwitchTextAppend(before, [b]); }
      SwitchText(before) + SwitchText([b]) + SwitchText(after);
    }
    SwitchTextSingle(b);
  }

  lemma SwitchTextSingle(b: Branch)
    ensures SwitchText([b]) == BranchText(b)
  {
    assert [b][1..] == [];
    var x := BranchText(b);
    assert x + "" == x;
  }

  lemma OccursAround(t: string, s: string, p: string, q: string)
    requires Occurs(t, s)
    ensures Occurs(t, p + s + q)
  {
    OccursAfter(t, s, p);
    OccursBefore(t, p + s, q);
  }

  /** Text of the enum's case lines is text of its body. */
  lemma OccursInCases(t: string, cases: string, value: string, key: string)
    requires Occurs(t, cases)
    ensures Occurs(t, cases + "\n" + value + "\n" + key)
  {
    OccursBefore(t, cases, "\n" + value);
    OccursBefore(t, cases + ("\n" + value), "\n" + key);
    AppendAssoc(cases, "\n", value);
    AppendAssoc(cases + "\n" + value, "\n", key);
    AppendAssoc(cases, "\n" + value, "\n" + key);
  }

  /** Text of the enum's value getter is text of its body. */
  lemma OccursInValue(t: string, cases: string, value: string, key: string)
    requires Occurs(t, value)
    ensures Occurs(t, cases + "\n" + value + "\n" + key)
  {
    OccursAround(t, value, cases + "\n", "\n");
    OccursBefore(t, cases + "\n" + value + "\n", key);
  }

  /** Text of the switch is text of the value getter. */
  lemma OccursInValueGetter(t: string, switchText: string)
    requires Occurs(t, switchText)
    ensures Occurs(t, ValueGetterText(switchText))
  {
    var head := LineAt(2, "let bytes: [UInt8]\n") + LineAt(2, "switch self {");
    OccursAround(t, switchText, head, LineAt(2, "}\n"));
    var p := head + switchText + LineAt(2, "}\n");
    OccursBefore(t, p, LineAt(2, "let encodedString = String(bytes: bytes, encoding: .ascii)!"));
    OccursBefore(t, p + LineAt(2, "let encodedString = String(bytes: bytes, encoding: .ascii)!"),
                 LineAt(2, "return encodedString.encoding(encodingKey)"));
    OccursAround(t, ValueBodyText(switchText), LineAt(1, "public var value: String {"), LineAt(1, "}"));
  }

  /** Text of the enum's body is text of the enum. */
  lemma OccursInEnum(t: string, a: Artifact)
    requires Occurs(t, EnumBodyText(a))
    ensures Occurs(t, EnumText(a))
  {
    OccursAround(t, EnumBodyText(a), EnumOpenText(a.typeName), "}");
  }

  /** Text of the enum's body is text of the file. */
  lemma OccursInFile(t: string, a: Artifact)
    requires Occurs(t, EnumBodyText(a))
    ensures Occurs(t, FileText(a))
  {
    OccursInEnum(t, a);
    OccursAfter(t, EnumText(a), HeaderText + "\n" + StringEncodingText + "\n");
  }

  /** Every case name of the artifact has its `case k` line in the file. */
  lemma CaseLineInFile(a: Artifact, i: nat)
    requires i < |a.cases|
    ensures Occurs(CaseLineText(a.cases[i]), FileText(a))
  {
    var t := CaseLineText(a.cases[i]);
    CaseLinesTextSplit(a.cases, i);
    OccursBetween(CaseLinesText(a.cases[..i]), t, CaseLinesText(a.cases[i + 1..]));
    OccursInCases(t, CaseLinesText(a.cases), ValueGetterText(SwitchText(a.branches)), EncodingKeyText(a.storedKey));
    OccursInFile(t, a);
  }

  /** Every branch of the artifact has its label and literal in the file. */
  lemma BranchInFile(a: Artifact, i: nat)
    requires i < |a.branches|
    ensures Occurs(BranchText(a.branches[i]), FileText(a))
  {
    var t := BranchText(a.branches[i]);
    SwitchTextSplit(a.branches, i);
    OccursBetween(SwitchText(a.branches[..i]), t, SwitchText(a.branches[i + 1..]));
    OccursInValueGetter(t, SwitchText(a.branches));
    OccursInValue(t, CaseLinesText(a.cases), ValueGetterText(SwitchText(a.branches)), EncodingKeyText(a.storedKey));
    OccursInFile(t, a);
  }

  /** In the text `generate` writes for the compiled keys (`Emit`), every
      key has its `case k` line, one tab deep. */
  lemma GeneratedTextListsEveryKey(keys: seq<Entry>, typeName: seq<byte>, xorKey: seq<byte>, a: Artifact, i: nat)
    requires Compile(keys, typeName, xorKey) == Success(a)
    requires i < |keys|
    ensures Occurs(CaseLineText(keys[i].name), FileText(a))
  {
    CaseLineInFile(a, i);
  }

  /** In the text `generate` writes for the compiled keys (`Emit`), every
      key has its switch branch: `case .k:` two tabs deep followed, three tabs deep, by
      the literal of `xor_unpacked(value, k + xor_key)`, a literal that reads
      back as exactly those bytes. */
  lemma GeneratedTextHasEveryBranch(keys: seq<Entry>, typeName: seq<byte>, xorKey: seq<byte>, a: Artifact, i: nat)
    requires Compile(keys, typeName, xorKey) == Success(a)
    requires i < |keys|
    ensures var e := keys[i];
      ParseBytes(RenderBytes(Ciphertext(e.value, e.name, xorKey))) == Some(Ciphertext(e.value, e.name, xorKey))
    ensures var e := keys[i];
      Occurs(LineAt(2, "case ." + Text(e.name) + ":")
             + LineAt(3, "bytes = " + RenderBytes(Ciphertext(e.value, e.name, xorKey))),
             FileText(a))
  {
    BranchInFile(a, i);
    RenderBytesRoundTrip(a.branches[i].bytes);
  }

  /** Every key has, in `text`, its `case k` line and its switch branch
      with the literal of `xor_unpacked(value, k + xor_key)`. */
  predicate HasEveryKey(keys: seq<Entry>, xorKey: seq<byte>, text: string)
    requires AllEncodable(keys, xorKey)
  {
    forall i :: 0 <= i < |keys| ==>
      && Occurs(CaseLineText(keys[i].name), text)
      && Occurs(BranchText(Branch(keys[i].name, Ciphertext(keys[i].value, keys[i].name, xorKey))), text)
  }

  /** The text `generate` writes for the compiled keys has, for every key,
      its `case k` line and its switch branch with the key's byte literal. */
  lemma GeneratedTextHasEveryKey(keys: seq<Entry>, typeName: seq<byte>, xorKey: seq<byte>, a: Artifact)
    requires Compile(keys, typeName, xorKey) == Success(a)
    ensures HasEveryKey(keys, xorKey, FileText(a))
  {
    forall i | 0 <= i < |keys|
      ensures && Occurs(CaseLineText(keys[i].name), FileText(a))
              && Occurs(BranchText(Branch(keys[i].name, Ciphertext(keys[i].value, keys[i].name, xorKey))), FileText(a))
    {
      GeneratedTextListsEveryKey(keys, typeName, xorKey, a, i);
      GeneratedTextHasEveryBranch(keys, typeName, xorKey, a, i);
    }
  }
}
