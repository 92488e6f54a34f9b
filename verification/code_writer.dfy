/** `CodeWriter` (keys-generator.rb:28-58) as an immutable record: the
    indentation level and everything written so far. The nested `intending`
    blocks of the generator are described by a small statement tree that is
    run against the writer. */
module CodeWriter {
  import opened Wrappers

  /** The writer's state. Ruby keeps `@intendation_level` as an integer that
      `unintend` may push below zero; `write` then raises, because a string
      cannot be repeated a negative number of times. */
  datatype Writer = Writer(level: int, out: string)

  /** The level of the outermost statements. */
  const Margin: nat := 0

  /** `CodeWriter.new`: level 0, nothing written. */
  const Initial: Writer := Writer(0, "")

  /** `"\t" * n`. */
  function Tabs(n: nat): (r: string)
    ensures |r| == n
    ensures forall i :: 0 <= i < n ==> r[i] == '\t'
  {
    if n == 0 then "" else "\t" + Tabs(n - 1)
  }

  function Intend(w: Writer): Writer {
    Writer(w.level + 1, w.out)
  }

  function Unintend(w: Writer): Writer {
    Writer(w.level - 1, w.out)
  }

  /** `write(string)`: the current indentation, then the string. */
  function Write(w: Writer, s: string): (r: Writer)
    requires w.level >= 0
    ensures r.level == w.level
    ensures |r.out| == |w.out| + w.level + |s|
    ensures w.out <= r.out
    ensures forall i :: |w.out| <= i < |w.out| + w.level ==> r.out[i] == '\t'
    ensures r.out[|w.out| + w.level..] == s
  {
    Writer(w.level, w.out + Tabs(w.level) + s)
  }

  /** `writeln(string = nil)`: without an argument only the line break is
      written, with no indentation. */
  function Writeln(w: Writer, s: Option<string>): (r: Writer)
    requires s.Some? ==> w.level >= 0
    ensures r.level == w.level
    ensures s.None? ==> r.out == w.out + "\n"
    ensures s.Some? ==> r.out == Write(w, s.value).out + "\n"
  {
    var written := if s.Some? then Write(w, s.value) else w;
    Writer(written.level, written.out + "\n")
  }

  /** The calls the generator makes on a writer. */
  datatype Stmt =
    | Line(text: string)          // writeln(text)
    | BlankLine                   // writeln
    | Raw(text: string)           // write(text)
    | Indented(body: seq<Stmt>)   // intending { body }

  /** One call on the writer; `intending` is `intend`, the block, `unintend`.
      Every statement leaves the level as it found it and only appends. */
  function Run(w: Writer, s: Stmt): (r: Writer)
    requires w.level >= 0
    ensures r.level == w.level
    ensures w.out <= r.out
    decreases s
  {
    match s
    case Line(t) => Writeln(w, Some(t))
    case BlankLine => Writeln(w, None)
    case Raw(t) => Write(w, t)
    case Indented(body) => Unintend(RunAll(Intend(w), body))
  }

  /** A block of calls, in order. */
  function RunAll(w: Writer, ss: seq<Stmt>): (r: Writer)
    requires w.level >= 0
    ensures r.level == w.level
    ensures w.out <= r.out
    decreases ss
  {
    if |ss| == 0 then w else RunAll(Run(w, ss[0]), ss[1..])
  }

  /** One line as `writeln` lays it out at indentation `level`. */
  function LineAt(level: nat, t: string): string {
    Tabs(level) + t + "\n"
  }

  /** The text a statement writes at indentation `level`, whatever was
      written before it. */
  function StmtText(level: nat, s: Stmt): string
    decreases s
  {
    match s
    case Line(t) => LineAt(level, t)
    case BlankLine => "\n"
    case Raw(t) => Tabs(level) + t
    case Indented(body) => BlockText(level + 1, body)
  }

  /** The text a block writes at indentation `level`. */
  function BlockText(level: nat, ss: seq<Stmt>): string
    decreases ss
  {
    if |ss| == 0 then "" else StmtText(level, ss[0]) + BlockText(level, ss[1..])
  }

  /** Threading the writer through a statement appends exactly its text and
      keeps the level. */
  lemma {:induction false} RunText(w: Writer, s: Stmt)
    requires w.level >= 0
    ensures Run(w, s) == Writer(w.level, w.out + StmtText(w.level, s))
    decreases s
  {
    match s
    case Indented(body) => RunAllText(Intend(w), body);
    case _ =>
  }

  /** Threading the writer through a block appends exactly its text. */
  lemma {:induction false} RunAllText(w: Writer, ss: seq<Stmt>)
    requires w.level >= 0
    ensures RunAll(w, ss) == Writer(w.level, w.out + BlockText(w.level, ss))
    decreases ss
  {
    if |ss| > 0 {
      RunText(w, ss[0]);
      RunAllText(Run(w, ss[0]), ss[1..]);
    }
  }

  /** What a fresh writer holds after running a block: its text, at level 0. */
  lemma RunAllFromInitial(ss: seq<Stmt>)
    ensures RunAll(Initial, ss) == Writer(0, BlockText(0, ss))
  {
    RunAllText(Initial, ss);
    var t := BlockText(0, ss);
    assert "" + t == t;
  }

  /** Every statement inside `intending` is written one level deeper. */
  lemma IndentedBlock(level: nat, out: string, body: seq<Stmt>)
    ensures Run(Writer(level, out), Indented(body)) == Writer(level, out + BlockText(level + 1, body))
  {
    RunText(Writer(level, out), Indented(body));
    IndentedText(level, body);
  }

  lemma IndentedText(level: nat, body: seq<Stmt>)
    ensures StmtText(level, Indented(body)) == BlockText(level + 1, body)
  {
  }

  /** The text of consecutive blocks is the concatenation of their texts. */
  lemma {:induction false} BlockTextAppend(level: nat, xs: seq<Stmt>, ys: seq<Stmt>)
    ensures BlockText(level, xs + ys) == BlockText(level, xs) + BlockText(level, ys)
    decreases |xs|
  {
    if |xs| > 0 {
      assert (xs + ys)[0] == xs[0];
      assert (xs + ys)[1..] == xs[1..] + ys;
      BlockTextAppend(level, xs[1..], ys);
    } else {
      assert xs + ys == ys;
    }
  }

  /** String concatenation regroups freely. */
  lemma AppendAssoc(a: string, b: string, c: string)
    ensures a + (b + c) == a + b + c
  {
  }

  /** The text of short statement lists, one statement after another. */
  lemma BlockText1(level: nat, a: Stmt)
    ensures BlockText(level, [a]) == StmtText(level, a)
  {
    assert [a][1..] == [];
    var x := StmtText(level, a);
    assert x + "" == x;
  }

  lemma BlockText2(level: nat, a: Stmt, b: Stmt)
    ensures BlockText(level, [a, b]) == StmtText(level, a) + StmtText(level, b)
  {
    assert [a, b][1..] == [b];
    BlockText1(level, b);
  }

  lemma BlockText3(level: nat, a: Stmt, b: Stmt, c: Stmt)
    ensures BlockText(level, [a, b, c]) == StmtText(level, a) + StmtText(level, b) + StmtText(level, c)
  {
    assert [a, b, c][1..] == [b, c];
    BlockText2(level, b, c);
    AppendAssoc(StmtText(level, a), StmtText(level, b), StmtText(level, c));
  }

  lemma BlockText4(level: nat, a: Stmt, b: Stmt, c: Stmt, d: Stmt)
    ensures BlockText(level, [a, b, c, d])
            == StmtText(level, a) + StmtText(level, b) + StmtText(level, c) + StmtText(level, d)
  {
    assert [a, b, c, d][1..] == [b, c, d];
    BlockText3(level, b, c, d);
    var x, y, z, w := StmtText(level, a), StmtText(level, b), StmtText(level, c), StmtText(level, d);
    AppendAssoc(x, y + z, w);
    AppendAssoc(x, y, z);
  }

  /** A block opened by a line, indented, and closed by a statement, given
      the texts of the indented body and of the closing statement. */
  lemma BlockTextWrapped(level: nat, open: string, body: seq<Stmt>, bodyText: string, close: Stmt, closeText: string)
    requires BlockText(level + 1, body) == bodyText
    requires StmtText(level, close) == closeText
    ensures BlockText(level, [Line(open), Indented(body), close]) == LineAt(level, open) + bodyText + closeText
  {
    BlockText3(level, Line(open), Indented(body), close);
  }

  /** A block at the margin opened by a line and closed by a `write`, which
      adds no indentation and no line break. */
  lemma BlockTextClosedAtMargin(open: string, body: seq<Stmt>, bodyText: string, close: string)
    requires BlockText(1, body) == bodyText
    ensures BlockText(0, [Line(open), Indented(body), Raw(close)]) == LineAt(0, open) + bodyText + close
  {
    assert StmtText(0, Raw(close)) == close by {
      assert Tabs(0) == "";
    }
    BlockTextWrapped(0, open, body, bodyText, Raw(close), close);
  }

  /** The text of three blocks separated by blank lines. */
  lemma BlockTextSeparated(level: nat, xs: seq<Stmt>, ys: seq<Stmt>, zs: seq<Stmt>)
    ensures BlockText(level, xs + [BlankLine] + ys + [BlankLine] + zs)
            == BlockText(level, xs) + "\n" + BlockText(level, ys) + "\n" + BlockText(level, zs)
  {
    BlockTextAppend(level, xs + [BlankLine] + ys + [BlankLine], zs);
    BlockTextAppend(level, xs + [BlankLine] + ys, [BlankLine]);
    BlockTextAppend(level, xs + [BlankLine], ys);
    BlockTextAppend(level, xs, [BlankLine]);
    BlockText1(level, BlankLine);
  }

  lemma BlockTextCons(level: nat, s: Stmt, ss: seq<Stmt>)
    ensures BlockText(level, [s] + ss) == StmtText(level, s) + BlockText(level, ss)
  {
    assert ([s] + ss)[0] == s;
    assert ([s] + ss)[1..] == ss;
  }

  /** Running two blocks one after the other is running their concatenation. */
  lemma {:induction false} RunAllAppend(w: Writer, xs: seq<Stmt>, ys: seq<Stmt>)
    requires w.level >= 0
    ensures RunAll(w, xs + ys) == RunAll(RunAll(w, xs), ys)
    decreases |xs|
  {
    if |xs| > 0 {
      assert (xs + ys)[0] == xs[0];
      assert (xs + ys)[1..] == xs[1..] + ys;
      RunAllAppend(Run(w, xs[0]), xs[1..], ys);
    } else {
      assert xs + ys == ys;
    }
  }
}
