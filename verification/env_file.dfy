/** The installer's .env editor: upsert_env, read_env_value and upsert_env_if_missing,
    as functions of the file's text and as methods that rewrite it. */
module EnvFile {
  import opened Options
  import opened EnvText

  /** The file's characters, or None when it does not exist. */
  type File = Option<string>

  function Text(file: File): string { if file.None? then "" else Universal(file.value) }

  function LinesOf(file: File): seq<string> { Lines(Text(file)) }

  predicate Sets(line: string, key: string) { key + "=" <= line }

  function Setting(key: string, value: string): string { key + "=" + value + "\n" }

  predicate HasKey(ls: seq<string>, key: string) { exists i | 0 <= i < |ls| :: Sets(ls[i], key) }

  function Replaced(ls: seq<string>, key: string, value: string): seq<string> {
    if ls == [] then []
    else [if Sets(ls[0], key) then Setting(key, value) else ls[0]] + Replaced(ls[1..], key, value)
  }

  predicate EndsWithNewline(s: string) { s != "" && s[|s| - 1] == '\n' }

  /** The last line gets a newline unless it ends with one. */
  function Closed(ls: seq<string>): seq<string> {
    if ls != [] && !EndsWithNewline(ls[|ls| - 1]) then
      ls[..|ls| - 1] + [ls[|ls| - 1] + "\n"]
    else ls
  }

  function Patched(ls: seq<string>, key: string, value: string): seq<string> {
    if HasKey(ls, key) then Replaced(ls, key, value) else Closed(ls) + [Setting(key, value)]
  }

  /** upsert_env */
  function Upsert(file: File, key: string, value: string): string {
    Join(Patched(LinesOf(file), key, value))
  }

  function ReadLines(ls: seq<string>, key: string): Option<string> {
    if ls == [] then None
    else if Sets(Content(ls[0]), key) then Some(Content(ls[0])[|key| + 1..])
    else ReadLines(ls[1..], key)
  }

  /** read_env_value */
  function Read(file: File, key: string): Option<string> {
    if file.None? then None else ReadLines(LinesOf(file), key)
  }

  // ------------------------------------------------------------------ the line-level view

  /** A key the editor can tell apart from others. */
  predicate IsKey(key: string) { Plain(key) && '=' !in key }

  /** What a setting reads back as. */
  function Block(key: string, value: string): seq<string> { Lines(Universal(Setting(key, value))) }

  function Substituted(ls: seq<string>, key: string, block: seq<string>): seq<string> {
    if ls == [] then []
    else (if Sets(ls[0], key) then block else [ls[0]]) + Substituted(ls[1..], key, block)
  }

  function Terminated(line: string): seq<string> {
    if EndsLine(line) then [line, "\n"] else [line + "\n"]
  }

  /** A file that ends in the middle of a line has it ended; one that ends with another
      break than a newline gains an empty line. */
  function Ended(ls: seq<string>): seq<string> {
    if ls == [] || EndsWithNewline(ls[|ls| - 1]) then ls
    else ls[..|ls| - 1] + Terminated(ls[|ls| - 1])
  }

  function UpsertedLines(ls: seq<string>, key: string, value: string): seq<string> {
    if HasKey(ls, key) then Substituted(ls, key, Block(key, value)) else Ended(ls) + Block(key, value)
  }

  lemma {:induction false} ReplacedAt(ls: seq<string>, key: string, value: string)
    ensures var r := Replaced(ls, key, value);
            |r| == |ls| && forall i | 0 <= i < |ls| :: r[i] == if Sets(ls[i], key) then Setting(key, value) else ls[i]
  {
    if ls != [] { ReplacedAt(ls[1..], key, value); }
  }

  lemma ReplacedShape(ls: seq<string>, key: string, value: string)
    requires AllLines(ls) && Separated(ls)
    ensures ReturnFreeEnds(Replaced(ls, key, value)) && ReadsSeparated(Replaced(ls, key, value))
  {
    ReplacedAt(ls, key, value);
    UniversalKeepsEnd(Setting(key, value));
    forall i | 0 <= i < |ls| - 1 ensures EndsLine(Universal(Replaced(ls, key, value)[i])) {
      UniversalOfClean(ls[i]);
    }
  }

  lemma {:induction false} ReplacedResplit(ls: seq<string>, key: string, value: string)
    requires AllLines(ls)
    ensures Resplit(Replaced(ls, key, value)) == Substituted(ls, key, Block(key, value))
  {
    if ls != [] {
      var piece := if Sets(ls[0], key) then Setting(key, value) else ls[0];
      assert forall i | 0 <= i < |ls| - 1 :: ls[1..][i] == ls[i + 1];
      ReplacedResplit(ls[1..], key, value);
      UniversalOfClean(ls[0]);
      LinesOfLine(ls[0]);
      ResplitCons(piece, Replaced(ls[1..], key, value));
    }
  }

  lemma ResplitCons(piece: string, ls: seq<string>)
    ensures Resplit([piece] + ls) == Lines(Universal(piece)) + Resplit(ls)
  {
    assert ([piece] + ls)[1..] == ls;
  }

  lemma TerminatedReadsBack(line: string)
    requires IsLine(line)
    ensures Universal(line + "\n") == line + "\n" && Lines(line + "\n") == Terminated(line)
  {
    UniversalOfClean(line + "\n");
    if EndsLine(line) {
      LinesOfConcat(line, "\n");
      LinesOfLine(line);
      LinesOfLine("\n");
    } else {
      assert (line + "\n")[..|line|] == line;
      LinesOfLine(line + "\n");
    }
  }

  lemma LineReads(line: string)
    requires IsLine(line) && EndsLine(line)
    ensures line[|line| - 1] != '\r' && EndsLine(Universal(line))
  {
    UniversalOfClean(line);
  }

  lemma ClosedLineReads(line: string)
    requires IsLine(line)
    ensures (line + "\n")[|line|] == '\n' && EndsLine(Universal(line + "\n"))
  {
    UniversalKeepsEnd(line + "\n");
  }

  predicate Reads(ls: seq<string>, i: nat)
    requires i < |ls|
  {
    ls[i] != "" && ls[i][|ls[i]| - 1] != '\r' && EndsLine(Universal(ls[i]))
  }

  lemma ClosedEnds(ls: seq<string>)
    requires AllLines(ls) && Separated(ls)
    ensures forall i | 0 <= i < |Closed(ls)| :: Reads(Closed(ls), i)
  {
    var n := |ls| - 1;
    forall i | 0 <= i < |Closed(ls)| ensures Reads(Closed(ls), i) {
      if i < n || EndsWithNewline(ls[n]) {
        assert Closed(ls)[i] == ls[i] && EndsLine(ls[i]);
        LineReads(ls[i]);
      } else {
        assert Closed(ls)[i] == ls[n] + "\n";
        ClosedLineReads(ls[n]);
      }
    }
  }

  lemma ClosedShape(ls: seq<string>, last: string)
    requires AllLines(ls) && Separated(ls) && EndsWithNewline(last)
    ensures ReturnFreeEnds(Closed(ls) + [last]) && ReadsSeparated(Closed(ls) + [last])
  {
    var all := Closed(ls) + [last];
    ClosedEnds(ls);
    forall i: nat | i < |Closed(ls)|
      ensures EndsLine(Universal(all[i])) && all[i] != "" && all[i][|all[i]| - 1] != '\r'
    {
      assert Reads(Closed(ls), i) && all[i] == Closed(ls)[i];
    }
  }

  lemma EndedIsClosed(ls: seq<string>)
    requires AllLines(ls)
    ensures Resplit(Closed(ls)) == Ended(ls)
  {
    if ls != [] && !EndsWithNewline(ls[|ls| - 1]) {
      var n := |ls| - 1;
      TerminatedReadsBack(ls[n]);
      ResplitConcat(ls[..n], [ls[n] + "\n"]);
      ResplitOfLines(ls[..n]);
      assert Resplit([ls[n] + "\n"]) == Terminated(ls[n]);
    } else {
      ResplitOfLines(ls);
    }
  }

  /** Writing and reading back, for every file, key and value. */
  lemma UpsertReadsBack(file: File, key: string, value: string)
    ensures LinesOf(Some(Upsert(file, key, value))) == UpsertedLines(LinesOf(file), key, value)
  {
    var ls := LinesOf(file);
    LinesOfFile(file);
    if HasKey(ls, key) {
      ReplacedShape(ls, key, value);
      ReplacedResplit(ls, key, value);
      ReadBack(Replaced(ls, key, value));
    } else {
      EndedIsClosed(ls);
      var setting := Setting(key, value);
      ClosedShape(ls, setting);
      ReadBack(Closed(ls) + [setting]);
      ResplitConcat(Closed(ls), [setting]);
      assert Resplit([setting]) == Block(key, value);
    }
  }

  lemma LinesOfFile(file: File)
    ensures NoReturn(Text(file)) && AllLines(LinesOf(file)) && Separated(LinesOf(file))
  {
    if file.Some? { UniversalIsClean(file.value); }
    LinesAreLines(Text(file));
  }

  // ------------------------------------------------------------------ values that stay on their line

  /** A value with no line boundary, but for a single final carriage return, which the
      newline after it absorbs when the file is read. */
  predicate OneLine(v: string) {
    Plain(v) || (v != "" && v[|v| - 1] == '\r' && Plain(v[..|v| - 1]))
  }

  function Effective(v: string): string {
    if v != "" && v[|v| - 1] == '\r' then v[..|v| - 1] else v
  }

  lemma {:induction false} OneLineIff(t: string)
    ensures var u := Universal(t + "\n");
            u != "" && (NoBreak(u[..|u| - 1]) <==> OneLine(t))
  {
    if t != "" {
      assert (t + "\n")[1..] == t[1..] + "\n";
      OneLineIff(t[1..]);
      var rest := Universal(t[1..] + "\n");
      var u := Universal(t + "\n");
      if t == "\r" {
        assert (t + "\n")[2..] == "" && u == "\n";
        assert Plain(t[..0]);
      } else if t[0] == '\r' {
        ReturnFirst(t);
      } else {
        assert u == [t[0]] + rest;
        assert u[..|u| - 1] == [t[0]] + rest[..|rest| - 1];
        NoBreakCons(t[0], rest[..|rest| - 1]);
        OneLineTail(t);
      }
    }
  }

  lemma ReturnFirst(t: string)
    requires |t| > 1 && t[0] == '\r'
    ensures !OneLine(t)
    ensures var u := Universal(t + "\n"); u != "" && !NoBreak(u[..|u| - 1])
  {
    assert t[..|t| - 1][0] == '\r';
    var s := t + "\n";
    var rest := if s[1] == '\n' then s[2..] else s[1..];
    UniversalNonempty(rest);
    assert Universal(s) == "\n" + Universal(rest);
    assert Universal(s)[..|Universal(s)| - 1][0] == '\n';
  }

  lemma NoBreakCons(c: char, s: string)
    ensures NoBreak([c] + s) <==> !IsBreak(c) && NoBreak(s)
  {
    assert [c] + s != "" && ([c] + s)[0] == c && ([c] + s)[1..] == s;
  }

  lemma UniversalNonempty(s: string)
    requires s != ""
    ensures Universal(s) != ""
  {
  }

  lemma OneLineTail(t: string)
    requires t != "" && t[0] != '\r'
    ensures OneLine(t) <==> !IsBreak(t[0]) && OneLine(t[1..])
  {
    assert t == [t[0]] + t[1..];
    if |t| > 1 { assert t[..|t| - 1] == [t[0]] + t[1..][..|t[1..]| - 1]; }
  }

  lemma {:induction false} OneLineAfterPlain(a: string, v: string)
    requires Plain(a)
    ensures OneLine(a + v) <==> OneLine(v)
  {
    if a == "" {
      assert a + v == v;
    } else {
      assert (a + v)[1..] == a[1..] + v;
      OneLineTail(a + v);
      OneLineAfterPlain(a[1..], v);
    }
  }

  /** A setting reads back as one line exactly when its value is OneLine. */
  lemma BlockIsOneLineIff(key: string, v: string)
    requires Plain(key)
    ensures |Block(key, v)| >= 1 && (|Block(key, v)| == 1 <==> OneLine(v))
  {
    var t := key + "=" + v;
    var u := Universal(t + "\n");
    assert Setting(key, v) == t + "\n";
    OneLineIff(t);
    OneLineAfterPlain(key + "=", v);
    assert t == (key + "=") + v;
    if NoBreak(u[..|u| - 1]) {
      LinesOfLine(u);
    } else {
      var n := FirstLine(u);
      assert NoBreak(u[..n - 1]);
      assert |u[n..]| > 0;
      assert |Lines(u[n..])| >= 1 && Lines(u) == [u[..n]] + Lines(u[n..]);
    }
  }

  lemma OneLineBlock(key: string, v: string)
    requires Plain(key) && OneLine(v)
    ensures Block(key, v) == [Setting(key, Effective(v))] && Plain(Effective(v))
  {
    var w := Effective(v);
    var a := key + "=" + w;
    if w == v {
      UniversalOfClean(a + "\n");
    } else {
      assert v == w + "\r";
      assert Setting(key, v) == a + "\r\n";
      UniversalConcat(a, "\r\n");
      UniversalOfClean(a);
      assert Universal("\r\n") == "\n" by { assert "\r\n"[2..] == ""; }
    }
    assert (a + "\n")[..|a|] == a;
    LinesOfLine(a + "\n");
  }

  // ------------------------------------------------------------------ which lines set a key

  lemma SetsContent(line: string, key: string)
    requires IsLine(line) && Plain(key)
    ensures Sets(Content(line), key) <==> Sets(line, key)
  {
    if Sets(line, key) { assert line[|key|] == '='; }
  }

  lemma BlockSetsKey(key: string, v: string)
    requires Plain(key)
    ensures AllLines(Block(key, v)) && Separated(Block(key, v)) && Block(key, v) != [] && Sets(Block(key, v)[0], key)
  {
    var pre := key + "=";
    var rest := v + "\n";
    assert Setting(key, v) == pre + rest;
    UniversalConcat(pre, rest);
    UniversalOfClean(pre);
    var u := Universal(Setting(key, v));
    assert u == pre + Universal(rest);
    UniversalIsClean(Setting(key, v));
    LinesAreLines(u);
    UniversalNonempty(rest);
    var n := FirstLine(u);
    assert forall i | 0 <= i < |pre| :: u[i] == pre[i] && !IsBreak(u[i]);
    assert u[..n][..|pre|] == pre;
  }

  lemma OtherKeysSetting(k: string, j: string, v: string)
    requires IsKey(k) && IsKey(j) && k != j
    ensures !Sets(Setting(k, v), j)
  {
    var s := Setting(k, v);
    assert s == (k + "=") + (v + "\n");
    SameKeyIfSame(s, k, j);
  }

  /** A line sets at most one key. */
  lemma SameKeyIfSame(line: string, k: string, j: string)
    requires IsKey(k) && IsKey(j) && Sets(line, k)
    ensures Sets(line, j) ==> k == j
  {
    if Sets(line, j) {
      assert line[|k|] == '=' && line[|j|] == '=';
      assert line[..|k|] == k && line[..|j|] == j;
    }
  }

  lemma NewlineSetsNothing(line: string, key: string)
    requires Plain(key) && IsLine(line)
    ensures Sets(Terminated(line)[0], key) <==> Sets(line, key)
    ensures |Terminated(line)| == 2 ==> !Sets(Terminated(line)[1], key)
  {
    var pre := key + "=";
    assert forall i | 0 <= i < |pre| :: pre[i] != '\n';
    assert pre[0] != "\n"[0];
    if Sets(line + "\n", key) { assert (line + "\n")[|key|] == '='; }
  }

  // ------------------------------------------------------------------ reading after writing

  lemma {:induction false} ReadOfConcat(a: seq<string>, b: seq<string>, key: string)
    ensures ReadLines(a + b, key) == if ReadLines(a, key).Some? then ReadLines(a, key) else ReadLines(b, key)
  {
    if a == [] {
      assert a + b == b;
    } else {
      assert (a + b)[1..] == a[1..] + b;
      ReadOfConcat(a[1..], b, key);
    }
  }

  lemma {:induction false} ReadIffHasKey(ls: seq<string>, key: string)
    requires AllLines(ls) && Plain(key)
    ensures ReadLines(ls, key).Some? <==> HasKey(ls, key)
  {
    if ls != [] {
      SetsContent(ls[0], key);
      ReadIffHasKey(ls[1..], key);
      if HasKey(ls[1..], key) {
        var i :| 0 <= i < |ls| - 1 && Sets(ls[1..][i], key);
        assert Sets(ls[i + 1], key);
      }
      if HasKey(ls, key) && !Sets(ls[0], key) {
        var i :| 0 <= i < |ls| && Sets(ls[i], key);
        assert Sets(ls[1..][i - 1], key);
      }
    }
  }

  /** What a setting's block reads as. */
  function Seen(key: string, v: string): Option<string> { ReadLines(Block(key, v), key) }

  lemma {:induction false} ReadOfSubstituted(ls: seq<string>, key: string, v: string)
    requires AllLines(ls) && Plain(key) && HasKey(ls, key)
    ensures ReadLines(Substituted(ls, key, Block(key, v)), key) == Seen(key, v)
  {
    var block := Block(key, v);
    BlockSetsKey(key, v);
    SetsContent(block[0], key);
    if Sets(ls[0], key) {
      ReadOfConcat(block, Substituted(ls[1..], key, block), key);
    } else {
      SetsContent(ls[0], key);
      var i :| 0 <= i < |ls| && Sets(ls[i], key);
      assert Sets(ls[1..][i - 1], key);
      ReadOfConcat([ls[0]], Substituted(ls[1..], key, block), key);
      ReadOfSubstituted(ls[1..], key, v);
    }
  }

  lemma ReadOfEnded(ls: seq<string>, key: string)
    requires AllLines(ls) && Plain(key)
    ensures ReadLines(Ended(ls), key) == ReadLines(ls, key)
  {
    if ls != [] && !EndsWithNewline(ls[|ls| - 1]) {
      var n := |ls| - 1;
      ReadOfConcat(ls[..n], [ls[n]], key);
      assert ls[..n] + [ls[n]] == ls;
      ReadOfConcat(ls[..n], Terminated(ls[n]), key);
      ReadOfTerminated(ls[n], key);
    }
  }

  lemma ReadOfTerminated(line: string, key: string)
    requires IsLine(line) && Plain(key)
    ensures ReadLines(Terminated(line), key) == ReadLines([line], key)
  {
    NewlineSetsNothing(line, key);
    if EndsLine(line) {
      SetsContent("\n", key);
      ReadOfConcat([line], ["\n"], key);
      assert [line] + ["\n"] == Terminated(line);
      assert ReadLines(["\n"], key).None? by { assert ["\n"][1..] == []; }
    } else {
      assert Content(line + "\n") == line;
      assert [line + "\n"][1..] == [] && [line][1..] == [];
    }
  }

  lemma ReadOfUpserted(ls: seq<string>, key: string, v: string)
    requires AllLines(ls) && Plain(key)
    ensures ReadLines(UpsertedLines(ls, key, v), key) == Seen(key, v)
  {
    if HasKey(ls, key) {
      ReadOfSubstituted(ls, key, v);
    } else {
      ReadOfEnded(ls, key);
      ReadIffHasKey(ls, key);
      ReadOfConcat(Ended(ls), Block(key, v), key);
    }
  }

  lemma SeenIff(key: string, v: string)
    requires Plain(key)
    ensures Seen(key, v).Some? && Plain(Seen(key, v).value) && (Plain(v) ==> Seen(key, v) == Some(v))
  {
    var block := Block(key, v);
    BlockSetsKey(key, v);
    SetsContent(block[0], key);
    if Plain(v) {
      OneLineBlock(key, v);
      assert Content(Setting(key, v)) == key + "=" + v;
    }
  }

  /** Reading a key after writing it returns the value written exactly when the value
      contains no line boundary. */
  lemma ReadAfterUpsert(file: File, key: string, v: string)
    requires Plain(key)
    ensures Read(Some(Upsert(file, key, v)), key) == Some(v) <==> Plain(v)
  {
    LinesOfFile(file);
    UpsertReadsBack(file, key, v);
    ReadOfUpserted(LinesOf(file), key, v);
    SeenIff(key, v);
  }

  lemma {:induction false} ReadOtherOfSubstituted(ls: seq<string>, key: string, v: string, other: string)
    requires AllLines(ls) && IsKey(key) && IsKey(other) && key != other && OneLine(v)
    ensures ReadLines(Substituted(ls, key, Block(key, v)), other) == ReadLines(ls, other)
  {
    if ls != [] {
      ReadOtherOfSubstituted(ls[1..], key, v, other);
      if Sets(ls[0], key) {
        OneLineBlock(key, v);
        OtherKeysSetting(key, other, Effective(v));
        BlockSetsKey(key, v);
        SetsContent(Setting(key, Effective(v)), other);
        SetsContent(ls[0], other);
        SameKeyIfSame(ls[0], key, other);
      }
    }
  }

  /** Writing one key leaves every other key's value alone. */
  lemma OtherKeysUntouched(file: File, key: string, v: string, other: string)
    requires IsKey(key) && IsKey(other) && key != other && OneLine(v)
    ensures Read(Some(Upsert(file, key, v)), other) == Read(file, other)
  {
    var ls := LinesOf(file);
    LinesOfFile(file);
    UpsertReadsBack(file, key, v);
    if HasKey(ls, key) {
      ReadOtherOfSubstituted(ls, key, v, other);
    } else {
      OneLineBlock(key, v);
      OtherKeysSetting(key, other, Effective(v));
      BlockSetsKey(key, v);
      SetsContent(Setting(key, Effective(v)), other);
      ReadOfEnded(ls, other);
      ReadOfConcat(Ended(ls), Block(key, v), other);
    }
  }
}
