/** Text files as Python reads and splits them, for the installer's .env editor. */
module EnvText {

  /** A character str.splitlines breaks at, other than the carriage return. */
  predicate IsBreak(c: char) {
    '\n' <= c <= '\U{0C}' || '\U{1C}' <= c <= '\U{1E}' || c == '\U{85}' || c == '\U{2028}' || c == '\U{2029}'
  }

  predicate NoBreak(s: string) { forall i | 0 <= i < |s| :: !IsBreak(s[i]) }

  predicate NoReturn(s: string) { forall i | 0 <= i < |s| :: s[i] != '\r' }

  /** No line boundary of any kind. */
  predicate Plain(s: string) { NoBreak(s) && NoReturn(s) }

  /** Reading in text mode turns "\r\n" and "\r" into "\n". */
  function Universal(s: string): string {
    if s == "" then ""
    else if s[0] != '\r' then [s[0]] + Universal(s[1..])
    else if |s| > 1 && s[1] == '\n' then "\n" + Universal(s[2..])
    else "\n" + Universal(s[1..])
  }

  /** Length of the first line, its break included. */
  function FirstLine(s: string): (n: nat)
    requires s != ""
    ensures 1 <= n <= |s| && NoBreak(s[..n - 1]) && (n < |s| ==> IsBreak(s[n - 1]))
  {
    if |s| == 1 || IsBreak(s[0]) then 1 else 1 + FirstLine(s[1..])
  }

  /** splitlines(True) of a text without carriage returns. */
  function Lines(s: string): seq<string> {
    if s == "" then [] else var n := FirstLine(s); [s[..n]] + Lines(s[n..])
  }

  function Join(ls: seq<string>): string {
    if ls == [] then "" else ls[0] + Join(ls[1..])
  }

  predicate EndsLine(s: string) { s != "" && IsBreak(s[|s| - 1]) }

  /** A line as splitlines(False) gives it. */
  function Content(line: string): string {
    if EndsLine(line) then line[..|line| - 1] else line
  }

  /** A nonempty stretch of text with no break before its last character. */
  predicate IsLine(s: string) { s != "" && NoBreak(s[..|s| - 1]) && NoReturn(s) }

  predicate AllLines(ls: seq<string>) { forall i | 0 <= i < |ls| :: IsLine(ls[i]) }

  /** Every piece but the last ends its line. */
  predicate Separated(ls: seq<string>) { forall i | 0 <= i < |ls| - 1 :: EndsLine(ls[i]) }

  // ------------------------------------------------------------------ splitting and joining

  lemma {:induction false} UniversalIsClean(s: string)
    ensures NoReturn(Universal(s))
  {
    if s != "" {
      if s[0] != '\r' { UniversalIsClean(s[1..]); }
      else if |s| > 1 && s[1] == '\n' { UniversalIsClean(s[2..]); }
      else { UniversalIsClean(s[1..]); }
    }
  }

  lemma {:induction false} UniversalOfClean(s: string)
    requires NoReturn(s)
    ensures Universal(s) == s
  {
    if s != "" { UniversalOfClean(s[1..]); }
  }

  lemma SliceConcat(a: string, b: string, n: nat)
    requires n <= |a|
    ensures (a + b)[..n] == a[..n] && (a + b)[n..] == a[n..] + b
  {
  }

  lemma {:induction false} UniversalConcat(a: string, b: string)
    requires a == "" || a[|a| - 1] != '\r'
    ensures Universal(a + b) == Universal(a) + Universal(b)
  {
    if a == "" {
      assert a + b == b;
    } else {
      SliceConcat(a, b, 1);
      UniversalConcat(a[1..], b);
      if a[0] == '\r' && a[1] == '\n' {
        SliceConcat(a, b, 2);
        UniversalConcat(a[2..], b);
      }
    }
  }

  lemma {:induction false} UniversalKeepsEnd(s: string)
    requires s != "" && s[|s| - 1] == '\n'
    ensures EndsLine(Universal(s))
  {
    if |s| > 1 {
      if s[0] != '\r' || s[1] != '\n' {
        UniversalKeepsEnd(s[1..]);
      } else if |s| > 2 {
        UniversalKeepsEnd(s[2..]);
      }
    }
  }

  lemma {:induction false} FirstLineOfConcat(a: string, b: string)
    requires EndsLine(a)
    ensures FirstLine(a + b) == FirstLine(a)
  {
    if |a| > 1 && !IsBreak(a[0]) {
      assert (a + b)[1..] == a[1..] + b;
      FirstLineOfConcat(a[1..], b);
    }
  }

  lemma TailEndsLine(a: string, n: nat)
    requires EndsLine(a) && n < |a|
    ensures EndsLine(a[n..])
  {
    assert a[n..][|a| - n - 1] == a[|a| - 1];
  }

  lemma AppendLines(line: string, rest: seq<string>, more: seq<string>)
    ensures [line] + (rest + more) == ([line] + rest) + more
  {
  }

  lemma {:induction false} LinesOfConcat(a: string, b: string)
    requires a == "" || EndsLine(a)
    ensures Lines(a + b) == Lines(a) + Lines(b)
  {
    if a == "" {
      assert a + b == b;
    } else {
      var n := FirstLine(a);
      FirstLineOfConcat(a, b);
      SliceConcat(a, b, n);
      if n < |a| { TailEndsLine(a, n); }
      LinesOfConcat(a[n..], b);
      AppendLines(a[..n], Lines(a[n..]), Lines(b));
    }
  }

  lemma JoinCons(line: string, ls: seq<string>)
    ensures Join([line] + ls) == line + Join(ls)
  {
    assert ([line] + ls)[1..] == ls;
  }

  lemma Rejoin(s: string, n: nat)
    requires n <= |s|
    ensures s[..n] + s[n..] == s
  {
  }

  lemma {:induction false} JoinOfLines(s: string)
    ensures Join(Lines(s)) == s
  {
    if s != "" {
      var n := FirstLine(s);
      JoinOfLines(s[n..]);
      JoinCons(s[..n], Lines(s[n..]));
      Rejoin(s, n);
    }
  }

  lemma {:induction false} FirstLineOfLine(s: string)
    requires s != "" && NoBreak(s[..|s| - 1])
    ensures FirstLine(s) == |s|
  {
    if |s| > 1 {
      assert s[1..][..|s| - 2] == s[..|s| - 1][1..];
      FirstLineOfLine(s[1..]);
    }
  }

  lemma LinesOfLine(s: string)
    requires s != "" && NoBreak(s[..|s| - 1])
    ensures Lines(s) == [s]
  {
    FirstLineOfLine(s);
    assert s[..|s|] == s && s[|s|..] == "";
    assert Lines(s[|s|..]) == [];
  }

  lemma {:induction false} LinesAreLines(s: string)
    requires NoReturn(s)
    ensures AllLines(Lines(s)) && Separated(Lines(s))
  {
    if s != "" {
      var n := FirstLine(s);
      LinesAreLines(s[n..]);
      assert s[..n][..n - 1] == s[..n - 1];
      assert IsLine(s[..n]);
    }
  }

  /** What a sequence of pieces splits into when it is written and read back. */
  function Resplit(ls: seq<string>): seq<string> {
    if ls == [] then [] else Lines(Universal(ls[0])) + Resplit(ls[1..])
  }

  predicate ReturnFreeEnds(ls: seq<string>) {
    forall i | 0 <= i < |ls| :: ls[i] != "" && ls[i][|ls[i]| - 1] != '\r'
  }

  predicate ReadsSeparated(ls: seq<string>) { forall i | 0 <= i < |ls| - 1 :: EndsLine(Universal(ls[i])) }

  lemma {:induction false} ReadBack(ls: seq<string>)
    requires ReturnFreeEnds(ls) && ReadsSeparated(ls)
    ensures Lines(Universal(Join(ls))) == Resplit(ls)
  {
    if ls != [] {
      var a, b := ls[0], Join(ls[1..]);
      UniversalConcat(a, b);
      ReadBack(ls[1..]);
      if |ls| > 1 {
        LinesOfConcat(Universal(a), Universal(b));
      } else {
        assert b == "" && Universal(a) + Universal(b) == Universal(a);
        assert Resplit(ls[1..]) == [];
      }
    }
  }

  lemma {:induction false} ResplitConcat(a: seq<string>, b: seq<string>)
    ensures Resplit(a + b) == Resplit(a) + Resplit(b)
  {
    if a == [] {
      assert a + b == b;
    } else {
      assert (a + b)[1..] == a[1..] + b;
      ResplitConcat(a[1..], b);
    }
  }

  lemma {:induction false} ResplitOfLines(ls: seq<string>)
    requires AllLines(ls)
    ensures Resplit(ls) == ls
  {
    if ls != [] {
      UniversalOfClean(ls[0]);
      LinesOfLine(ls[0]);
      ResplitOfLines(ls[1..]);
    }
  }
}
