/** _slug_token: a value reduced to its alphanumeric runs, joined by single hyphens. */
module SlugToken {
  import Text

  /** Python's character tables: str.isalnum, str.isspace and str.lower. */
  datatype Chars = Chars(alnum: char -> bool, space: char -> bool, lower: string -> string, settled: char -> bool)

  /** What the proofs need of the tables: hyphens and blanks are not alphanumeric, a hyphen
      is no blank, and lowering yields settled characters, which stay as they are when
      lowered again; so do hyphens. */
  ghost predicate Sound(t: Chars) {
    !t.alnum('-') && !t.space('-') && t.settled('-') && (forall c :: t.alnum(c) ==> !t.space(c)) &&
    (forall s: string, i | 0 <= i < |t.lower(s)| :: t.settled(t.lower(s)[i])) &&
    forall s: string | AllSettled(t, s) :: t.lower(s) == s
  }

  function Ascii(): Chars {
    Chars((c: char) => 'a' <= c <= 'z' || 'A' <= c <= 'Z' || '0' <= c <= '9',
          (c: char) => Text.IsSpace(c), (s: string) => Text.Lower(s), (c: char) => !('A' <= c <= 'Z'))
  }

  /** The tables restricted to ASCII letters and digits are such tables. */
  lemma AsciiIsSound()
    ensures Sound(Ascii())
    ensures forall c: char :: Ascii().alnum(c) <==>
              48 <= c as int <= 57 || 65 <= c as int <= 90 || 97 <= c as int <= 122
    ensures forall c: char | c as int < 128 :: Ascii().space(c) <==> 9 <= c as int <= 13 || 28 <= c as int <= 32
  {
    forall c: char | c as int < 128
      ensures Ascii().space(c) <==> 9 <= c as int <= 13 || 28 <= c as int <= 32
    {
      Text.SpaceByCode(c);
    }
    forall s: string | AllSettled(Ascii(), s) ensures Ascii().lower(s) == s { Text.LowerOfLower(s); }
  }

  predicate AllSettled(t: Chars, s: string) { forall i | 0 <= i < |s| :: t.settled(s[i]) }

  function StripLeft(p: char -> bool, s: string): (r: string)
    ensures r != "" ==> !p(r[0])
  {
    if s != "" && p(s[0]) then StripLeft(p, s[1..]) else s
  }

  function StripRight(p: char -> bool, s: string): (r: string)
    ensures r != "" ==> !p(r[|r| - 1])
    ensures r <= s
  {
    if s != "" && p(s[|s| - 1]) then StripRight(p, s[..|s| - 1]) else s
  }

  function Strip(p: char -> bool, s: string): string { StripRight(p, StripLeft(p, s)) }

  function Raw(t: Chars, value: string): string { t.lower(Strip(t.space, value)) }

  function IsHyphen(): char -> bool { (c: char) => c == '-' }

  function IsWord(): char -> bool { (c: char) => c != '-' }

  function Dashed(t: Chars, s: string): (r: string)
    ensures |r| == |s| && forall i | 0 <= i < |s| :: r[i] == if t.alnum(s[i]) then s[i] else '-'
  {
    seq(|s|, i requires 0 <= i < |s| => if t.alnum(s[i]) then s[i] else '-')
  }

  predicate HasDouble(s: string) { exists i | 0 <= i < |s| - 1 :: s[i] == '-' && s[i + 1] == '-' }

  /** str.replace("--", "-") */
  function Squeeze(s: string): string {
    if s == "" then ""
    else if |s| > 1 && s[0] == '-' && s[1] == '-' then "-" + Squeeze(s[2..])
    else [s[0]] + Squeeze(s[1..])
  }

  // ------------------------------------------------------------------ runs

  function Extend(c: char, runs: seq<string>, joins: bool): seq<string> {
    if joins && runs != [] then [[c] + runs[0]] + runs[1..] else [[c]] + runs
  }

  /** The maximal stretches of characters that satisfy p. */
  function Runs(p: char -> bool, s: string): seq<string> {
    if s == "" then []
    else if !p(s[0]) then Runs(p, s[1..])
    else Extend(s[0], Runs(p, s[1..]), |s| > 1 && p(s[1]))
  }

  function Joined(runs: seq<string>): string {
    if runs == [] then "" else if |runs| == 1 then runs[0] else runs[0] + "-" + Joined(runs[1..])
  }

  /** What _slug_token promises. */
  function Slug(t: Chars, value: string, default: string): string {
    var runs := Runs(t.alnum, Raw(t, value));
    if runs == [] then default else Joined(runs)
  }

  lemma {:induction false} RunsOfDashed(t: Chars, s: string)
    requires Sound(t)
    ensures Runs(IsWord(), Dashed(t, s)) == Runs(t.alnum, s)
  {
    if s != "" {
      assert Dashed(t, s)[1..] == Dashed(t, s[1..]);
      RunsOfDashed(t, s[1..]);
    }
  }

  lemma {:induction false} RunsOfSnoc(s: string)
    ensures Runs(IsWord(), s + "-") == Runs(IsWord(), s)
  {
    if s != "" {
      assert (s + "-")[1..] == s[1..] + "-";
      RunsOfSnoc(s[1..]);
      assert Runs(IsWord(), "") == [];
    } else {
      assert ("" + "-")[1..] == "";
    }
  }

  lemma {:induction false} RunsOfStripRight(s: string)
    ensures Runs(IsWord(), StripRight(IsHyphen(), s)) == Runs(IsWord(), s)
  {
    if s != "" && s[|s| - 1] == '-' {
      RunsOfStripRight(s[..|s| - 1]);
      RunsOfSnoc(s[..|s| - 1]);
      assert s == s[..|s| - 1] + "-";
    }
  }

  lemma {:induction false} RunsOfStripLeft(s: string)
    ensures Runs(IsWord(), StripLeft(IsHyphen(), s)) == Runs(IsWord(), s)
  {
    if s != "" && s[0] == '-' { RunsOfStripLeft(s[1..]); }
  }

  lemma {:induction false} SqueezeKeepsRuns(s: string)
    ensures Runs(IsWord(), Squeeze(s)) == Runs(IsWord(), s)
    ensures |Squeeze(s)| <= |s| && (s != "" ==> Squeeze(s) != "" && Squeeze(s)[0] == s[0])
  {
    if s != "" {
      if |s| > 1 && s[0] == '-' && s[1] == '-' {
        SqueezeKeepsRuns(s[2..]);
        assert Squeeze(s)[1..] == Squeeze(s[2..]) && s[1..][1..] == s[2..];
        assert Runs(IsWord(), s) == Runs(IsWord(), s[1..]);
      } else {
        SqueezeKeepsRuns(s[1..]);
        assert Squeeze(s)[1..] == Squeeze(s[1..]);
      }
    }
  }

  lemma {:induction false} SqueezeShrinks(s: string)
    requires HasDouble(s)
    ensures |Squeeze(s)| < |s|
  {
    if s[0] == '-' && s[1] == '-' {
      SqueezeKeepsRuns(s[2..]);
    } else {
      var i :| 0 <= i < |s| - 1 && s[i] == '-' && s[i + 1] == '-';
      assert s[1..][i - 1] == '-' && s[1..][i] == '-';
      SqueezeShrinks(s[1..]);
    }
  }

  lemma {:induction false} SqueezeKeepsEnd(s: string)
    requires s != ""
    ensures Squeeze(s) != "" && Squeeze(s)[|Squeeze(s)| - 1] == s[|s| - 1]
  {
    if |s| > 1 && s[0] == '-' && s[1] == '-' {
      if |s| > 2 { SqueezeKeepsEnd(s[2..]); } else { assert s[2..] == ""; }
    } else if |s| > 1 {
      SqueezeKeepsEnd(s[1..]);
    } else {
      assert s[1..] == "";
    }
  }

  predicate CleanEdges(s: string) { s != "" ==> s[0] != '-' && s[|s| - 1] != '-' }

  lemma {:induction false} CleanIsJoined(s: string)
    requires CleanEdges(s) && !HasDouble(s)
    ensures s == Joined(Runs(IsWord(), s)) && (s != "" ==> Runs(IsWord(), s) != [])
  {
    if |s| == 1 {
      assert s[1..] == "";
      assert Runs(IsWord(), s) == [[s[0]]];
    } else if |s| > 1 && s[1] != '-' {
      assert !HasDouble(s[1..]) by { NoDoubleTail(s, 1); }
      CleanIsJoined(s[1..]);
      ExtendJoined(s[0], Runs(IsWord(), s[1..]));
    } else if |s| > 1 {
      assert s[2] != '-' && !HasDouble(s[2..]) by { NoDoubleTail(s, 2); }
      CleanIsJoined(s[2..]);
      assert s[1..][1..] == s[2..];
      NewRunJoined(s[0], Runs(IsWord(), s[2..]));
      assert s == [s[0]] + "-" + s[2..];
    }
  }

  lemma NoDoubleTail(s: string, n: nat)
    requires !HasDouble(s) && n <= |s|
    ensures !HasDouble(s[n..])
    ensures n > 0 && n < |s| && s[n - 1] == '-' ==> s[n] != '-'
  {
    forall i | 0 <= i < |s| - n - 1 ensures s[n..][i] != '-' || s[n..][i + 1] != '-' {
      assert s[n..][i] == s[n + i] && s[n..][i + 1] == s[n + i + 1];
    }
  }

  lemma ExtendJoined(c: char, runs: seq<string>)
    requires runs != []
    ensures Joined(Extend(c, runs, true)) == [c] + Joined(runs)
  {
    var extended := Extend(c, runs, true);
    assert extended[0] == [c] + runs[0] && extended[1..] == runs[1..];
    if |runs| > 1 {
      assert ([c] + runs[0]) + "-" + Joined(runs[1..]) == [c] + (runs[0] + "-" + Joined(runs[1..]));
    }
  }

  lemma NewRunJoined(c: char, runs: seq<string>)
    requires runs != []
    ensures Joined(Extend(c, runs, false)) == [c] + "-" + Joined(runs)
  {
    assert Extend(c, runs, false)[1..] == runs;
  }

  // ------------------------------------------------------------------ the loop

  /** The loop ends, and what it leaves are the runs joined by single hyphens. */
  method SlugOf(t: Chars, value: string, default: string) returns (slug: string)
    requires Sound(t)
    ensures slug == Slug(t, value, default)
  {
    var raw := Raw(t, value);
    var chars := Dashed(t, raw);
    var collapsed := Strip(IsHyphen(), chars);
    RunsOfDashed(t, raw);
    RunsOfStripLeft(chars);
    RunsOfStripRight(StripLeft(IsHyphen(), chars));
    StripEdges(chars);
    while HasDouble(collapsed)
      invariant CleanEdges(collapsed) && Runs(IsWord(), collapsed) == Runs(t.alnum, raw)
      decreases |collapsed|
    {
      SqueezeShrinks(collapsed);
      SqueezeKeepsRuns(collapsed);
      SqueezeKeepsEnd(collapsed);
      collapsed := Squeeze(collapsed);
    }
    CleanIsJoined(collapsed);
    slug := if collapsed != "" then collapsed else default;
  }

  lemma StripEdges(s: string)
    ensures CleanEdges(Strip(IsHyphen(), s))
  {
    var left := StripLeft(IsHyphen(), s);
    var both := StripRight(IsHyphen(), left);
    assert both != "" ==> both[0] == left[0];
  }

  // ------------------------------------------------------------------ normal forms

  /** Alphanumeric runs separated by single hyphens, none at the edges, in lower case. */
  predicate Normal(t: Chars, s: string) {
    s != "" && CleanEdges(s) && !HasDouble(s) && t.lower(s) == s &&
    forall i | 0 <= i < |s| :: t.alnum(s[i]) || s[i] == '-'
  }

  predicate AllRuns(p: char -> bool, runs: seq<string>) {
    forall i | 0 <= i < |runs| :: runs[i] != "" && forall k | 0 <= k < |runs[i]| :: p(runs[i][k])
  }

  lemma {:induction false} RunsAreRuns(p: char -> bool, s: string)
    ensures AllRuns(p, Runs(p, s))
  {
    if s != "" {
      RunsAreRuns(p, s[1..]);
    }
  }

  lemma {:induction false} JoinedShape(p: char -> bool, runs: seq<string>)
    requires AllRuns(p, runs) && runs != [] && !p('-')
    ensures var s := Joined(runs);
            s != "" && CleanEdges(s) && !HasDouble(s) && forall i | 0 <= i < |s| :: p(s[i]) || s[i] == '-'
  {
    if |runs| > 1 {
      assert forall i | 0 <= i < |runs| - 1 :: runs[1..][i] == runs[i + 1];
      JoinedShape(p, runs[1..]);
      JoinShape(p, runs[0], Joined(runs[1..]));
    }
  }

  lemma JoinShape(p: char -> bool, run: string, rest: string)
    requires run != "" && rest != "" && !p('-') && CleanEdges(rest) && !HasDouble(rest)
    requires forall k | 0 <= k < |run| :: p(run[k])
    requires forall k | 0 <= k < |rest| :: p(rest[k]) || rest[k] == '-'
    ensures var s := run + "-" + rest;
            CleanEdges(s) && !HasDouble(s) && forall i | 0 <= i < |s| :: p(s[i]) || s[i] == '-'
  {
    var s, n := run + "-" + rest, |run|;
    assert forall i | 0 <= i < n :: s[i] == run[i];
    assert s[n] == '-';
    assert forall i | n < i < |s| :: s[i] == rest[i - n - 1];
  }

  lemma {:induction false} RunsComeFrom(p: char -> bool, s: string, q: char -> bool)
    requires forall i | 0 <= i < |s| :: q(s[i])
    ensures AllRuns(q, Runs(p, s))
  {
    if s != "" {
      RunsComeFrom(p, s[1..], q);
    }
  }

  lemma {:induction false} JoinedComesFrom(runs: seq<string>, q: char -> bool)
    requires AllRuns(q, runs) && q('-')
    ensures forall i | 0 <= i < |Joined(runs)| :: q(Joined(runs)[i])
  {
    if |runs| > 1 {
      assert forall i | 0 <= i < |runs| - 1 :: runs[1..][i] == runs[i + 1];
      JoinedComesFrom(runs[1..], q);
    }
  }

  /** The result is in normal form, unless there is no alphanumeric character; then it is
      the default, whatever that looks like. */
  lemma SlugIsNormal(t: Chars, value: string, default: string)
    requires Sound(t)
    ensures if exists i :: 0 <= i < |Raw(t, value)| && t.alnum(Raw(t, value)[i]) then Normal(t, Slug(t, value, default))
            else Slug(t, value, default) == default
  {
    var raw := Raw(t, value);
    var runs := Runs(t.alnum, raw);
    RunsEmptyIff(t.alnum, raw);
    if runs != [] {
      RunsAreRuns(t.alnum, raw);
      JoinedShape(t.alnum, runs);
      RunsComeFrom(t.alnum, raw, t.settled);
      JoinedComesFrom(runs, t.settled);
      assert AllSettled(t, Joined(runs));
    }
  }

  lemma {:induction false} RunsEmptyIff(p: char -> bool, s: string)
    ensures Runs(p, s) != [] <==> exists i :: 0 <= i < |s| && p(s[i])
  {
    if s != "" {
      RunsEmptyIff(p, s[1..]);
      if Runs(p, s[1..]) != [] {
        var i :| 0 <= i < |s| - 1 && p(s[1..][i]);
        assert p(s[i + 1]);
      }
      if i :| 0 <= i < |s| && p(s[i]) && !p(s[0]) { assert p(s[1..][i - 1]); }
    }
  }

  lemma NormalIsRaw(t: Chars, s: string)
    requires Sound(t) && Normal(t, s)
    ensures Raw(t, s) == s
  {
    assert !t.space(s[0]) && !t.space(s[|s| - 1]);
  }

  lemma NormalIsFixed(t: Chars, s: string, default: string)
    requires Sound(t) && Normal(t, s)
    ensures Slug(t, s, default) == s
  {
    NormalIsRaw(t, s);
    assert Dashed(t, s) == s;
    RunsOfDashed(t, s);
    CleanIsJoined(s);
  }

  /** Applying _slug_token to its own result changes nothing, except when the default stood
      in for a value without alphanumeric characters and is itself neither without any nor
      in normal form. */
  lemma IdempotentIff(t: Chars, value: string, default: string)
    requires Sound(t)
    ensures Slug(t, Slug(t, value, default), default) == Slug(t, value, default) <==>
            (exists i :: 0 <= i < |Raw(t, value)| && t.alnum(Raw(t, value)[i])) ||
            !(exists i :: 0 <= i < |Raw(t, default)| && t.alnum(Raw(t, default)[i])) ||
            Normal(t, default)
  {
    SlugIsNormal(t, value, default);
    SlugIsNormal(t, default, default);
    if Normal(t, Slug(t, value, default)) { NormalIsFixed(t, Slug(t, value, default), default); }
  }
}
