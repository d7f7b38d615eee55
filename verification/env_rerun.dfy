/** When running a script of .env edits a second time changes nothing. */
module EnvRerun {
  import opened Options
  import Text
  import opened EnvText
  import opened EnvFile
  import opened EnvScript

  predicate Disjoint(a: seq<string>, b: seq<string>) {
    forall i, j | 0 <= i < |a| && 0 <= j < |b| :: a[i] != b[j]
  }

  predicate NoRepeat(keys: seq<string>) { forall a, b | 0 <= a < b < |keys| :: keys[a] != keys[b] }

  predicate AreKeys(keys: seq<string>) { forall i | 0 <= i < |keys| :: IsKey(keys[i]) }

  /** Values the installer makes up or falls back on have no line boundary. */
  predicate Tidy(rule: Rule) {
    match rule
    case Default(v) => Plain(v)
    case Secret(drawn) => Plain(drawn) && drawn != ""
    case _ => true
  }

  predicate GoodStep(step: Step) {
    step.keys != [] && AreKeys(step.keys) && NoRepeat(step.keys) && Tidy(step.rule) &&
    (step.rule.Default? ==> |step.keys| == 1)
  }

  /** Every edit has its own keys. */
  predicate WellFormed(script: seq<Step>) {
    (forall i | 0 <= i < |script| :: GoodStep(script[i])) &&
    forall i, j | 0 <= i < j < |script| :: Disjoint(script[i].keys, script[j].keys)
  }

  /** The same edit with the same arguments, but possibly other random draws. */
  predicate Alike(a: Step, b: Step) {
    a.keys == b.keys &&
    match (a.rule, b.rule) {
      case (Const(v), Const(w)) => v == w
      case (Default(_), Default(_)) => true
      case (Secret(_), Secret(_)) => true
      case (Choice, Choice) => true
      case (Flag, Flag) => true
      case _ => false
    }
  }

  predicate AlikeScripts(a: seq<Step>, b: seq<Step>) {
    |a| == |b| && forall i | 0 <= i < |a| :: Alike(a[i], b[i])
  }

  /** Every constant written stays on one line. */
  predicate OneLineStep(step: Step) { step.rule.Const? ==> OneLine(step.rule.value) }

  predicate OneLineScript(script: seq<Step>) { forall i | 0 <= i < |script| :: OneLineStep(script[i]) }

  // ------------------------------------------------------------------ what one edit writes

  lemma {:induction false} ReadLinesIsPlain(ls: seq<string>, key: string)
    requires AllLines(ls) && ReadLines(ls, key).Some?
    ensures Plain(ReadLines(ls, key).value)
  {
    if !Sets(Content(ls[0]), key) {
      assert forall i | 0 <= i < |ls| - 1 :: ls[1..][i] == ls[i + 1];
      ReadLinesIsPlain(ls[1..], key);
    }
  }

  predicate LowerCase(w: string) { w != "" && forall i | 0 <= i < |w| :: 'a' <= w[i] <= 'z' }

  /** A lower-case word is its own normal form. */
  lemma LowerCaseIsFixed(w: string)
    requires LowerCase(w)
    ensures Text.Strip(w) == w && Text.Lower(w) == w && Plain(w)
  {
    Text.StripOfClean(w);
    Text.LowerOfLower(w);
  }

  lemma ProvidersAreLowerCase()
    ensures forall w <- PROVIDERS :: LowerCase(w)
  {
    assert LowerCase("local");
    assert LowerCase("oidc");
    assert LowerCase("keycloak");
  }

  lemma FalseIsNoTrueWord()
    ensures !IsTrueWord("false")
  {
    assert |"false"| == 5;
  }

  lemma FlagIsFixed(v: string)
    ensures var b := NormalizeBool(v, "true"); NormalizeBool(b, "true") == b && Plain(b)
  {
    assert LowerCase("true") && LowerCase("false");
    LowerCaseIsFixed("true");
    LowerCaseIsFixed("false");
    FalseIsNoTrueWord();
    assert IsTrueWord("true") && IsFalseWord("false");
  }

  lemma ChoiceIsFixed(v: string)
    ensures var c := NormalizeChoice(v, PROVIDERS, "local"); NormalizeChoice(c, PROVIDERS, "local") == c && Plain(c)
  {
    ProvidersAreLowerCase();
    var c := NormalizeChoice(v, PROVIDERS, "local");
    forall w | w in PROVIDERS ensures Text.Strip(w) == w && Text.Lower(w) == w && Plain(w) { LowerCaseIsFixed(w); }
    assert PROVIDERS[0] == "local";
    assert c in PROVIDERS;
  }

  /** v is a value the rule writes again when it finds it in the file. */
  predicate Fixpoint(rule: Rule, v: string) {
    match rule
    case Const(c) => v == Effective(c)
    case Default(_) => true
    case Choice => NormalizeChoice(v, PROVIDERS, "local") == v
    case Flag => NormalizeBool(v, "true") == v
    case Secret(_) => v != ""
  }

  lemma ChosenIsFixpoint(rule: Rule, current: Option<string>)
    requires Tidy(rule) && (rule.Const? ==> OneLine(rule.value)) && (current.Some? ==> Plain(current.value))
    requires Chosen(rule, current).Some?
    ensures var v := Chosen(rule, current).value;
            OneLine(v) && Plain(Effective(v)) && Fixpoint(rule, Effective(v))
  {
    ChoiceIsFixed(OrEmpty(current));
    FlagIsFixed(OrEmpty(current));
  }

  predicate AllSettled(ls: seq<string>, keys: seq<string>, v: string) {
    forall i | 0 <= i < |keys| :: Settled(ls, keys[i], v)
  }

  /** Rerunning this edit, with whatever draws, would change no line. */
  ghost predicate Stable(ls: seq<string>, step: Step)
    requires step.keys != []
  {
    if step.rule.Default? then HasKey(ls, step.keys[0])
    else exists v: string :: Plain(v) && Fixpoint(step.rule, v) && AllSettled(ls, step.keys, v)
  }

  // ------------------------------------------------------------------ writing several keys

  lemma {:induction false} PutIsLines(ls: seq<string>, keys: seq<string>, v: string)
    requires AllLines(ls) && AreKeys(keys)
    ensures AllLines(PutLines(ls, keys, v))
  {
    if keys != [] {
      var n := |keys| - 1;
      PutIsLines(ls, keys[..n], v);
      UpsertedAllLines(PutLines(ls, keys[..n], v), keys[n], v);
    }
  }

  lemma {:induction false} PutSettles(ls: seq<string>, keys: seq<string>, v: string)
    requires AllLines(ls) && AreKeys(keys) && NoRepeat(keys) && OneLine(v)
    ensures AllSettled(PutLines(ls, keys, v), keys, Effective(v))
  {
    if keys != [] {
      var n := |keys| - 1;
      var before := PutLines(ls, keys[..n], v);
      PutIsLines(ls, keys[..n], v);
      PutSettles(ls, keys[..n], v);
      SettledAfter(before, keys[n], v);
      OthersStaySettled(before, keys, v, Effective(v));
      AllSettledSnoc(PutLines(ls, keys, v), keys, Effective(v));
    }
  }

  lemma OthersStaySettled(ls: seq<string>, keys: seq<string>, v: string, w: string)
    requires keys != [] && AllLines(ls) && AreKeys(keys) && NoRepeat(keys) && OneLine(v)
    requires AllSettled(ls, keys[..|keys| - 1], w)
    ensures AllSettled(UpsertedLines(ls, keys[|keys| - 1], v), keys[..|keys| - 1], w)
  {
    var others := keys[..|keys| - 1];
    forall i | 0 <= i < |others| ensures Settled(UpsertedLines(ls, keys[|keys| - 1], v), others[i], w) {
      assert others[i] == keys[i];
      SettledKept(ls, keys[|keys| - 1], v, others[i], w);
    }
  }

  lemma AllSettledSnoc(ls: seq<string>, keys: seq<string>, w: string)
    requires keys != []
    ensures AllSettled(ls, keys, w) <==>
            AllSettled(ls, keys[..|keys| - 1], w) && Settled(ls, keys[|keys| - 1], w)
  {
    var n := |keys| - 1;
    assert forall i | 0 <= i < n :: keys[..n][i] == keys[i];
    if AllSettled(ls, keys[..n], w) && Settled(ls, keys[n], w) {
      forall i | 0 <= i < |keys| ensures Settled(ls, keys[i], w) {
        if i < n { assert keys[..n][i] == keys[i]; }
      }
    }
  }

  lemma {:induction false} PutKeepsSettled(ls: seq<string>, keys: seq<string>, v: string, other: string, w: string)
    requires AllLines(ls) && AreKeys(keys) && IsKey(other) && Disjoint([other], keys)
    requires Settled(ls, other, w) && forall a | 0 <= a < |keys| :: Misses(keys[a], v, other)
    ensures Settled(PutLines(ls, keys, v), other, w)
  {
    if keys != [] {
      var n := |keys| - 1;
      PutIsLines(ls, keys[..n], v);
      PutKeepsSettled(ls, keys[..n], v, other, w);
      assert [other][0] != keys[n];
      SettledKept(PutLines(ls, keys[..n], v), keys[n], v, other, w);
    }
  }

  lemma {:induction false} PutKeepsKey(ls: seq<string>, keys: seq<string>, v: string, other: string)
    requires AllLines(ls) && AreKeys(keys) && IsKey(other)
    requires HasKey(ls, other) || (keys != [] && keys[|keys| - 1] == other)
    ensures HasKey(PutLines(ls, keys, v), other)
  {
    if keys != [] {
      var n := |keys| - 1;
      PutIsLines(ls, keys[..n], v);
      if keys[n] != other { PutKeepsKey(ls, keys[..n], v, other); }
      UpsertKeepsKeys(PutLines(ls, keys[..n], v), keys[n], v, other);
    }
  }

  lemma {:induction false} PutFixed(ls: seq<string>, keys: seq<string>, v: string)
    requires AreKeys(keys) && OneLine(v) && AllSettled(ls, keys, Effective(v))
    ensures PutLines(ls, keys, v) == ls
  {
    if keys != [] {
      var n := |keys| - 1;
      PutFixed(ls, keys[..n], v);
      SettledIsFixed(ls, keys[n], v);
    }
  }

  lemma {:induction false} PutGrows(ls: seq<string>, keys: seq<string>, v: string)
    requires AllLines(ls) && AreKeys(keys)
    ensures |PutLines(ls, keys, v)| >= |ls|
    ensures keys != [] && HasKey(ls, keys[|keys| - 1]) && !OneLine(v) ==> |PutLines(ls, keys, v)| > |ls|
  {
    if keys != [] {
      var n := |keys| - 1;
      PutIsLines(ls, keys[..n], v);
      PutGrows(ls, keys[..n], v);
      UpsertGrows(PutLines(ls, keys[..n], v), keys[n], v);
      if HasKey(ls, keys[n]) { PutKeepsKey(ls, keys[..n], v, keys[n]); }
    }
  }

  // ------------------------------------------------------------------ one edit

  lemma ChosenAtKey(ls: seq<string>, step: Step)
    requires AllLines(ls) && GoodStep(step) && OneLineStep(step)
    requires Chosen(step.rule, ReadLines(ls, step.keys[0])).Some?
    ensures var v := Chosen(step.rule, ReadLines(ls, step.keys[0])).value;
            OneLine(v) && Plain(Effective(v)) && Fixpoint(step.rule, Effective(v))
  {
    if ReadLines(ls, step.keys[0]).Some? { ReadLinesIsPlain(ls, step.keys[0]); }
    ChosenIsFixpoint(step.rule, ReadLines(ls, step.keys[0]));
  }

  lemma StepStabilises(ls: seq<string>, step: Step)
    requires AllLines(ls) && GoodStep(step) && OneLineStep(step)
    ensures Stable(StepLines(ls, step), step)
  {
    var key := step.keys[0];
    var chosen := Chosen(step.rule, ReadLines(ls, key));
    assert IsKey(key);
    ReadIffHasKey(ls, key);
    if chosen.Some? {
      ChosenAtKey(ls, step);
      PutSettles(ls, step.keys, chosen.value);
      assert Settled(StepLines(ls, step), key, Effective(chosen.value));
    }
  }

  lemma StepKeepsStable(ls: seq<string>, step: Step, other: Step)
    requires AllLines(ls) && GoodStep(step) && GoodStep(other) && OneLineStep(step)
    requires Disjoint(other.keys, step.keys) && Stable(ls, other)
    ensures Stable(StepLines(ls, step), other)
  {
    if other.rule.Default? {
      StepKeepsKey(ls, step, other.keys[0]);
    } else {
      var v: string :| Plain(v) && Fixpoint(other.rule, v) && AllSettled(ls, other.keys, v);
      StepKeepsSettled(ls, step, other, v);
    }
  }

  /** Whatever the edit writes, none of it sets one of these keys. */
  predicate Spares(step: Step, keys: seq<string>) {
    step.rule.Const? ==>
      forall a, b | 0 <= a < |step.keys| && 0 <= b < |keys| :: Misses(step.keys[a], step.rule.value, keys[b])
  }

  lemma StepKeepsSettled(ls: seq<string>, step: Step, other: Step, v: string)
    requires AllLines(ls) && GoodStep(step) && GoodStep(other) && Spares(step, other.keys)
    requires Disjoint(other.keys, step.keys) && AllSettled(ls, other.keys, v)
    ensures AllSettled(StepLines(ls, step), other.keys, v)
  {
    var chosen := Chosen(step.rule, ReadLines(ls, step.keys[0]));
    if chosen.Some? {
      if !step.rule.Const? { ChosenAtKey(ls, step); }
      forall i | 0 <= i < |other.keys| ensures Settled(StepLines(ls, step), other.keys[i], v) {
        PutKeepsSettled(ls, step.keys, chosen.value, other.keys[i], v);
      }
    }
  }

  lemma SettledReads(ls: seq<string>, key: string, v: string)
    requires AllLines(ls) && Plain(key) && Plain(v) && Settled(ls, key, v)
    ensures ReadLines(ls, key) == Some(v)
  {
    OneLineBlock(key, v);
    SubstitutedSettled(ls, key, v);
    ReadOfSubstituted(ls, key, v);
    SeenIff(key, v);
  }

  /** A stable edit changes no line, whatever it draws. */
  lemma StableIsFixed(ls: seq<string>, step: Step, again: Step)
    requires AllLines(ls) && GoodStep(step) && GoodStep(again) && OneLineStep(step) && Alike(step, again)
    requires Stable(ls, step)
    ensures StepLines(ls, again) == ls
  {
    var key := step.keys[0];
    assert IsKey(key);
    if step.rule.Default? {
      ReadIffHasKey(ls, key);
    } else {
      var v: string :| Plain(v) && Fixpoint(step.rule, v) && AllSettled(ls, step.keys, v);
      assert Settled(ls, key, v);
      SettledReads(ls, key, v);
      PutFixed(ls, step.keys, Chosen(again.rule, Some(v)).value);
    }
  }

  // ------------------------------------------------------------------ whole scripts

  lemma {:induction false} RunIsLines(ls: seq<string>, script: seq<Step>)
    requires AllLines(ls) && HasKeys(script) && (forall i | 0 <= i < |script| :: GoodStep(script[i]))
    ensures AllLines(RunLines(ls, script))
  {
    if script != [] {
      var n := |script| - 1;
      var before := RunLines(ls, script[..n]);
      RunIsLines(ls, script[..n]);
      var v := Chosen(script[n].rule, ReadLines(before, script[n].keys[0]));
      if v.Some? { PutIsLines(before, script[n].keys, v.value); }
    }
  }

  /** After a script has run, every one of its edits is stable. */
  lemma {:induction false} RunStabilises(ls: seq<string>, script: seq<Step>, i: nat)
    requires AllLines(ls) && HasKeys(script) && WellFormed(script) && OneLineScript(script) && i < |script|
    ensures Stable(RunLines(ls, script), script[i])
  {
    var n := |script| - 1;
    RunIsLines(ls, script[..n]);
    if i == n {
      StepStabilises(RunLines(ls, script[..n]), script[n]);
    } else {
      RunStabilises(ls, script[..n], i);
      StepKeepsStable(RunLines(ls, script[..n]), script[n], script[i]);
    }
  }

  lemma {:induction false} RerunFixed(ls: seq<string>, script: seq<Step>, again: seq<Step>)
    requires AllLines(ls) && HasKeys(script) && HasKeys(again) && AlikeScripts(script, again)
    requires forall i | 0 <= i < |script| :: GoodStep(script[i]) && GoodStep(again[i]) && OneLineStep(script[i])
    requires forall i | 0 <= i < |script| :: Stable(ls, script[i])
    ensures RunLines(ls, again) == ls
  {
    if again != [] {
      var n := |again| - 1;
      RerunFixed(ls, script[..n], again[..n]);
      StableIsFixed(ls, script[n], again[n]);
    }
  }

  lemma StepGrows(ls: seq<string>, step: Step)
    requires AllLines(ls) && GoodStep(step)
    ensures |StepLines(ls, step)| >= |ls|
    ensures HasKey(ls, step.keys[|step.keys| - 1]) && !OneLineStep(step) ==> |StepLines(ls, step)| > |ls|
  {
    var v := Chosen(step.rule, ReadLines(ls, step.keys[0]));
    if v.Some? { PutGrows(ls, step.keys, v.value); }
  }

  lemma StepKeepsKey(ls: seq<string>, step: Step, other: string)
    requires AllLines(ls) && GoodStep(step) && IsKey(other) && HasKey(ls, other)
    ensures HasKey(StepLines(ls, step), other)
  {
    var v := Chosen(step.rule, ReadLines(ls, step.keys[0]));
    if v.Some? { PutKeepsKey(ls, step.keys, v.value, other); }
  }

  lemma {:induction false} RunKeepsKey(ls: seq<string>, script: seq<Step>, other: string)
    requires AllLines(ls) && HasKeys(script) && (forall i | 0 <= i < |script| :: GoodStep(script[i]))
    requires IsKey(other) && HasKey(ls, other)
    ensures HasKey(RunLines(ls, script), other)
  {
    if script != [] {
      var n := |script| - 1;
      RunIsLines(ls, script[..n]);
      RunKeepsKey(ls, script[..n], other);
      StepKeepsKey(RunLines(ls, script[..n]), script[n], other);
    }
  }

  /** A constant edit leaves its last key in the file for good. */
  lemma {:induction false} RunSetsKey(ls: seq<string>, script: seq<Step>, i: nat)
    requires AllLines(ls) && HasKeys(script) && (forall i | 0 <= i < |script| :: GoodStep(script[i]))
    requires i < |script| && script[i].rule.Const?
    ensures HasKey(RunLines(ls, script), script[i].keys[|script[i].keys| - 1])
  {
    var n := |script| - 1;
    var key := script[i].keys[|script[i].keys| - 1];
    RunIsLines(ls, script[..n]);
    assert IsKey(key);
    if i == n {
      PutKeepsKey(RunLines(ls, script[..n]), script[n].keys, script[n].rule.value, key);
    } else {
      RunSetsKey(ls, script[..n], i);
      StepKeepsKey(RunLines(ls, script[..n]), script[n], key);
    }
  }

  lemma RunKeepsLastKey(ls: seq<string>, script: seq<Step>, step: Step)
    requires AllLines(ls) && HasKeys(script) && (forall i | 0 <= i < |script| :: GoodStep(script[i]))
    requires GoodStep(step) && HasKey(ls, step.keys[|step.keys| - 1])
    ensures HasKey(RunLines(ls, script), step.keys[|step.keys| - 1])
  {
    assert IsKey(step.keys[|step.keys| - 1]);
    RunKeepsKey(ls, script, step.keys[|step.keys| - 1]);
  }

  /** If some constant edit adds lines to itself, the whole rerun ends with more lines. */
  lemma {:induction false} RunGrows(ls: seq<string>, script: seq<Step>)
    requires AllLines(ls) && HasKeys(script) && (forall i | 0 <= i < |script| :: GoodStep(script[i]))
    requires forall i | 0 <= i < |script| && script[i].rule.Const? :: HasKey(ls, script[i].keys[|script[i].keys| - 1])
    ensures |RunLines(ls, script)| >= |ls|
    ensures !OneLineScript(script) ==> |RunLines(ls, script)| > |ls|
  {
    if script != [] {
      var n := |script| - 1;
      var before := RunLines(ls, script[..n]);
      RunIsLines(ls, script[..n]);
      RunGrows(ls, script[..n]);
      StepGrows(before, script[n]);
      if script[n].rule.Const? { RunKeepsLastKey(ls, script[..n], script[n]); }
      OneLineSnoc(script);
    }
  }

  lemma OneLineSnoc(script: seq<Step>)
    requires script != []
    ensures OneLineScript(script) <==>
            OneLineScript(script[..|script| - 1]) && OneLineStep(script[|script| - 1])
  {
    var n := |script| - 1;
    if OneLineScript(script[..n]) && OneLineStep(script[n]) {
      forall i | 0 <= i < |script| ensures OneLineStep(script[i]) {
        if i < n { assert OneLineStep(script[..n][i]); }
      }
    }
  }

  // ------------------------------------------------------------------ the bytes

  lemma {:induction false} JoinIsClean(ls: seq<string>)
    requires forall i | 0 <= i < |ls| :: NoReturn(ls[i])
    ensures NoReturn(Join(ls))
  {
    if ls != [] {
      assert forall i | 0 <= i < |ls| - 1 :: ls[1..][i] == ls[i + 1];
      JoinIsClean(ls[1..]);
    }
  }

  lemma {:induction false} ReplacedIsClean(ls: seq<string>, key: string, v: string)
    requires AllLines(ls) && NoReturn(Setting(key, v))
    ensures forall i | 0 <= i < |Replaced(ls, key, v)| :: NoReturn(Replaced(ls, key, v)[i])
  {
    if ls != [] {
      assert forall i | 0 <= i < |ls| - 1 :: ls[1..][i] == ls[i + 1];
      ReplacedIsClean(ls[1..], key, v);
    }
  }

  /** A file last written with a plain setting holds no carriage return at all. */
  lemma UpsertIsClean(file: File, key: string, v: string)
    requires Plain(key) && Plain(v)
    ensures NoReturn(Upsert(file, key, v))
  {
    var ls := LinesOf(file);
    LinesOfFile(file);
    ReplacedIsClean(ls, key, v);
    JoinIsClean(Patched(ls, key, v));
  }

  lemma CleanFilesAgree(a: string, b: string)
    requires NoReturn(a) && NoReturn(b) && LinesOf(Some(a)) == LinesOf(Some(b))
    ensures a == b
  {
    UniversalOfClean(a);
    UniversalOfClean(b);
    JoinOfLines(a);
    JoinOfLines(b);
  }

  /** The script's last edit writes one plain constant. */
  predicate EndsPlain(script: seq<Step>) {
    script != [] && script[|script| - 1].rule.Const? && Plain(script[|script| - 1].rule.value) &&
    |script[|script| - 1].keys| == 1
  }

  lemma SinglePut(file: File, step: Step)
    requires |step.keys| == 1 && step.rule.Const?
    ensures DoStep(file, step) == Some(Upsert(file, step.keys[0], step.rule.value))
  {
    assert step.keys[..0] == [];
    assert PutAll(file, step.keys[..0], step.rule.value) == file;
  }

  lemma RunEndsClean(file: File, script: seq<Step>)
    requires HasKeys(script) && EndsPlain(script) && GoodStep(script[|script| - 1])
    ensures Run(file, script).Some? && NoReturn(Run(file, script).value)
  {
    var n := |script| - 1;
    SinglePut(Run(file, script[..n]), script[n]);
    assert IsKey(script[n].keys[0]);
    UpsertIsClean(Run(file, script[..n]), script[n].keys[0], script[n].rule.value);
  }

  lemma RerunLinesIff(ls: seq<string>, script: seq<Step>, again: seq<Step>)
    requires AllLines(ls) && HasKeys(script) && HasKeys(again)
    requires WellFormed(script) && WellFormed(again) && AlikeScripts(script, again)
    ensures RunLines(RunLines(ls, script), again) == RunLines(ls, script) <==> OneLineScript(script)
  {
    var once := RunLines(ls, script);
    RunIsLines(ls, script);
    if OneLineScript(script) {
      forall i | 0 <= i < |script| ensures Stable(once, script[i]) { RunStabilises(ls, script, i); }
      RerunFixed(once, script, again);
    } else {
      forall i | 0 <= i < |again| && again[i].rule.Const?
        ensures HasKey(once, again[i].keys[|again[i].keys| - 1])
      {
        assert Alike(script[i], again[i]);
        RunSetsKey(ls, script, i);
      }
      AlikeOneLine(script, again);
      RunGrows(once, again);
    }
  }

  /** Running a script again, with whatever random draws, leaves every byte of its own
      output alone exactly when none of its constants breaks a line. */
  lemma RerunIff(file: File, script: seq<Step>, again: seq<Step>)
    requires HasKeys(script) && HasKeys(again) && WellFormed(script) && WellFormed(again) && AlikeScripts(script, again)
    requires EndsPlain(script) && EndsPlain(again)
    ensures Run(Run(file, script), again) == Run(file, script) <==> OneLineScript(script)
  {
    var once := Run(file, script);
    LinesOfFile(file);
    RunReadsBack(file, script);
    RunReadsBack(once, again);
    RunEndsClean(file, script);
    RunEndsClean(once, again);
    RerunLinesIff(LinesOf(file), script, again);
    if LinesOf(Run(once, again)) == LinesOf(once) {
      CleanFilesAgree(once.value, Run(once, again).value);
    }
  }

  lemma AlikeOneLine(script: seq<Step>, again: seq<Step>)
    requires AlikeScripts(script, again)
    ensures OneLineScript(script) <==> OneLineScript(again)
  {
    forall i | 0 <= i < |script| ensures OneLineStep(script[i]) <==> OneLineStep(again[i]) {
      assert Alike(script[i], again[i]);
    }
  }

  predicate SparedAfter(script: seq<Step>, i: nat)
    requires i < |script|
  {
    forall m | i < m < |script| :: Spares(script[m], script[i].keys)
  }

  /** What an edit has settled stays settled if the later edits spare its keys. */
  lemma {:induction false} RunSettles(ls: seq<string>, script: seq<Step>, i: nat) returns (v: string)
    requires AllLines(ls) && HasKeys(script) && WellFormed(script) && i < |script|
    requires OneLineStep(script[i]) && !script[i].rule.Default? && SparedAfter(script, i)
    ensures Plain(v) && Fixpoint(script[i].rule, v) && AllSettled(RunLines(ls, script), script[i].keys, v)
  {
    var n := |script| - 1;
    var before := RunLines(ls, script[..n]);
    RunIsLines(ls, script[..n]);
    if i == n {
      StepStabilises(before, script[n]);
      v :| Plain(v) && Fixpoint(script[n].rule, v) && AllSettled(StepLines(before, script[n]), script[n].keys, v);
    } else {
      v := RunSettles(ls, script[..n], i);
      StepKeepsSettled(before, script[n], script[i], v);
    }
  }

  /** The keys an edit sets together hold one and the same value after the run, whatever
      the edits before it wrote, unless a later one writes a line that sets one of them. */
  lemma SharedKeysAgree(file: File, script: seq<Step>, i: nat, a: nat, b: nat)
    requires HasKeys(script) && WellFormed(script) && i < |script| && OneLineStep(script[i]) && SparedAfter(script, i)
    requires !script[i].rule.Default? && a < |script[i].keys| && b < |script[i].keys|
    ensures var after := Run(file, script);
            Read(after, script[i].keys[a]).Some? && Read(after, script[i].keys[a]) == Read(after, script[i].keys[b]) &&
            Fixpoint(script[i].rule, Read(after, script[i].keys[a]).value)
  {
    var after := Run(file, script);
    LinesOfFile(file);
    LinesOfFile(after);
    RunReadsBack(file, script);
    var v := RunSettles(LinesOf(file), script, i);
    SettledKeyReads(after, script[i], a, v);
    SettledKeyReads(after, script[i], b, v);
  }

  lemma SettledKeyReads(file: File, step: Step, a: nat, v: string)
    requires GoodStep(step) && a < |step.keys| && Plain(v) && AllSettled(LinesOf(file), step.keys, v)
    ensures Read(file, step.keys[a]) == Some(v)
  {
    LinesOfFile(file);
    assert IsKey(step.keys[a]) && Settled(LinesOf(file), step.keys[a], v);
    SettledReads(LinesOf(file), step.keys[a], v);
    ReadsLines(file, step.keys[a]);
  }
}
