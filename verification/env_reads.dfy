/** What a script of .env edits leaves to be read, key by key. */
module EnvReads {
  import opened Options
  import opened EnvText
  import opened EnvFile
  import opened EnvScript
  import opened EnvRerun

  /** The value of a key after its edit, given the one its first key had before. */
  function Final(rule: Rule, current: Option<string>): Option<string> {
    var v := Chosen(rule, current);
    if v.None? then current else Some(Effective(v.value))
  }

  predicate Touches(step: Step, key: string) { key in step.keys }

  lemma {:induction false} PutAllSpares(file: File, keys: seq<string>, v: string, key: string)
    requires AreKeys(keys) && IsKey(key) && key !in keys && OneLine(v)
    ensures Read(PutAll(file, keys, v), key) == Read(file, key)
  {
    if keys != [] {
      var n := |keys| - 1;
      PutAllSpares(file, keys[..n], v, key);
      assert IsKey(keys[n]) && keys[n] in keys;
      OtherKeysUntouched(PutAll(file, keys[..n], v), keys[n], v, key);
    }
  }

  lemma ChosenIsOneLine(file: File, step: Step)
    requires GoodStep(step) && OneLineStep(step) && Chosen(step.rule, Read(file, step.keys[0])).Some?
    ensures OneLine(Chosen(step.rule, Read(file, step.keys[0])).value)
    ensures Plain(Effective(Chosen(step.rule, Read(file, step.keys[0])).value))
  {
    LinesOfFile(file);
    ReadsLines(file, step.keys[0]);
    ChosenAtKey(LinesOf(file), step);
  }

  lemma StepSpares(file: File, step: Step, key: string)
    requires GoodStep(step) && OneLineStep(step) && IsKey(key) && !Touches(step, key)
    ensures Read(DoStep(file, step), key) == Read(file, key)
  {
    var v := Chosen(step.rule, Read(file, step.keys[0]));
    if v.Some? {
      ChosenIsOneLine(file, step);
      PutAllSpares(file, step.keys, v.value, key);
    }
  }

  lemma PutAllReads(file: File, keys: seq<string>, v: string, a: nat)
    requires AreKeys(keys) && NoRepeat(keys) && a < |keys| && OneLine(v) && Plain(Effective(v))
    ensures Read(PutAll(file, keys, v), keys[a]) == Some(Effective(v))
  {
    LinesOfFile(file);
    LinesOfFile(PutAll(file, keys, v));
    PutSettles(LinesOf(file), keys, v);
    PutAllReadsBack(file, keys, v);
    assert IsKey(keys[a]) && Settled(LinesOf(PutAll(file, keys, v)), keys[a], Effective(v));
    SettledReads(LinesOf(PutAll(file, keys, v)), keys[a], Effective(v));
    ReadsLines(PutAll(file, keys, v), keys[a]);
  }

  lemma StepReads(file: File, step: Step, a: nat)
    requires GoodStep(step) && OneLineStep(step) && a < |step.keys|
    ensures Read(DoStep(file, step), step.keys[a]) == Final(step.rule, Read(file, step.keys[0]))
  {
    var v := Chosen(step.rule, Read(file, step.keys[0]));
    if v.Some? {
      ChosenIsOneLine(file, step);
      PutAllReads(file, step.keys, v.value, a);
    }
  }

  predicate Outside(script: seq<Step>, key: string) { forall i | 0 <= i < |script| :: !Touches(script[i], key) }

  /** A key that no edit writes reads as before. */
  lemma {:induction false} OutsideReadsAsBefore(file: File, script: seq<Step>, key: string)
    requires HasKeys(script) && (forall i | 0 <= i < |script| :: GoodStep(script[i])) && OneLineScript(script)
    requires IsKey(key) && Outside(script, key)
    ensures Read(Run(file, script), key) == Read(file, key)
  {
    if script != [] {
      var n := |script| - 1;
      assert forall i | 0 <= i < n :: script[..n][i] == script[i];
      OutsideReadsAsBefore(file, script[..n], key);
      assert OneLineStep(script[n]);
      StepSpares(Run(file, script[..n]), script[n], key);
    }
  }

  lemma OthersAreOutside(script: seq<Step>, i: nat, key: string)
    requires WellFormed(script) && i < |script| && Touches(script[i], key)
    ensures Outside(script[..i], key)
    ensures forall m | i < m < |script| :: !Touches(script[m], key)
  {
    forall m | 0 <= m < |script| && m != i ensures !Touches(script[m], key) {
      assert Disjoint(script[if i < m then i else m].keys, script[if i < m then m else i].keys);
      var a :| 0 <= a < |script[i].keys| && script[i].keys[a] == key;
    }
  }

  lemma PrefixIsWellFormed(script: seq<Step>)
    requires script != [] && HasKeys(script) && WellFormed(script) && OneLineScript(script)
    ensures var past := script[..|script| - 1]; HasKeys(past) && WellFormed(past) && OneLineScript(past)
    ensures GoodStep(script[|script| - 1]) && OneLineStep(script[|script| - 1])
  {
    assert forall m | 0 <= m < |script| - 1 :: script[..|script| - 1][m] == script[m];
  }

  lemma LastKeyReads(file: File, script: seq<Step>, a: nat)
    requires HasKeys(script) && WellFormed(script) && OneLineScript(script) && script != []
    requires a < |script[|script| - 1].keys|
    ensures var last := script[|script| - 1];
            Read(Run(file, script), last.keys[a]) == Final(last.rule, Read(file, last.keys[0]))
  {
    var n := |script| - 1;
    var past, last := script[..n], script[n];
    PrefixIsWellFormed(script);
    assert IsKey(last.keys[0]);
    OthersAreOutside(script, n, last.keys[0]);
    OutsideReadsAsBefore(file, past, last.keys[0]);
    StepReads(Run(file, past), last, a);
  }

  lemma LastSpares(file: File, script: seq<Step>, i: nat, key: string)
    requires HasKeys(script) && WellFormed(script) && OneLineScript(script) && i < |script| - 1
    requires Touches(script[i], key)
    ensures HasKeys(script[..|script| - 1])
    ensures Read(Run(file, script), key) == Read(Run(file, script[..|script| - 1]), key)
  {
    PrefixIsWellFormed(script);
    OthersAreOutside(script, i, key);
    assert GoodStep(script[i]);
    StepSpares(Run(file, script[..|script| - 1]), script[|script| - 1], key);
  }

  /** Every key of an edit reads as that edit decided, from what its first key was before the
      run: no other edit of the script interferes. */
  lemma {:induction false} EveryKeyReads(file: File, script: seq<Step>, i: nat, a: nat)
    requires HasKeys(script) && WellFormed(script) && OneLineScript(script) && i < |script| && a < |script[i].keys|
    ensures Read(Run(file, script), script[i].keys[a]) == Final(script[i].rule, Read(file, script[i].keys[0]))
  {
    PrefixIsWellFormed(script);
    if i == |script| - 1 {
      LastKeyReads(file, script, a);
    } else {
      EveryKeyReads(file, script[..|script| - 1], i, a);
      LastSpares(file, script, i, script[i].keys[a]);
    }
  }
}
