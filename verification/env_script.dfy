/** A sequence of .env edits, such as prepare_env makes, and what running it again does. */
module EnvScript {
  import opened Options
  import opened Text
  import opened EnvText
  import opened EnvFile

  // ------------------------------------------------------------------ normalisation

  function OrEmpty(v: Option<string>): string { if v.Some? then v.value else "" }

  predicate IsTrueWord(s: string) { s == "true" || s == "1" || s == "yes" || s == "y" || s == "on" }

  predicate IsFalseWord(s: string) { s == "false" || s == "0" || s == "no" || s == "n" || s == "off" }

  /** normalize_bool */
  function NormalizeBool(v: string, default: string): string {
    var s := Lower(Strip(v));
    if IsTrueWord(s) then "true" else if IsFalseWord(s) then "false" else default
  }

  /** normalize_choice */
  function NormalizeChoice(v: string, allowed: seq<string>, default: string): string {
    var s := Lower(Strip(v));
    if exists a <- allowed :: Lower(a) == s then s else default
  }

  const PROVIDERS := ["local", "oidc", "keycloak"]

  // ------------------------------------------------------------------ steps

  /** How an edit finds the value it writes. */
  datatype Rule =
    | Const(value: string)     // upsert_env(key, value)
    | Default(value: string)   // upsert_env_if_missing(key, value)
    | Choice                   // AUTH_PROVIDER
    | Flag                     // AUTH_PASSWORD_FLOW_ENABLED
    | Secret(drawn: string)    // read_env_value(key) or a random string

  /** The value is read from the first key and written to all of them in order. */
  datatype Step = Step(keys: seq<string>, rule: Rule)

  /** The value to write, or None to leave the file alone. */
  function Chosen(rule: Rule, current: Option<string>): Option<string> {
    match rule
    case Const(v) => Some(v)
    case Default(v) => if current.None? then Some(v) else None
    case Choice => Some(NormalizeChoice(OrEmpty(current), PROVIDERS, "local"))
    case Flag => Some(NormalizeBool(OrEmpty(current), "true"))
    case Secret(drawn) => Some(if OrEmpty(current) == "" then drawn else current.value)
  }

  function PutAll(file: File, keys: seq<string>, v: string): File {
    if keys == [] then file
    else Some(Upsert(PutAll(file, keys[..|keys| - 1], v), keys[|keys| - 1], v))
  }

  function DoStep(file: File, step: Step): File
    requires step.keys != []
  {
    var v := Chosen(step.rule, Read(file, step.keys[0]));
    if v.None? then file else PutAll(file, step.keys, v.value)
  }

  predicate HasKeys(script: seq<Step>) { forall i | 0 <= i < |script| :: script[i].keys != [] }

  function Run(file: File, script: seq<Step>): File
    requires HasKeys(script)
  {
    if script == [] then file else DoStep(Run(file, script[..|script| - 1]), script[|script| - 1])
  }

  // ------------------------------------------------------------------ the same on lines

  function PutLines(ls: seq<string>, keys: seq<string>, v: string): seq<string> {
    if keys == [] then ls
    else UpsertedLines(PutLines(ls, keys[..|keys| - 1], v), keys[|keys| - 1], v)
  }

  function StepLines(ls: seq<string>, step: Step): seq<string>
    requires step.keys != []
  {
    var v := Chosen(step.rule, ReadLines(ls, step.keys[0]));
    if v.None? then ls else PutLines(ls, step.keys, v.value)
  }

  function RunLines(ls: seq<string>, script: seq<Step>): seq<string>
    requires HasKeys(script)
  {
    if script == [] then ls else StepLines(RunLines(ls, script[..|script| - 1]), script[|script| - 1])
  }

  lemma ReadsLines(file: File, key: string)
    ensures Read(file, key) == ReadLines(LinesOf(file), key)
  {
  }

  lemma {:induction false} PutAllReadsBack(file: File, keys: seq<string>, v: string)
    ensures LinesOf(PutAll(file, keys, v)) == PutLines(LinesOf(file), keys, v)
  {
    if keys != [] {
      var n := |keys| - 1;
      PutAllReadsBack(file, keys[..n], v);
      UpsertReadsBack(PutAll(file, keys[..n], v), keys[n], v);
    }
  }

  lemma StepReadsBack(file: File, step: Step)
    requires step.keys != []
    ensures LinesOf(DoStep(file, step)) == StepLines(LinesOf(file), step)
  {
    ReadsLines(file, step.keys[0]);
    var v := Chosen(step.rule, Read(file, step.keys[0]));
    if v.Some? { PutAllReadsBack(file, step.keys, v.value); }
  }

  lemma {:induction false} RunReadsBack(file: File, script: seq<Step>)
    requires HasKeys(script)
    ensures LinesOf(Run(file, script)) == RunLines(LinesOf(file), script)
  {
    if script != [] {
      var n := |script| - 1;
      RunReadsBack(file, script[..n]);
      StepReadsBack(Run(file, script[..n]), script[n]);
    }
  }

  lemma {:induction false} SubstitutedAllLines(ls: seq<string>, key: string, block: seq<string>)
    requires AllLines(ls) && AllLines(block)
    ensures AllLines(Substituted(ls, key, block))
  {
    if ls != [] {
      assert forall i | 0 <= i < |ls| - 1 :: ls[1..][i] == ls[i + 1];
      SubstitutedAllLines(ls[1..], key, block);
    }
  }

  lemma UpsertedAllLines(ls: seq<string>, key: string, v: string)
    requires AllLines(ls) && Plain(key)
    ensures AllLines(UpsertedLines(ls, key, v))
  {
    BlockSetsKey(key, v);
    SubstitutedAllLines(ls, key, Block(key, v));
    if ls != [] && !EndsWithNewline(ls[|ls| - 1]) { TerminatedAllLines(ls[|ls| - 1]); }
  }

  lemma TerminatedAllLines(line: string)
    requires IsLine(line)
    ensures AllLines(Terminated(line))
  {
    if !EndsLine(line) { assert (line + "\n")[..|line|] == line; }
  }

  // ------------------------------------------------------------------ settled keys

  predicate OnlySets(ls: seq<string>, key: string, v: string) {
    forall i | 0 <= i < |ls| && Sets(ls[i], key) :: ls[i] == Setting(key, v)
  }

  /** The key is set, and every line that sets it sets it to v. */
  predicate Settled(ls: seq<string>, key: string, v: string) { HasKey(ls, key) && OnlySets(ls, key, v) }

  lemma {:induction false} SubstitutedSettled(ls: seq<string>, key: string, v: string)
    requires OnlySets(ls, key, v)
    ensures Substituted(ls, key, [Setting(key, v)]) == ls
  {
    if ls != [] {
      assert forall i | 0 <= i < |ls| - 1 :: ls[1..][i] == ls[i + 1];
      SubstitutedSettled(ls[1..], key, v);
    }
  }

  /** Writing a value again changes no line. */
  lemma SettledIsFixed(ls: seq<string>, key: string, v: string)
    requires Plain(key) && OneLine(v) && Settled(ls, key, Effective(v))
    ensures UpsertedLines(ls, key, v) == ls
  {
    OneLineBlock(key, v);
    SubstitutedSettled(ls, key, Effective(v));
  }

  lemma {:induction false} SubstitutedOnly(ls: seq<string>, key: string, v: string)
    ensures OnlySets(Substituted(ls, key, [Setting(key, v)]), key, v)
    ensures |Substituted(ls, key, [Setting(key, v)])| == |ls|
    ensures forall i | 0 <= i < |ls| ::
              Substituted(ls, key, [Setting(key, v)])[i] == if Sets(ls[i], key) then Setting(key, v) else ls[i]
  {
    if ls != [] {
      SubstitutedOnly(ls[1..], key, v);
      var rest := Substituted(ls[1..], key, [Setting(key, v)]);
      var all := Substituted(ls, key, [Setting(key, v)]);
      assert all == [if Sets(ls[0], key) then Setting(key, v) else ls[0]] + rest;
      assert forall i | 0 < i < |ls| :: all[i] == rest[i - 1];
    }
  }

  /** Ending the last line adds no line that sets a key and takes none away. */
  lemma EndedSets(ls: seq<string>, key: string, i: nat)
    requires AllLines(ls) && Plain(key)
    ensures |Ended(ls)| >= |ls|
    ensures i < |ls| ==> (Sets(Ended(ls)[i], key) <==> Sets(ls[i], key))
    ensures |ls| <= i < |Ended(ls)| ==> !Sets(Ended(ls)[i], key)
    ensures i < |ls| - 1 ==> Ended(ls)[i] == ls[i]
  {
    var n := |ls| - 1;
    if ls != [] && !EndsWithNewline(ls[n]) {
      NewlineSetsNothing(ls[n], key);
      var t := Terminated(ls[n]);
      assert Ended(ls) == ls[..n] + t;
    }
  }

  lemma EndedHasKey(ls: seq<string>, key: string)
    requires AllLines(ls) && Plain(key)
    ensures HasKey(ls, key) <==> HasKey(Ended(ls), key)
  {
    forall i: nat | i < |Ended(ls)| ensures Sets(Ended(ls)[i], key) <==> i < |ls| && Sets(ls[i], key) {
      EndedSets(ls, key, i);
    }
    if HasKey(ls, key) {
      var i :| 0 <= i < |ls| && Sets(ls[i], key);
      EndedSets(ls, key, i);
    }
  }

  lemma EndedOnly(ls: seq<string>, key: string, v: string)
    requires AllLines(ls) && Plain(key)
    ensures HasKey(ls, key) <==> HasKey(Ended(ls), key)
    ensures Settled(ls, key, v) ==> Settled(Ended(ls), key, v)
  {
    EndedHasKey(ls, key);
    if Settled(ls, key, v) {
      forall i: nat | i < |Ended(ls)| && Sets(Ended(ls)[i], key) ensures Ended(ls)[i] == Setting(key, v) {
        EndedSets(ls, key, i);
        assert Sets(ls[i], key);
        if i == |ls| - 1 { assert EndsWithNewline(ls[i]); }
      }
    }
  }

  /** After writing a value, its key is settled. */
  lemma SettledAfter(ls: seq<string>, key: string, v: string)
    requires AllLines(ls) && Plain(key) && OneLine(v)
    ensures Settled(UpsertedLines(ls, key, v), key, Effective(v))
  {
    var w := Effective(v);
    var after := UpsertedLines(ls, key, v);
    OneLineBlock(key, v);
    assert Sets(Setting(key, w), key);
    if HasKey(ls, key) {
      SubstitutedOnly(ls, key, w);
      var i :| 0 <= i < |ls| && Sets(ls[i], key);
      assert Sets(after[i], key);
    } else {
      EndedOnly(ls, key, w);
      assert after[|after| - 1] == Setting(key, w);
      assert Sets(after[|after| - 1], key);
      assert forall i | 0 <= i < |after| - 1 :: after[i] == Ended(ls)[i] && !Sets(Ended(ls)[i], key);
    }
  }

  // ------------------------------------------------------------------ keys stay, lines only grow

  lemma {:induction false} SubstitutedGrows(ls: seq<string>, key: string, block: seq<string>)
    requires block != []
    ensures |Substituted(ls, key, block)| >= |ls|
    ensures |block| >= 2 && HasKey(ls, key) ==> |Substituted(ls, key, block)| > |ls|
  {
    if ls != [] {
      SubstitutedGrows(ls[1..], key, block);
      if HasKey(ls, key) && !Sets(ls[0], key) {
        var i :| 0 <= i < |ls| && Sets(ls[i], key);
        assert Sets(ls[1..][i - 1], key);
      }
    }
  }

  /** A value with a line boundary inside adds lines each time it replaces itself. */
  lemma UpsertGrows(ls: seq<string>, key: string, v: string)
    requires AllLines(ls) && Plain(key)
    ensures |UpsertedLines(ls, key, v)| >= |ls|
    ensures HasKey(ls, key) && !OneLine(v) ==> |UpsertedLines(ls, key, v)| > |ls|
  {
    BlockIsOneLineIff(key, v);
    SubstitutedGrows(ls, key, Block(key, v));
  }

  lemma {:induction false} SubstitutedKeeps(ls: seq<string>, key: string, block: seq<string>, other: string)
    requires block != [] && Sets(block[0], key) && HasKey(ls, other)
    requires IsKey(key) && IsKey(other)
    ensures HasKey(Substituted(ls, key, block), other)
  {
    var i :| 0 <= i < |ls| && Sets(ls[i], other);
    var head := if Sets(ls[0], key) then block else [ls[0]];
    var rest := Substituted(ls[1..], key, block);
    if i == 0 {
      if Sets(ls[0], key) { SameKeyIfSame(ls[0], key, other); }
      assert Sets((head + rest)[0], other);
    } else {
      assert Sets(ls[1..][i - 1], other);
      SubstitutedKeeps(ls[1..], key, block, other);
      var j :| 0 <= j < |rest| && Sets(rest[j], other);
      assert Sets((head + rest)[|head| + j], other);
    }
  }

  lemma UpsertKeepsKeys(ls: seq<string>, key: string, v: string, other: string)
    requires AllLines(ls) && IsKey(key) && IsKey(other)
    requires HasKey(ls, other) || key == other
    ensures HasKey(UpsertedLines(ls, key, v), other)
  {
    var block := Block(key, v);
    BlockSetsKey(key, v);
    if HasKey(ls, key) {
      SubstitutedKeeps(ls, key, block, other);
    } else {
      var e := Ended(ls);
      EndedOnly(ls, other, v);
      if key == other {
        assert Sets((e + block)[|e|], other);
      } else {
        var i :| 0 <= i < |e| && Sets(e[i], other);
        assert Sets((e + block)[i], other);
      }
    }
  }

  // ------------------------------------------------------------------ other keys stay settled

  /** No line that the setting writes sets the other key. */
  predicate Misses(key: string, v: string, other: string) { OneLine(v) || !HasKey(Block(key, v), other) }

  lemma MissesMeans(key: string, v: string, other: string)
    requires IsKey(key) && IsKey(other) && key != other && Misses(key, v, other)
    ensures !HasKey(Block(key, v), other)
  {
    if OneLine(v) {
      OneLineBlock(key, v);
      OtherKeysSetting(key, other, Effective(v));
    }
  }

  lemma OnlySetsConcat(a: seq<string>, b: seq<string>, key: string, v: string)
    requires OnlySets(a, key, v) && OnlySets(b, key, v)
    ensures OnlySets(a + b, key, v)
  {
  }

  lemma {:induction false} SubstitutedSpares(ls: seq<string>, key: string, block: seq<string>, other: string, w: string)
    requires OnlySets(ls, other, w) && !HasKey(block, other)
    ensures OnlySets(Substituted(ls, key, block), other, w)
  {
    if ls != [] {
      assert forall i | 0 <= i < |ls| - 1 :: ls[1..][i] == ls[i + 1];
      SubstitutedSpares(ls[1..], key, block, other, w);
      OnlySetsConcat(if Sets(ls[0], key) then block else [ls[0]], Substituted(ls[1..], key, block), other, w);
    }
  }

  /** Writing another key keeps a key settled. */
  lemma SettledKept(ls: seq<string>, key: string, v: string, other: string, w: string)
    requires AllLines(ls) && IsKey(key) && IsKey(other) && key != other && Misses(key, v, other)
    requires Settled(ls, other, w)
    ensures Settled(UpsertedLines(ls, key, v), other, w)
  {
    MissesMeans(key, v, other);
    UpsertKeepsKeys(ls, key, v, other);
    if HasKey(ls, key) {
      SubstitutedSpares(ls, key, Block(key, v), other, w);
    } else {
      EndedOnly(ls, other, w);
      OnlySetsConcat(Ended(ls), Block(key, v), other, w);
    }
  }

  // ------------------------------------------------------------------ idempotence of one edit

  lemma {:induction false} ReplaceAgain(ls: seq<string>, key: string, v: string, line: string)
    requires Sets(line, key)
    ensures Replaced(Substituted(ls, key, [line]), key, v) == Replaced(ls, key, v)
  {
    if ls != [] {
      ReplaceAgain(ls[1..], key, v, line);
      assert Substituted(ls, key, [line])[1..] == Substituted(ls[1..], key, [line]);
    }
  }

  lemma {:induction false} ReplacedNothing(ls: seq<string>, key: string, v: string)
    requires !HasKey(ls, key)
    ensures Replaced(ls, key, v) == ls
  {
    if ls != [] {
      assert !Sets(ls[0], key);
      assert forall i | 0 <= i < |ls| - 1 :: ls[1..][i] == ls[i + 1];
      ReplacedNothing(ls[1..], key, v);
    }
  }

  lemma {:induction false} ReplacedConcat(a: seq<string>, b: seq<string>, key: string, v: string)
    ensures Replaced(a + b, key, v) == Replaced(a, key, v) + Replaced(b, key, v)
  {
    if a == [] {
      assert a + b == b;
    } else {
      assert (a + b)[1..] == a[1..] + b;
      ReplacedConcat(a[1..], b, key, v);
    }
  }

  lemma {:induction false} JoinConcat(a: seq<string>, b: seq<string>)
    ensures Join(a + b) == Join(a) + Join(b)
  {
    if a == [] {
      assert a + b == b;
    } else {
      assert (a + b)[1..] == a[1..] + b;
      JoinConcat(a[1..], b);
    }
  }

  lemma JoinEnded(ls: seq<string>)
    ensures Join(Ended(ls)) == Join(Closed(ls))
  {
    if ls != [] && !EndsWithNewline(ls[|ls| - 1]) {
      var n := |ls| - 1;
      JoinConcat(ls[..n], Terminated(ls[n]));
      JoinConcat(ls[..n], [ls[n] + "\n"]);
      assert Join(["\n"]) == "\n" by { assert ["\n"][1..] == []; }
      assert [ls[n], "\n"][1..] == ["\n"] && [ls[n] + "\n"][1..] == [];
    }
  }

  /** upsert_env is idempotent, byte for byte, exactly for one-line values. */
  lemma UpsertIdempotentIff(file: File, key: string, v: string)
    requires IsKey(key)
    ensures Upsert(Some(Upsert(file, key, v)), key, v) == Upsert(file, key, v) <==> OneLine(v)
  {
    var ls := LinesOf(file);
    var once := Some(Upsert(file, key, v));
    LinesOfFile(file);
    LinesOfFile(once);
    UpsertReadsBack(file, key, v);
    UpsertReadsBack(once, key, v);
    UpsertKeepsKeys(ls, key, v, key);
    UpsertGrows(LinesOf(once), key, v);
    if OneLine(v) { UpsertAgain(ls, key, v); }
  }

  lemma UpsertAgain(ls: seq<string>, key: string, v: string)
    requires AllLines(ls) && IsKey(key) && OneLine(v)
    ensures Join(Patched(UpsertedLines(ls, key, v), key, v)) == Join(Patched(ls, key, v))
  {
    var line := Setting(key, Effective(v));
    OneLineBlock(key, v);
    UpsertKeepsKeys(ls, key, v, key);
    if HasKey(ls, key) {
      ReplaceAgain(ls, key, v, line);
    } else {
      var e := Ended(ls);
      EndedOnly(ls, key, v);
      ReplacedConcat(e, [line], key, v);
      ReplacedNothing(e, key, v);
      assert Replaced([line], key, v) == [Setting(key, v)] by { assert [line][1..] == []; }
      JoinConcat(e, [Setting(key, v)]);
      JoinConcat(Closed(ls), [Setting(key, v)]);
      JoinEnded(ls);
    }
  }
}
