/**
 The life of one published runtime snapshot (`internal/gateway/runtime.go`).

 Each step is a single atomic operation, or the locked body of `closeOnce`, by one of any number of
 goroutines. `fused` asks what would hold if `release` decremented and tested in one operation; the
 code does not, and the difference is the subject of `NeverClosedWhileHeldIffFused`.
 */
module Snapshots {

  datatype Phase =
    | Idle
    | Entered   // acquire: counted, `retired` not yet read
    | Holding   // acquire returned true
    | Leaving   // acquire saw `retired` and is about to release
    | SawZero   // release: dropped the count to zero, `retired` not yet read
    | Retiring  // retire: `retired` stored, the count not yet read
    | Closing   // about to call close

  datatype Snapshot = Snapshot(refs: int, retired: bool, done: bool, closes: nat, phases: map<nat, Phase>)

  const Fresh := Snapshot(0, false, false, 0, map[])

  function PhaseOf(s: Snapshot, t: nat): Phase {
    if t in s.phases then s.phases[t] else Idle
  }

  function Put(s: Snapshot, t: nat, phase: Phase): Snapshot {
    s.(phases := s.phases[t := phase])
  }

  datatype Step =
    | Enter(t: nat)
    | ReadRetired(t: nat)
    | Leave(t: nat)
    | CheckRetired(t: nat)
    | Retire(t: nat)
    | ReadRefs(t: nat)
    | Close(t: nat)

  predicate Enabled(s: Snapshot, st: Step) {
    match st
    case Enter(t) => PhaseOf(s, t).Idle?
    case ReadRetired(t) => PhaseOf(s, t).Entered?
    case Leave(t) => PhaseOf(s, t).Holding? || PhaseOf(s, t).Leaving?
    case CheckRetired(t) => PhaseOf(s, t).SawZero?
    case Retire(t) => PhaseOf(s, t).Idle?
    case ReadRefs(t) => PhaseOf(s, t).Retiring?
    case Close(t) => PhaseOf(s, t).Closing?
  }

  function Next(s: Snapshot, st: Step, fused: bool): Snapshot {
    match st
    case Enter(t) => Put(s.(refs := s.refs + 1), t, Entered)
    case ReadRetired(t) => Put(s, t, if s.retired then Leaving else Holding)
    case Leave(t) =>
      var left := s.(refs := s.refs - 1);
      if left.refs != 0 then Put(left, t, Idle)
      else if !fused then Put(left, t, SawZero)
      else Put(left, t, if s.retired then Closing else Idle)
    case CheckRetired(t) => Put(s, t, if s.retired then Closing else Idle)
    case Retire(t) => Put(s.(retired := true), t, Retiring)
    case ReadRefs(t) => Put(s, t, if s.refs == 0 then Closing else Idle)
    case Close(t) => Put(if s.done then s else s.(done := true, closes := s.closes + 1), t, Idle)
  }

  predicate Run(s: Snapshot, steps: seq<Step>, fused: bool)
    decreases |steps|
  {
    steps == [] || (Enabled(s, steps[0]) && Run(Next(s, steps[0], fused), steps[1..], fused))
  }

  function Final(s: Snapshot, steps: seq<Step>, fused: bool): Snapshot
    decreases |steps|
  {
    if steps == [] then s else Final(Next(s, steps[0], fused), steps[1..], fused)
  }

  // ------------------------------------------------------------ what every interleaving keeps

  predicate Counts(phase: Phase) {
    phase.Entered? || phase.Holding? || phase.Leaving?
  }

  function Counted(s: Snapshot): set<nat> {
    set t | t in s.phases && Counts(s.phases[t])
  }

  /** Someone is on the way to closing a retired snapshot. */
  predicate Closer(phase: Phase) {
    phase.SawZero? || phase.Retiring? || phase.Closing?
  }

  predicate Inv(s: Snapshot) {
    && s.refs == |Counted(s)|
    && s.closes == (if s.done then 1 else 0)
    && (forall t | t in s.phases :: s.phases[t].Retiring? || s.phases[t].Closing? ==> s.retired)
    && (s.done ==> s.retired)
    && (s.retired && !s.done ==> s.refs > 0 || exists t | t in s.phases :: Closer(s.phases[t]))
  }

  lemma PutCounts(s: Snapshot, t: nat, phase: Phase)
    ensures Counted(Put(s, t, phase)) ==
            if Counts(phase) then Counted(s) + {t} else Counted(s) - {t}
  {}

  function Weight(phase: Phase): int {
    if Counts(phase) then 1 else 0
  }

  lemma PutChangesCount(s: Snapshot, t: nat, phase: Phase)
    ensures |Counted(Put(s, t, phase))| == |Counted(s)| + Weight(phase) - Weight(PhaseOf(s, t))
  {
    PutCounts(s, t, phase);
    AddedOrNot(Counted(s), t);
    assert t in Counted(s) <==> Counts(PhaseOf(s, t));
  }

  lemma AddedOrNot(ts: set<nat>, t: nat)
    ensures |ts + {t}| == |ts| + (if t in ts then 0 else 1)
    ensures |ts - {t}| == |ts| - (if t in ts then 1 else 0)
  {
    if t in ts {
      assert ts + {t} == ts;
    } else {
      assert ts - {t} == ts;
    }
  }

  lemma StepMovesOnePhase(s: Snapshot, st: Step, fused: bool)
    requires Enabled(s, st)
    ensures var s' := Next(s, st, fused);
            && s'.phases == s.phases[st.t := PhaseOf(s', st.t)]
            && s'.refs == s.refs + Weight(PhaseOf(s', st.t)) - Weight(PhaseOf(s, st.t))
  {}

  lemma StepKeepsCount(s: Snapshot, st: Step, fused: bool)
    requires s.refs == |Counted(s)| && Enabled(s, st)
    ensures Next(s, st, fused).refs == |Counted(Next(s, st, fused))|
  {
    var s' := Next(s, st, fused);
    StepMovesOnePhase(s, st, fused);
    PutChangesCount(s, st.t, PhaseOf(s', st.t));
    assert Counted(s') == Counted(Put(s, st.t, PhaseOf(s', st.t)));
  }

  /** Whoever leaves a retired, unclosed snapshot unreferenced is on the way to closing it. */
  lemma CloserRemains(s: Snapshot, st: Step, fused: bool)
    requires Inv(s) && Enabled(s, st)
    ensures var s' := Next(s, st, fused);
            s'.retired && !s'.done && s'.refs <= 0 ==> st.t in s'.phases && Closer(s'.phases[st.t])
  {
    if Counts(PhaseOf(s, st.t)) {
      assert st.t in Counted(s);
    }
  }

  lemma StepKeepsInv(s: Snapshot, st: Step, fused: bool)
    requires Inv(s) && Enabled(s, st)
    ensures Inv(Next(s, st, fused))
  {
    StepKeepsCount(s, st, fused);
    CloserRemains(s, st, fused);
  }

  lemma {:induction false} RunKeepsInv(s: Snapshot, steps: seq<Step>, fused: bool)
    requires Inv(s) && Run(s, steps, fused)
    ensures Inv(Final(s, steps, fused))
    decreases |steps|
  {
    if steps != [] {
      StepKeepsInv(s, steps[0], fused);
      RunKeepsInv(Next(s, steps[0], fused), steps[1..], fused);
    }
  }

  /** At the grain of single atomic operations the close body runs at most once. */
  lemma ClosedAtMostOnce(steps: seq<Step>, fused: bool)
    requires Run(Fresh, steps, fused)
    ensures Final(Fresh, steps, fused).closes <= 1
  {
    RunKeepsInv(Fresh, steps, fused);
  }

  predicate Quiescent(s: Snapshot) {
    forall t | t in s.phases :: s.phases[t].Idle?
  }

  /** At the same grain nothing leaks: retired, unreferenced and at rest means closed. */
  lemma NoLeakAtQuiescence(steps: seq<Step>, fused: bool)
    requires Run(Fresh, steps, fused)
    requires Final(Fresh, steps, fused).retired && Quiescent(Final(Fresh, steps, fused))
    ensures Final(Fresh, steps, fused).refs == 0 && Final(Fresh, steps, fused).closes == 1
  {
    RunKeepsInv(Fresh, steps, fused);
    assert Counted(Final(Fresh, steps, fused)) == {};
  }

  // ------------------------------------------------------------ closed while held

  predicate Held(s: Snapshot) {
    exists t | t in s.phases :: s.phases[t].Holding?
  }

  predicate Safe(s: Snapshot) {
    s.done ==> !Held(s)
  }

  /** Once retired, whoever may close has seen that nobody holds the snapshot. */
  predicate SafeInv(s: Snapshot) {
    && Inv(s)
    && (s.retired && (s.done || exists t | t in s.phases :: s.phases[t].SawZero? || s.phases[t].Closing?) ==> !Held(s))
  }

  /** A release stands between its decrement and its test, and somebody has acquired since. */
  predicate Window(s: Snapshot) {
    Held(s) && exists t | t in s.phases :: s.phases[t].SawZero?
  }

  /** The snapshot is not retired inside that window. */
  predicate Clear(s: Snapshot, st: Step) {
    st.Retire? && !s.retired ==> !Window(s)
  }

  predicate ClearRun(s: Snapshot, steps: seq<Step>, fused: bool)
    decreases |steps|
  {
    steps == [] || (Clear(s, steps[0]) && ClearRun(Next(s, steps[0], fused), steps[1..], fused))
  }

  lemma ZeroMeansUnheld(s: Snapshot)
    requires s.refs == 0 && s.refs == |Counted(s)|
    ensures !Held(s)
  {
    assert Counted(s) == {};
    assert forall t | t in s.phases && s.phases[t].Holding? :: t in Counted(s);
  }

  lemma StepKeepsSafe(s: Snapshot, st: Step, fused: bool)
    requires SafeInv(s) && Enabled(s, st) && Clear(s, st)
    ensures SafeInv(Next(s, st, fused))
  {
    var s' := Next(s, st, fused);
    StepKeepsInv(s, st, fused);
    if s'.refs == 0 { ZeroMeansUnheld(s'); }
    assert forall t | t in s.phases && t != st.t :: s'.phases[t] == s.phases[t];
    if s'.retired && Held(s') {
      var h :| h in s'.phases && s'.phases[h].Holding?;
      assert h in s.phases && s.phases[h].Holding?;
      assert h in Counted(s') && s'.refs > 0;
    }
  }

  lemma {:induction false} ClearRunIsSafe(s: Snapshot, steps: seq<Step>, fused: bool)
    requires SafeInv(s) && Run(s, steps, fused) && ClearRun(s, steps, fused)
    ensures SafeInv(Final(s, steps, fused))
    decreases |steps|
  {
    if steps != [] {
      StepKeepsSafe(s, steps[0], fused);
      ClearRunIsSafe(Next(s, steps[0], fused), steps[1..], fused);
    }
  }

  predicate NoSawZero(s: Snapshot) {
    forall t | t in s.phases :: !s.phases[t].SawZero?
  }

  lemma {:induction false} FusedRunIsClear(s: Snapshot, steps: seq<Step>)
    requires NoSawZero(s) && Run(s, steps, true)
    ensures ClearRun(s, steps, true)
    decreases |steps|
  {
    if steps != [] {
      FusedRunIsClear(Next(s, steps[0], true), steps[1..]);
    }
  }

  /** The only way the code closes a held snapshot: it is retired inside the window. */
  lemma UnsafeNeedsReleaseInWindow(steps: seq<Step>)
    requires Run(Fresh, steps, false) && !Safe(Final(Fresh, steps, false))
    ensures !ClearRun(Fresh, steps, false)
  {
    if ClearRun(Fresh, steps, false) {
      ClearRunIsSafe(Fresh, steps, false);
    }
  }

  lemma {:induction false} RetiredRunIsClear(s: Snapshot, steps: seq<Step>, fused: bool)
    requires s.retired && Run(s, steps, fused)
    ensures ClearRun(s, steps, fused)
    decreases |steps|
  {
    if steps != [] {
      RetiredRunIsClear(Next(s, steps[0], fused), steps[1..], fused);
    }
  }

  /** Retired inside the window: the release goes on to close what the other thread holds. */
  lemma WindowIsFatal(s: Snapshot, t: nat) returns (more: seq<Step>)
    requires Inv(s) && !s.retired && Enabled(s, Retire(t)) && Window(s)
    ensures Run(Next(s, Retire(t), false), more, false) && !Safe(Final(Next(s, Retire(t), false), more, false))
  {
    var a :| a in s.phases && s.phases[a].SawZero?;
    var h :| h in s.phases && s.phases[h].Holding?;
    var s1 := Next(s, Retire(t), false);
    var s2 := Next(s1, CheckRetired(a), false);
    var s3 := Next(s2, Close(a), false);
    Prefixed(s2, Close(a), []);
    Prefixed(s1, CheckRetired(a), [Close(a)] + []);
    more := [CheckRetired(a)] + ([Close(a)] + []);
    assert Final(s1, more, false) == s3;
    assert s3.phases[h].Holding?;
  }

  /**
   When it is safe to retire, for the code as it is: from a reachable state, no continuation closes the
   snapshot under a holder if and only if no release stands in its window while somebody holds.
   */
  lemma RetireIsSafeIff(steps: seq<Step>, t: nat)
    requires Run(Fresh, steps, false)
    requires !Final(Fresh, steps, false).retired && Enabled(Final(Fresh, steps, false), Retire(t))
    ensures var s := Final(Fresh, steps, false);
            (forall more | Run(Next(s, Retire(t), false), more, false) :: Safe(Final(Next(s, Retire(t), false), more, false)))
            <==> !Window(s)
  {
    var s := Final(Fresh, steps, false);
    var s1 := Next(s, Retire(t), false);
    RunKeepsInv(Fresh, steps, false);
    if Window(s) {
      var more := WindowIsFatal(s, t);
    } else {
      StepKeepsSafe(s, Retire(t), false);
      forall more | Run(s1, more, false) ensures Safe(Final(s1, more, false)) {
        RetiredRunIsClear(s1, more, false);
        ClearRunIsSafe(s1, more, false);
      }
    }
  }

  /** T1 drops the count to zero, T2 acquires, T3 retires, and T1 reads `retired` and closes under T2. */
  const BadRun := [Enter(1), ReadRetired(1), Leave(1), Enter(2), ReadRetired(2), Retire(3), ReadRefs(3),
                   CheckRetired(1), Close(1)]

  lemma Prefixed(s: Snapshot, st: Step, rest: seq<Step>)
    requires Enabled(s, st) && Run(Next(s, st, false), rest, false)
    ensures Run(s, [st] + rest, false)
    ensures Final(s, [st] + rest, false) == Final(Next(s, st, false), rest, false)
  {
    assert ([st] + rest)[1..] == rest;
  }

  lemma BadRunEnds(s: Snapshot)
    requires s == Snapshot(1, false, false, 0, map[1 := SawZero, 2 := Holding])
    ensures var rest := [Retire(3), ReadRefs(3), CheckRetired(1), Close(1)];
            && Run(s, rest, false)
            && Final(s, rest, false) == Snapshot(1, true, true, 1, map[1 := Idle, 2 := Holding, 3 := Idle])
  {
    var s1 := Snapshot(1, true, false, 0, map[1 := SawZero, 2 := Holding, 3 := Retiring]);
    var s2 := Snapshot(1, true, false, 0, map[1 := SawZero, 2 := Holding, 3 := Idle]);
    var s3 := Snapshot(1, true, false, 0, map[1 := Closing, 2 := Holding, 3 := Idle]);
    Prefixed(s3, Close(1), []);
    assert Next(s2, CheckRetired(1), false) == s3;
    Prefixed(s2, CheckRetired(1), [Close(1)]);
    assert Next(s1, ReadRefs(3), false) == s2;
    Prefixed(s1, ReadRefs(3), [CheckRetired(1), Close(1)]);
    assert Next(s, Retire(3), false) == s1;
    Prefixed(s, Retire(3), [ReadRefs(3), CheckRetired(1), Close(1)]);
  }

  lemma BadRunAcquires(s: Snapshot, rest: seq<Step>)
    requires s == Snapshot(0, false, false, 0, map[1 := SawZero])
    requires Run(Snapshot(1, false, false, 0, map[1 := SawZero, 2 := Holding]), rest, false)
    ensures var all := [Enter(2)] + ([ReadRetired(2)] + rest);
            && Run(s, all, false)
            && Final(s, all, false) == Final(Snapshot(1, false, false, 0, map[1 := SawZero, 2 := Holding]), rest, false)
  {
    var s4 := Snapshot(1, false, false, 0, map[1 := SawZero, 2 := Entered]);
    assert Next(s4, ReadRetired(2), false) == Snapshot(1, false, false, 0, map[1 := SawZero, 2 := Holding]);
    Prefixed(s4, ReadRetired(2), rest);
    assert Next(s, Enter(2), false) == s4;
    Prefixed(s, Enter(2), [ReadRetired(2)] + rest);
  }

  lemma BadRunBegins(rest: seq<Step>)
    requires Run(Snapshot(0, false, false, 0, map[1 := SawZero]), rest, false)
    ensures var all := [Enter(1)] + ([ReadRetired(1)] + ([Leave(1)] + rest));
            && Run(Fresh, all, false)
            && Final(Fresh, all, false) == Final(Snapshot(0, false, false, 0, map[1 := SawZero]), rest, false)
  {
    var s1 := Snapshot(1, false, false, 0, map[1 := Entered]);
    var s2 := Snapshot(1, false, false, 0, map[1 := Holding]);
    assert Next(s2, Leave(1), false) == Snapshot(0, false, false, 0, map[1 := SawZero]);
    Prefixed(s2, Leave(1), rest);
    assert Next(s1, ReadRetired(1), false) == s2;
    Prefixed(s1, ReadRetired(1), [Leave(1)] + rest);
    assert Next(Fresh, Enter(1), false) == s1;
    Prefixed(Fresh, Enter(1), [ReadRetired(1)] + ([Leave(1)] + rest));
  }

  lemma BadRunClosesUnderHolder(run: seq<Step>)
    requires run == BadRun
    ensures Run(Fresh, run, false)
    ensures Final(Fresh, run, false) == Snapshot(1, true, true, 1, map[1 := Idle, 2 := Holding, 3 := Idle])
  {
    var rest := [Retire(3), ReadRefs(3), CheckRetired(1), Close(1)];
    var middle := [Enter(2)] + ([ReadRetired(2)] + rest);
    BadRunEnds(Snapshot(1, false, false, 0, map[1 := SawZero, 2 := Holding]));
    BadRunAcquires(Snapshot(0, false, false, 0, map[1 := SawZero]), rest);
    BadRunBegins(middle);
    assert run == [Enter(1)] + ([ReadRetired(1)] + ([Leave(1)] + middle));
  }

  /** "Never closed while a successful acquire is unreleased" holds exactly if decrement and test are one step. */
  lemma NeverClosedWhileHeldIffFused(fused: bool)
    ensures (forall steps | Run(Fresh, steps, fused) :: Safe(Final(Fresh, steps, fused))) <==> fused
  {
    if fused {
      forall steps | Run(Fresh, steps, true) ensures Safe(Final(Fresh, steps, true)) {
        FusedRunIsClear(Fresh, steps);
        ClearRunIsSafe(Fresh, steps, true);
      }
    } else {
      var run := BadRun;
      BadRunClosesUnderHolder(run);
      assert Final(Fresh, run, false).phases[2].Holding?;
      assert !Safe(Final(Fresh, run, false));
    }
  }
}
