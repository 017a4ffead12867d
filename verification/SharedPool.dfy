/**
 A published pool as one request sees it: the shared world, the request's own slots, and everybody else.

 Between any two things the request does, others take whatever steps the world allows, for any number of
 requests, probes, operators and generations. Only one thing is asked of them, and it is what is shown for
 this request: they give back no slot that is not theirs.
 */
module SharedPools {
  import opened Endpoints
  import opened Generations
  import opened GenerationRuns

  // ------------------------------------------------------------ a published pool stays published

  /** The pool is fully activated and has `n` backends. */
  predicate Serving(w: World, p: PoolId, n: nat) {
    Full(w, p) && |w.pools[p].all| == n
  }

  predicate SamePool(w: World, w': World, p: PoolId)
    requires p in w.pools && p in w.leases
  {
    && p in w'.pools && |w'.pools[p].all| == |w.pools[p].all| && w'.pools[p].policy == w.pools[p].policy
    && p in w'.leases && w'.leases[p].active == w.leases[p].active && w'.leases[p].progress == w.leases[p].progress
  }

  lemma InvalidationKeepsPool(w: World, s: StateId, p: PoolId)
    requires s in w.endpoints && p in w.pools && p in w.leases
    ensures SamePool(w, Invalidate(w, s), p)
  {}

  lemma SettleKeepsPool(w: World, q: PoolId, p: PoolId)
    requires SettleEnabled(w, q) && p in w.pools && p in w.leases
    ensures SamePool(w, SettleEntry(w, q), p)
  {}

  lemma MoveKeepsPool(w: World, q: PoolId, move: Move, p: PoolId)
    requires MoveEnabled(w, q, move) && p in w.pools && p in w.leases
    ensures SamePool(w, PutPool(w, q, Moved(w, q, move)), p)
  {}

  lemma ActivationKeepsPool(w: World, q: PoolId, p: PoolId)
    requires ActivateEnabled(w, q) && p in w.pools && p in w.leases && p != q
    ensures SamePool(w, ActivateEntry(w, q), p)
  {}

  lemma ReleaseKeepsPool(w: World, q: PoolId, p: PoolId)
    requires ReleaseEnabled(w, q) && p in w.pools && p in w.leases
    ensures SamePool(w, ReleaseEntry(w, q), p)
  {}

  lemma TrafficKeepsPool(w: World, st: Step, p: PoolId)
    requires Enabled(w, st) && Traffic(st) && p in w.pools && p in w.leases
    ensures SamePool(w, Next(w, st), p)
  {
    match st
    case Flush(s) => InvalidationKeepsPool(w.(pending := w.pending - multiset{s}), s, p);
    case OnPool(q, move) => MoveKeepsPool(w, q, move, p);
    case Settle(q) => SettleKeepsPool(w, q, p);
    case _ =>
  }

  lemma ConfigurationKeepsPool(w: World, st: Step, p: PoolId)
    requires LeasesInv(w) && Enabled(w, st) && !Traffic(st) && Full(w, p)
    ensures SamePool(w, Next(w, st), p)
  {
    match st
    case ActivateNext(q) =>
      assert LeaseOk(w, q);
      ActivationKeepsPool(w, q, p);
    case CloseNext(q) => ReleaseKeepsPool(w, q, p);
    case _ =>
  }

  lemma StepKeepsServing(w: World, st: Step, p: PoolId, n: nat)
    requires Inv(w) && Enabled(w, st) && Serving(w, p, n)
    ensures Serving(Next(w, st), p, n) && Next(w, st).pools[p].policy == w.pools[p].policy
  {
    if Traffic(st) { TrafficKeepsPool(w, st, p); } else { ConfigurationKeepsPool(w, st, p); }
  }

  lemma ServingIsPublished(w: World, p: PoolId, n: nat, i: nat)
    requires Inv(w) && Serving(w, p, n) && i < n
    ensures Published(w, p, i)
  {
    assert BackendOk(w, p, i);
  }

  lemma RunAppends(steps: seq<Step>, st: Step)
    requires Run(EmptyWorld, steps) && Enabled(Final(EmptyWorld, steps), st)
    ensures Run(EmptyWorld, steps + [st]) && Final(EmptyWorld, steps + [st]) == Next(Final(EmptyWorld, steps), st)
  {
    assert [st][1..] == [];
    RunConcat(EmptyWorld, steps, [st]);
  }

  // ------------------------------------------------------------ who gives back what

  /** The slot a step gives back. */
  function GivesBack(st: Step): multiset<Slot> {
    if st.OnBackend? && st.action.GiveBack? then multiset{Slot(st.p, st.i)} else multiset{}
  }

  /** Slots not held by this request. */
  function Elsewhere(w: World, held: multiset<Slot>): multiset<Slot> { w.granted - held }

  /** A step of others: it gives back only what they hold. */
  predicate Fair(w: World, held: multiset<Slot>, st: Step) {
    GivesBack(st) <= Elsewhere(w, held)
  }

  lemma FairKeepsHeld(w: World, held: multiset<Slot>, st: Step)
    requires Enabled(w, st) && held <= w.granted && Fair(w, held, st)
    ensures held <= Next(w, st).granted
  {
    match st
    case OnBackend(p, i, action) =>
      if action.GiveBack? {
        assert Slot(p, i) in GivesBack(st);
        assert held <= w.granted - multiset{Slot(p, i)};
      }
    case ActivateNext(q) => ActivationKeepsGranted(w, q);
    case Settle(q) => SettleKeepsGranted(w, q);
    case _ => assert Next(w, st).granted == w.granted;
  }

  lemma ActivationKeepsGranted(w: World, q: PoolId)
    requires ActivateEnabled(w, q)
    ensures ActivateEntry(w, q).granted == w.granted
  {}

  lemma SettleKeepsGranted(w: World, q: PoolId)
    requires SettleEnabled(w, q)
    ensures SettleEntry(w, q).granted == w.granted
  {}

  /** What this request gives back is its own, so it is fair to whatever all the others hold. */
  lemma OwnReleaseIsFair(w: World, held: multiset<Slot>, others: multiset<Slot>, slot: Slot)
    requires held + others <= w.granted && slot in held
    ensures Fair(w, others, OnBackend(slot.pool, slot.index, GiveBack))
  {
    assert multiset{slot} <= held;
    assert held <= w.granted - others;
  }

  /** The endpoint behind the backend has no more requests than it allows. */
  predicate WithinLimit(w: World, p: PoolId, i: nat) {
    && Backed(w, p, i)
    && w.endpoints[StateOf(w, p, i)].inflight <= w.endpoints[StateOf(w, p, i)].Limit()
  }

  lemma StepServes(steps: seq<Step>, st: Step, p: PoolId, n: nat)
    requires Run(EmptyWorld, steps) && Enabled(Final(EmptyWorld, steps), st) && Serving(Final(EmptyWorld, steps), p, n)
    ensures Run(EmptyWorld, steps + [st]) && Final(EmptyWorld, steps + [st]) == Next(Final(EmptyWorld, steps), st)
    ensures var w, w' := Final(EmptyWorld, steps), Next(Final(EmptyWorld, steps), st);
            Serving(w', p, n) && w'.pools[p].policy == w.pools[p].policy && w.clock <= w'.clock
  {
    ReachableInv(steps);
    StepKeepsServing(Final(EmptyWorld, steps), st, p, n);
    ClockNeverGoesBack(Final(EmptyWorld, steps), st);
    RunAppends(steps, st);
  }

  // ------------------------------------------------------------ what the request itself did

  /** The marked steps, in order. */
  function Marked(steps: seq<Step>, marks: seq<bool>): seq<Step>
    requires |steps| == |marks|
  {
    if steps == [] then []
    else Marked(steps[..|steps| - 1], marks[..|marks| - 1]) + if marks[|marks| - 1] then [steps[|steps| - 1]] else []
  }

  lemma MarkedAppends(steps: seq<Step>, marks: seq<bool>, st: Step, own: bool)
    requires |steps| == |marks|
    ensures Marked(steps + [st], marks + [own]) == Marked(steps, marks) + if own then [st] else []
  {
    assert (steps + [st])[..|steps|] == steps && (marks + [own])[..|marks|] == marks;
  }

  /** The backends on which the steps record a passive failure, or a success, in order. */
  function FailedOn(steps: seq<Step>): seq<Slot> {
    if steps == [] then []
    else
      var st := steps[|steps| - 1];
      FailedOn(steps[..|steps| - 1]) + if st.OnBackend? && st.action.PassiveFailure? then [Slot(st.p, st.i)] else []
  }

  function SucceededOn(steps: seq<Step>): seq<Slot> {
    if steps == [] then []
    else
      var st := steps[|steps| - 1];
      SucceededOn(steps[..|steps| - 1]) + if st.OnBackend? && st.action.PassiveSuccess? then [Slot(st.p, st.i)] else []
  }

  lemma RecordsAppend(steps: seq<Step>, st: Step)
    ensures FailedOn(steps + [st]) ==
            FailedOn(steps) + if st.OnBackend? && st.action.PassiveFailure? then [Slot(st.p, st.i)] else []
    ensures SucceededOn(steps + [st]) ==
            SucceededOn(steps) + if st.OnBackend? && st.action.PassiveSuccess? then [Slot(st.p, st.i)] else []
  {
    assert (steps + [st])[..|steps|] == steps;
  }

  predicate Records(st: Step) {
    st.OnBackend? && (st.action.PassiveFailure? || st.action.PassiveSuccess?)
  }

  /** What there is to know about an appended step: whose it is and what it records. */
  lemma Noted(steps: seq<Step>, marks: seq<bool>, st: Step, own: bool)
    requires |steps| == |marks|
    ensures var before, after := Marked(steps, marks), Marked(steps + [st], marks + [own]);
            && FailedOn(after) == FailedOn(before) + (if own && st.OnBackend? && st.action.PassiveFailure? then [Slot(st.p, st.i)] else [])
            && SucceededOn(after) == SucceededOn(before) + (if own && st.OnBackend? && st.action.PassiveSuccess? then [Slot(st.p, st.i)] else [])
  {
    MarkedAppends(steps, marks, st, own);
    if own {
      RecordsAppend(Marked(steps, marks), st);
    } else {
      assert Marked(steps, marks) + [] == Marked(steps, marks);
    }
  }

  /** Healthy, enabled, not draining, not ejected, and with fewer requests than it allows. */
  predicate Roomy(w: World, p: PoolId, i: nat) {
    && Backed(w, p, i)
    && var e := w.endpoints[StateOf(w, p, i)];
       && e.healthy && e.enabled && !e.draining && !(e.ejectedUntil > 0 && w.clock < e.ejectedUntil)
       && (e.inflight < e.maxConcurrent || e.inflight < 1)
  }

  class SharedPool {
    const p: PoolId
    const size: nat
    const schedule: nat -> seq<Step>
    var turn: nat
    var world: World
    var held: multiset<Slot>
    ghost var steps: seq<Step>
    ghost var marks: seq<bool>
    ghost var blamed: seq<Slot>
    ghost var praised: seq<Slot>
    ghost var refused: set<Slot>

    /**
     The world is what a run of the gateway has led to, the pool is published, and the request's slots are on
     the books. `marks` tells which steps of the run the request took; `blamed` and `praised` are the backends
     on which those recorded failures and successes; `refused` are those that granted it no slot. Time is past the epoch by more than the cooldown.
     */
    ghost predicate Valid()
      reads this
    {
      && Run(EmptyWorld, steps) && Final(EmptyWorld, steps) == world
      && Serving(world, p, size) && held <= world.granted
      && world.clock + world.pools[p].policy.cooldown > 0
      && |marks| == |steps| && blamed == FailedOn(Marked(steps, marks)) && praised == SucceededOn(Marked(steps, marks))
    }

    /** The backends of the pool, named by position: identifiers within a pool are unique. */
    function Names(): set<Slot> {
      set i: nat | i < size :: Slot(p, i)
    }

    constructor (p: PoolId, world: World, schedule: nat -> seq<Step>, ghost steps: seq<Step>)
      requires Run(EmptyWorld, steps) && Final(EmptyWorld, steps) == world
      requires Full(world, p) && world.clock + world.pools[p].policy.cooldown > 0
      ensures Valid() && this.p == p && held == multiset{} && this.world == world && blamed == praised == [] && refused == {}
    {
      this.p, this.size, this.schedule, this.world := p, |world.pools[p].all|, schedule, world;
      this.turn, this.held, this.steps := 0, multiset{}, steps;
      this.marks, this.blamed, this.praised := seq(|steps|, _ => false), [], [];
      this.refused := {};
      NothingMarked(steps, seq(|steps|, _ => false));
    }

    /** One step of the shared world, by whoever takes it. */
    method Take(st: Step, ghost own: bool)
      requires Valid() && Enabled(world, st) && held <= Next(world, st).granted
      modifies this`world, this`steps, this`marks, this`blamed, this`praised
      ensures Valid() && world == Next(old(world), st) && steps == old(steps) + [st] && marks == old(marks) + [own]
      ensures !own || !Records(st) ==> blamed == old(blamed) && praised == old(praised)
      ensures own && Records(st) ==>
                if st.action.PassiveFailure? then blamed == old(blamed) + [Slot(st.p, st.i)] && praised == old(praised)
                else blamed == old(blamed) && praised == old(praised) + [Slot(st.p, st.i)]
    {
      StepServes(steps, st, p, size);
      Noted(steps, marks, st, own);
      steps, marks := steps + [st], marks + [own];
      blamed, praised := FailedOn(Marked(steps, marks)), SucceededOn(Marked(steps, marks));
      world := Next(world, st);
    }

    /** Others go on for as long as they like; the request's slots stay its own. */
    method Others()
      requires Valid()
      modifies this`world, this`turn, this`steps, this`marks, this`blamed, this`praised
      ensures Valid() && old(steps) <= steps && blamed == old(blamed) && praised == old(praised)
    {
      var batch := schedule(turn);
      turn := turn + 1;
      for k := 0 to |batch|
        invariant Valid() && old(steps) <= steps && blamed == old(blamed) && praised == old(praised)
      {
        if Enabled(world, batch[k]) && Fair(world, held, batch[k]) {
          FairKeepsHeld(world, held, batch[k]);
          Take(batch[k], false);
        }
      }
    }

    /**
     `TryAcquire`: a slot is granted exactly if the endpoint is usable and has room after the steps `before`,
     and is then held. The backend has refused otherwise.
     */
    method TryAcquire(slot: Slot) returns (ok: bool, ghost before: seq<Step>)
      requires Valid() && slot in Names()
      modifies this
      ensures Valid() && blamed == old(blamed) && praised == old(praised)
      ensures old(steps) <= before && steps == before + [OnBackend(p, slot.index, Action.TryAcquire)] && Run(EmptyWorld, before)
      ensures ok <==> Roomy(Final(EmptyWorld, before), p, slot.index)
      ensures held == (if ok then old(held) + multiset{slot} else old(held))
      ensures refused == (if ok then old(refused) else old(refused) + {slot})
      ensures ok ==> WithinLimit(world, p, slot.index)
    {
      Others();
      before := steps;
      ok := Acquire(slot);
      if !ok {
        refused := refused + {slot};
      }
    }

    /** The step itself. */
    method Acquire(slot: Slot) returns (ok: bool)
      requires Valid() && slot in Names()
      modifies this`world, this`held, this`steps, this`marks, this`blamed, this`praised
      ensures Valid() && blamed == old(blamed) && praised == old(praised)
      ensures steps == old(steps) + [OnBackend(p, slot.index, Action.TryAcquire)] && marks == old(marks) + [true]
      ensures ok <==> Roomy(old(world), p, slot.index)
      ensures held == (if ok then old(held) + multiset{slot} else old(held))
      ensures ok ==> WithinLimit(world, p, slot.index)
    {
      AskingIsPossible(steps, p, size, slot.index);
      ok := Grants(world.endpoints[StateOf(world, p, slot.index)], world.clock);
      Take(OnBackend(p, slot.index, Action.TryAcquire), true);
      if ok {
        held := held + multiset{slot};
      }
    }

    /**
     `Release`: the step is possible because the slot is held, and takes exactly that slot off the books.
     `rest` is what else the request holds.
     */
    method GiveBack(slot: Slot, ghost rest: multiset<Slot>)
      requires Valid() && held == rest + multiset{slot}
      modifies this`world, this`turn, this`held, this`steps, this`marks, this`blamed, this`praised
      ensures Valid() && held == rest && old(steps) < steps && blamed == old(blamed) && praised == old(praised)
    {
      Others();
      assert Enabled(world, OnBackend(slot.pool, slot.index, Action.GiveBack))
          && Next(world, OnBackend(slot.pool, slot.index, Action.GiveBack)).granted == world.granted - multiset{slot} by {
        ReachableInv(steps);
        GiveBackIsEnabled(world, slot);
      }
      held := held - multiset{slot};
      Take(OnBackend(slot.pool, slot.index, Action.GiveBack), true);
    }

    /** `RecordPassiveFailure` or `RecordPassiveSuccess`, and then the invalidation it may call for. */
    method Report(slot: Slot, failed: bool)
      requires Valid() && slot in Names()
      modifies this`world, this`turn, this`steps, this`marks, this`blamed, this`praised
      ensures Valid() && old(steps) <= steps
      ensures blamed == old(blamed) + (if failed then [slot] else []) && praised == old(praised) + (if failed then [] else [slot])
    {
      var s := Record(slot, failed);
      Others();
      if s in world.pending && s in world.endpoints {
        Take(Flush(s), true);
      }
    }

    method Record(slot: Slot, failed: bool) returns (s: StateId)
      requires Valid() && slot in Names()
      modifies this`world, this`turn, this`steps, this`marks, this`blamed, this`praised
      ensures Valid() && old(steps) < steps && marks[|marks| - 1]
      ensures steps[|steps| - 1] == OnBackend(p, slot.index, if failed then PassiveFailure else PassiveSuccess)
      ensures blamed == old(blamed) + (if failed then [slot] else []) && praised == old(praised) + (if failed then [] else [slot])
    {
      Others();
      assert Published(world, p, slot.index) by {
        ReachableInv(steps);
        ServingIsPublished(world, p, size, slot.index);
      }
      s := StateOf(world, p, slot.index);
      ReportKeepsGranted(world, p, slot.index, failed);
      Take(OnBackend(p, slot.index, if failed then PassiveFailure else PassiveSuccess), true);
    }
  }

  lemma {:induction false} NothingMarked(steps: seq<Step>, marks: seq<bool>)
    requires |steps| == |marks| && forall i | 0 <= i < |marks| :: !marks[i]
    ensures Marked(steps, marks) == []
    decreases |steps|
  {
    if steps != [] {
      NothingMarked(steps[..|steps| - 1], marks[..|marks| - 1]);
    }
  }

  /** What asking for a slot of a pool in service does. */
  lemma AskingIsPossible(steps: seq<Step>, p: PoolId, n: nat, i: nat)
    requires Run(EmptyWorld, steps) && Serving(Final(EmptyWorld, steps), p, n) && i < n
    ensures var w := Final(EmptyWorld, steps);
            && Backed(w, p, i) && (Grants(w.endpoints[StateOf(w, p, i)], w.clock) <==> Roomy(w, p, i))
            && Enabled(w, OnBackend(p, i, TryAcquire))
            && var w' := Next(w, OnBackend(p, i, TryAcquire));
               && w'.granted == (if Roomy(w, p, i) then w.granted + multiset{Slot(p, i)} else w.granted)
               && (Roomy(w, p, i) ==> WithinLimit(w', p, i))
  {
    var w := Final(EmptyWorld, steps);
    assert Published(w, p, i) by {
      ReachableInv(steps);
      ServingIsPublished(w, p, n, i);
    }
    AcquireFacts(w, p, i);
  }

  lemma AcquireFacts(w: World, p: PoolId, i: nat)
    requires Published(w, p, i)
    ensures Enabled(w, OnBackend(p, i, TryAcquire))
    ensures Grants(w.endpoints[StateOf(w, p, i)], w.clock) <==> Roomy(w, p, i)
    ensures var w' := Acted(w, p, i, TryAcquire);
            && w'.granted == (if Roomy(w, p, i) then w.granted + multiset{Slot(p, i)} else w.granted)
            && (Roomy(w, p, i) ==> WithinLimit(w', p, i))
  {
    GrantsIff(w.endpoints[StateOf(w, p, i)], Slot(p, i), w.clock);
    GrantRespectsLimit(w.endpoints[StateOf(w, p, i)], Slot(p, i), w.clock);
  }

  lemma ReportKeepsGranted(w: World, p: PoolId, i: nat, failed: bool)
    requires Published(w, p, i) && w.clock + w.pools[p].policy.cooldown > 0
    ensures var st := OnBackend(p, i, if failed then PassiveFailure else PassiveSuccess);
            Enabled(w, st) && Next(w, st).granted == w.granted
  {}

  /** A slot that is on the books can always be given back. */
  lemma GiveBackIsEnabled(w: World, slot: Slot)
    requires SlotsInv(w) && slot in w.granted
    ensures ActionEnabled(w, slot.pool, slot.index, GiveBack)
    ensures Acted(w, slot.pool, slot.index, GiveBack).granted == w.granted - multiset{slot}
  {
    assert SlotOk(w, slot);
  }
}
