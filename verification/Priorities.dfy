/** Priority inheritance: an escalation holds for every waiter under its key, those that register later included. */
module Priorities {
  import opened Transcript
  import opened Scheduler

  /** The key is pinned to the class, and no waiter under it is below. */
  ghost predicate Pinned(s: State, key: string, rank: nat) {
    && key in s.sticky && s.sticky[key] >= rank
    && forall g | 0 <= g < |s.groups| :: NoneBelow(s.groups[g].queue, key, rank)
  }

  ghost predicate NoneBelow(queue: seq<Entry>, key: string, rank: nat) {
    forall e | e in queue && e.key == Some(key) :: e.rank >= rank
  }

  /** Waiters only left, and no pin changed. */
  ghost predicate Shrinks(s: State, r: State) {
    && r.sticky == s.sticky
    && |s.groups| <= |r.groups|
    && (forall g | 0 <= g < |s.groups| :: Fewer(s.groups[g].queue, r.groups[g].queue))
    && (forall g | |s.groups| <= g < |r.groups| :: r.groups[g].queue == [])
  }

  ghost predicate Fewer(a: seq<Entry>, b: seq<Entry>) {
    forall e | e in b :: e in a
  }

  lemma ShrinksKeepsPin(s: State, r: State, key: string, rank: nat)
    requires Pinned(s, key, rank) && Shrinks(s, r)
    ensures Pinned(r, key, rank)
  {
    forall g | 0 <= g < |r.groups| ensures NoneBelow(r.groups[g].queue, key, rank) {
      if g < |s.groups| { assert Fewer(s.groups[g].queue, r.groups[g].queue); }
    }
  }

  lemma ShrinksTwice(s: State, t: State, r: State)
    requires Shrinks(s, t) && Shrinks(t, r)
    ensures Shrinks(s, r)
  {
    forall g | 0 <= g < |s.groups| ensures Fewer(s.groups[g].queue, r.groups[g].queue) {
      assert Fewer(s.groups[g].queue, t.groups[g].queue) && Fewer(t.groups[g].queue, r.groups[g].queue);
    }
    forall g | |s.groups| <= g < |r.groups| ensures r.groups[g].queue == [] {
      if g < |t.groups| {
        assert Fewer(t.groups[g].queue, r.groups[g].queue);
        NothingLeft(t.groups[g].queue, r.groups[g].queue);
      }
    }
  }

  lemma NothingLeft(a: seq<Entry>, b: seq<Entry>)
    requires Fewer(a, b)
    ensures a == [] ==> b == []
  {
    if b != [] { assert b[0] in b; }
  }

  lemma RemovedIsFewer(queue: seq<Entry>, i: nat)
    requires i < |queue|
    ensures Fewer(queue, RemoveAt(queue, i))
  {
  }

  lemma AdmitShrinks(s: State, g: nat, i: nat, now: real)
    requires g < |s.groups| && i < |s.groups[g].queue|
    ensures Shrinks(s, Admit(s, g, i, now))
  {
    RemovedIsFewer(s.groups[g].queue, i);
  }

  lemma {:induction false} PumpShrinks(s: State, g: nat, now: real)
    requires g < |s.groups|
    ensures Shrinks(s, Pump(s, g, now))
    decreases |s.groups[g].queue|
  {
    var i := NextWaiter(s.health, s.groups[g], now);
    if i.Some? {
      AdmitShrinks(s, g, i.value, now);
      PumpShrinks(Admit(s, g, i.value, now), g, now);
      hide Shrinks;
      ShrinksTwice(s, Admit(s, g, i.value, now), Pump(s, g, now));
    }
  }

  lemma {:induction false} PumpFromShrinks(s: State, k: nat, now: real)
    requires k <= |s.groups|
    ensures Shrinks(s, PumpFrom(s, k, now))
    decreases |s.groups| - k
  {
    if k < |s.groups| {
      PumpShrinks(s, k, now);
      PumpFromShrinks(Pump(s, k, now), k + 1, now);
      hide Shrinks;
      ShrinksTwice(s, Pump(s, k, now), PumpFrom(s, k, now));
    }
  }

  lemma {:induction false} DrainShrinks(s: State, k: nat)
    requires k <= |s.groups|
    ensures Shrinks(s, DrainFrom(s, k))
    decreases |s.groups| - k
  {
    if k < |s.groups| {
      var t := s.(groups := s.groups[k := s.groups[k].(queue := [])],
                  rejected := s.rejected + multiset(QueueNos(s.groups[k].queue)));
      DrainShrinks(t, k + 1);
      assert Shrinks(s, t);
      hide Shrinks;
      ShrinksTwice(s, t, DrainFrom(s, k));
    }
  }

  /** The same waiters, and the same pins. */
  ghost predicate SameQueues(s: State, r: State) {
    && r.sticky == s.sticky
    && |r.groups| == |s.groups|
    && forall g | 0 <= g < |s.groups| :: r.groups[g].queue == s.groups[g].queue
  }

  lemma SameShrinks(s: State, r: State)
    requires SameQueues(s, r)
    ensures Shrinks(s, r)
  {
  }

  lemma WithGroupShrinks(s: State, name: string)
    ensures Shrinks(s, WithGroup(s, name))
  {
    hide GroupIndex;
    var r := WithGroup(s, name);
    assert forall g | 0 <= g < |s.groups| :: r.groups[g] == s.groups[g];
  }

  lemma ReleaseShrinks(s: State, g: nat, no: nat, now: real)
    requires g < |s.groups|
    ensures Shrinks(s, Release(s, g, no, now))
  {
    hide Pump, RescheduleProbe, IndexOf;
    var i := IndexOf(ActiveNos(s.groups[g].activeEntries), no);
    if i.Some? {
      var a := s.groups[g].activeEntries[i.value];
      var t := FreeSlot(s, g, i.value);
      var u := if a.probe && Keyed(a.modelKey) then SettleStaleProbe(t, a.modelKey.value, now) else t;
      SettleSame(t, if a.modelKey.Some? then a.modelKey.value else "", now);
      SameShrinks(s, u);
      PumpShrinks(u, g, now);
      hide Shrinks;
      ShrinksTwice(s, u, Pump(u, g, now));
    } else {
      SameShrinks(s, s);
    }
  }

  lemma SettleSame(s: State, key: string, now: real)
    ensures SameQueues(s, SettleStaleProbe(s, key, now))
  {
  }

  lemma NoRecoverySame(cfg: Tuning, s: State, key: string, cls: Option<FailureClass>, status: Option<nat>, now: real)
    requires cls.None? ==> key !in s.health || !s.health[key].unhealthy
    ensures SameQueues(s, NoteModelOutcome(cfg, s, key, cls, status, now))
  {
    hide NoteModelOutcome;
    OutcomeHealthOnly(cfg, s, key, cls, status, now);
  }

  lemma NoteModelShrinks(cfg: Tuning, s: State, key: string, cls: Option<FailureClass>, status: Option<nat>, now: real)
    ensures Shrinks(s, NoteModelOutcome(cfg, s, key, cls, status, now))
  {
    hide PumpFrom;
    var r := NoteModelOutcome(cfg, s, key, cls, status, now);
    if cls.None? && key in s.health && s.health[key].unhealthy {
      var h := s.health[key].(failures := 0, probeInFlight := false);
      var t := SetHealth(s, key, h.(unhealthy := false, nextProbeAt := 0.0, probeDelay := cfg.probeBase));
      PumpFromShrinks(t, 0, now);
      SameShrinks(s, t);
      hide Shrinks;
      ShrinksTwice(s, t, r);
    } else {
      NoRecoverySame(cfg, s, key, cls, status, now);
      hide NoteModelOutcome;
      SameShrinks(s, r);
    }
  }

  lemma ThrottledQueue(g: Group, retryAfter: Option<real>, jitter: real, now: real)
    ensures Throttled(g, retryAfter, jitter, now).queue == g.queue
  {
  }

  lemma NoteShrinks(cfg: Tuning, s: State, r: Report, now: real)
    ensures Shrinks(s, NoteOutcome(cfg, s, r, now))
  {
    hide NoteModelOutcome, Throttled, GroupIndex;
    var t, g := WithGroup(s, r.group), GroupOf(s, r.group);
    var group := if r.status == Some(429) || r.status == Some(503)
                 then Throttled(t.groups[g], r.retryAfter, r.jitter, now)
                 else t.groups[g].(throttles := 0);
    var u := t.(groups := t.groups[g := group]);
    ThrottledQueue(t.groups[g], r.retryAfter, r.jitter, now);
    SameShrinks(t, u);
    WithGroupShrinks(s, r.group);
    hide Shrinks;
    ShrinksTwice(s, t, u);
    if r.modelKey.Some? {
      NoteModelShrinks(cfg, u, r.modelKey.value, r.cls, r.status, now);
      ShrinksTwice(s, u, NoteOutcome(cfg, s, r, now));
    }
  }

  lemma ProbeEndShrinks(cfg: Tuning, s: State, key: string, ok: bool, status: Option<nat>, now: real)
    ensures Shrinks(s, ProbeSettles(cfg, s, key, ok, status, now))
  {
    hide NoteModelOutcome;
    var t := s.(probing := s.probing - multiset{key});
    SameShrinks(s, s);
    SameShrinks(s, t);
    NoteModelShrinks(cfg, t, key, None, None, now);
    NoteModelShrinks(cfg, t, key, Some(Environmental), status, now);
    hide Shrinks;
    ShrinksTwice(s, t, NoteModelOutcome(cfg, t, key, None, None, now));
    ShrinksTwice(s, t, NoteModelOutcome(cfg, t, key, Some(Environmental), status, now));
  }

  lemma QuietSteps(s: State, key: string, now: real)
    ensures Shrinks(s, RegisterProber(s, key)) && Shrinks(s, ProbeTimerFires(s, key, now))
  {
  }

  lemma AbortShrinks(s: State, g: nat, no: nat)
    requires g < |s.groups|
    ensures Shrinks(s, AbortWaiter(s, g, no))
  {
    var i := IndexOf(QueueNos(s.groups[g].queue), no);
    if i.Some? { RemovedIsFewer(s.groups[g].queue, i.value); }
  }

  // ---------------------------------------------------------------------------
  // Registering and raising
  // ---------------------------------------------------------------------------

  lemma AcquireKeepsPin(s: State, q: Request, now: real, key: string, rank: nat)
    requires key != "" && Pinned(s, key, rank)
    ensures Pinned(Acquire(s, q, now), key, rank)
  {
    hide GroupIndex, Pump, Pinned;
    var t := WithGroup(s, q.group);
    var u := if Keyed(q.modelKey) && q.probeMax.Some?
             then t.(probeMaxOverrides := t.probeMaxOverrides[q.modelKey.value := q.probeMax.value])
             else t;
    WithGroupShrinks(s, q.group);
    ShrinksKeepsPin(s, t, key, rank);
    SameShrinks(t, u);
    ShrinksKeepsPin(t, u, key, rank);
    if !u.stopped && !q.aborted {
      var g, e := GroupOf(s, q.group), EntryFor(s, q);
      EntryIsPinned(s, q, key, rank);
      EnqueueKeepsPin(u, g, e, key, rank);
      PumpShrinks(Enqueue(u, g, e), g, now);
      ShrinksKeepsPin(Enqueue(u, g, e), Acquire(s, q, now), key, rank);
    }
  }

  /** A request under a pinned key registers at the pinned class or above. */
  lemma EntryIsPinned(s: State, q: Request, key: string, rank: nat)
    requires key != "" && Pinned(s, key, rank)
    ensures var e := EntryFor(s, q); e.rank >= q.rank && (e.key == Some(key) ==> e.rank >= rank)
  {
  }

  lemma EnqueueKeepsPin(s: State, g: nat, e: Entry, key: string, rank: nat)
    requires g < |s.groups| && Pinned(s, key, rank) && (e.key == Some(key) ==> e.rank >= rank)
    ensures Pinned(Enqueue(s, g, e), key, rank)
  {
    var r := Enqueue(s, g, e);
    forall h | 0 <= h < |r.groups| ensures NoneBelow(r.groups[h].queue, key, rank) {
      assert NoneBelow(s.groups[h].queue, key, rank);
    }
  }

  lemma RaisedNoneBelow(queue: seq<Entry>, name: string, raise: nat, key: string, rank: nat)
    ensures NoneBelow(queue, key, rank) ==> NoneBelow(Raised(queue, name, raise), key, rank)
    ensures NoneBelow(Raised(queue, key, rank), key, rank)
    ensures Raised(queue, key, rank) == queue ==> NoneBelow(queue, key, rank)
  {
    var raised := Raised(queue, name, raise);
    forall e | e in raised && e.key == Some(key) && NoneBelow(queue, key, rank) ensures e.rank >= rank {
      var i :| 0 <= i < |raised| && raised[i] == e;
      assert queue[i] in queue;
    }
    var all := Raised(queue, key, rank);
    forall e | e in all && e.key == Some(key) ensures e.rank >= rank {
      var i :| 0 <= i < |all| && all[i] == e;
    }
  }

  /** The groups before `k` hold no waiter under the key below the class. */
  ghost predicate DoneBefore(s: State, k: nat, key: string, rank: nat) {
    forall g | 0 <= g < |s.groups| && g < k :: NoneBelow(s.groups[g].queue, key, rank)
  }

  lemma ShrinksKeepsDone(s: State, r: State, k: nat, key: string, rank: nat)
    requires DoneBefore(s, k, key, rank) && Shrinks(s, r) && |r.groups| == |s.groups|
    ensures DoneBefore(r, k, key, rank)
  {
    forall g | 0 <= g < |r.groups| && g < k ensures NoneBelow(r.groups[g].queue, key, rank) {
      assert NoneBelow(s.groups[g].queue, key, rank) && Fewer(s.groups[g].queue, r.groups[g].queue);
    }
  }

  lemma {:induction false} EscalateReaches(s: State, k: nat, key: string, rank: nat, now: real)
    requires k <= |s.groups| && DoneBefore(s, k, key, rank)
    ensures var r := EscalateFrom(s, k, key, rank, now);
      DoneBefore(r, |r.groups|, key, rank) && r.sticky == s.sticky
    decreases |s.groups| - k
  {
    hide NoneBelow, Pump, Raised;
    if k < |s.groups| {
      var raised := Raised(s.groups[k].queue, key, rank);
      RaisedNoneBelow(s.groups[k].queue, key, rank, key, rank);
      if raised == s.groups[k].queue {
        EscalateReaches(s, k + 1, key, rank, now);
      } else {
        var t := s.(groups := s.groups[k := s.groups[k].(queue := raised)]);
        PumpShrinks(t, k, now);
        assert DoneBefore(t, k + 1, key, rank);
        ShrinksKeepsDone(t, Pump(t, k, now), k + 1, key, rank);
        EscalateReaches(Pump(t, k, now), k + 1, key, rank, now);
      }
    }
  }

  lemma {:induction false} OtherEscalateKeepsPin(
    s: State, k: nat, name: string, raise: nat, now: real, key: string, rank: nat)
    requires k <= |s.groups| && Pinned(s, key, rank)
    ensures Pinned(EscalateFrom(s, k, name, raise, now), key, rank)
    decreases |s.groups| - k
  {
    hide Pump, Raised;
    if k < |s.groups| {
      var raised := Raised(s.groups[k].queue, name, raise);
      RaisedNoneBelow(s.groups[k].queue, name, raise, key, rank);
      if raised == s.groups[k].queue {
        OtherEscalateKeepsPin(s, k + 1, name, raise, now, key, rank);
      } else {
        var t := s.(groups := s.groups[k := s.groups[k].(queue := raised)]);
        assert NoneBelow(s.groups[k].queue, key, rank);
        assert Pinned(t, key, rank);
        PumpShrinks(t, k, now);
        hide Pinned;
        ShrinksKeepsPin(t, Pump(t, k, now), key, rank);
        OtherEscalateKeepsPin(Pump(t, k, now), k + 1, name, raise, now, key, rank);
      }
    }
  }

  /** An escalation pins its key and raises every waiter under it. */
  lemma EscalatePins(s: State, key: string, rank: nat, now: real)
    ensures Pinned(Escalate(s, key, rank, now), key, rank)
  {
    var pinned := if key in s.sticky && s.sticky[key] >= rank then s.sticky[key] else rank;
    var t := s.(sticky := s.sticky[key := pinned]);
    EscalateReaches(t, 0, key, pinned, now);
    var r := EscalateFrom(t, 0, key, pinned, now);
    forall g | 0 <= g < |r.groups| ensures NoneBelow(r.groups[g].queue, key, rank) {
      assert NoneBelow(r.groups[g].queue, key, pinned);
    }
  }

  lemma RaiseKeepsPin(s: State, name: string, raise: nat, now: real, key: string, rank: nat)
    requires Pinned(s, key, rank)
    ensures Pinned(Escalate(s, name, raise, now), key, rank)
  {
    var pinned := if name in s.sticky && s.sticky[name] >= raise then s.sticky[name] else raise;
    var t := s.(sticky := s.sticky[name := pinned]);
    assert Pinned(t, key, rank);
    OtherEscalateKeepsPin(t, 0, name, pinned, now, key, rank);
  }

  // ---------------------------------------------------------------------------
  // Runs
  // ---------------------------------------------------------------------------

  lemma TakeKeepsPin(cfg: Tuning, s: State, t: Timed, key: string, rank: nat)
    requires key != "" && Pinned(s, key, rank) && t.step != ClearRaise(key)
    ensures Pinned(Take(cfg, s, t), key, rank)
  {
    hide Acquire, Release, NoteOutcome, ProbeSettles, Pump, AbortWaiter, Escalate, RegisterProber, ProbeTimerFires,
      Stop, Shrinks;
    match t.step
    case Ask(q) => AcquireKeepsPin(s, q, t.now, key, rank);
    case Abort(g, n) =>
      if g < |s.groups| {
        AbortShrinks(s, g, n);
        ShrinksKeepsPin(s, AbortWaiter(s, g, n), key, rank);
      }
    case GiveBack(g, n) =>
      if g < |s.groups| {
        ReleaseShrinks(s, g, n, t.now);
        ShrinksKeepsPin(s, Release(s, g, n, t.now), key, rank);
      }
    case Raise(name, raise) => RaiseKeepsPin(s, name, raise, t.now, key, rank);
    case ClearRaise(name) =>
    case Settled(r) =>
      NoteShrinks(cfg, s, r, t.now);
      ShrinksKeepsPin(s, NoteOutcome(cfg, s, r, t.now), key, rank);
    case AddProber(name) =>
      QuietSteps(s, name, t.now);
      ShrinksKeepsPin(s, RegisterProber(s, name), key, rank);
    case ProbeTimer(name) =>
      QuietSteps(s, name, t.now);
      ShrinksKeepsPin(s, ProbeTimerFires(s, name, t.now), key, rank);
    case ProbeEnd(name, ok, status) =>
      ProbeEndShrinks(cfg, s, name, ok, status, t.now);
      ShrinksKeepsPin(s, ProbeSettles(cfg, s, name, ok, status, t.now), key, rank);
    case PumpTimer(g) =>
      if g < |s.groups| {
        PumpShrinks(s, g, t.now);
        ShrinksKeepsPin(s, Pump(s, g, t.now), key, rank);
      }
    case Shutdown => StopKeepsPin(s, key, rank);
  }

  lemma StopKeepsPin(s: State, key: string, rank: nat)
    requires Pinned(s, key, rank)
    ensures Pinned(Stop(s), key, rank)
  {
    var t := s.(stopped := true, probeTimers := {});
    SameShrinks(s, t);
    DrainShrinks(t, 0);
    hide Shrinks;
    ShrinksTwice(s, t, Stop(s));
    ShrinksKeepsPin(s, Stop(s), key, rank);
  }

  /**
   * From an escalation on, until its pin is cleared, every waiter under the key is of the class or above, in
   * whatever group and whether it registered before or after; escalations never lower anyone.
   */
  lemma {:induction false} EscalationHolds(cfg: Tuning, s: State, key: string, rank: nat, now: real, steps: seq<Timed>)
    requires key != "" && forall k | 0 <= k < |steps| :: steps[k].step != ClearRaise(key)
    ensures Pinned(After(cfg, Escalate(s, key, rank, now), steps), key, rank)
  {
    hide Pinned, Escalate, Take;
    if steps == [] {
      EscalatePins(s, key, rank, now);
    } else {
      EscalationHolds(cfg, s, key, rank, now, steps[..|steps| - 1]);
      TakeKeepsPin(cfg, After(cfg, Escalate(s, key, rank, now), steps[..|steps| - 1]), steps[|steps| - 1], key, rank);
    }
  }
}
