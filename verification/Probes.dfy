/** A model's half-open probe is never lost: the flag that gates its waiters always has someone to clear it. */
module Probes {
  import opened Transcript
  import opened Scheduler

  ghost predicate HoldsProbe(active: seq<Active>, key: string) {
    key != "" && exists a :: a in active && a.probe && a.modelKey == Some(key)
  }

  /** A slot admitted as the model's probe is still held, or a background probe of it is under way. */
  ghost predicate Owned(s: State, key: string) {
    key in s.probing || exists g | 0 <= g < |s.groups| :: HoldsProbe(s.groups[g].activeEntries, key)
  }

  /** The probe flag of a model has an owner, and a probe is pending for every unhealthy model with a prober. */
  ghost predicate ProbeKept(s: State, key: string) {
    key in s.health ==>
      var h := s.health[key];
      && (h.probeInFlight ==> h.unhealthy && (s.stopped || Owned(s, key)))
      && (h.unhealthy && !s.stopped && key in s.probers ==> h.probeInFlight || key in s.probeTimers)
  }

  // ---------------------------------------------------------------------------
  // Slots
  // ---------------------------------------------------------------------------

  /** Every slot held in `s` is held in `r`. */
  ghost predicate KeepsSlots(s: State, r: State) {
    && |s.groups| <= |r.groups|
    && s.probing <= r.probing
    && forall g, a | 0 <= g < |s.groups| && a in s.groups[g].activeEntries :: a in r.groups[g].activeEntries
  }

  lemma OwnedKept(s: State, r: State, key: string)
    requires KeepsSlots(s, r) && Owned(s, key)
    ensures Owned(r, key)
  {
    if key !in s.probing {
      var g :| 0 <= g < |s.groups| && HoldsProbe(s.groups[g].activeEntries, key);
      var a :| a in s.groups[g].activeEntries && a.probe && a.modelKey == Some(key);
      assert HoldsProbe(r.groups[g].activeEntries, key);
    }
  }

  /** Nothing the probes rest on differs. */
  ghost predicate SameProbes(s: State, r: State) {
    && r.health == s.health && r.stopped == s.stopped && r.probers == s.probers && r.probeTimers == s.probeTimers
    && KeepsSlots(s, r)
  }

  lemma SameProbeKept(s: State, r: State, key: string)
    requires ProbeKept(s, key) && SameProbes(s, r)
    ensures ProbeKept(r, key)
  {
    if Owned(s, key) { OwnedKept(s, r, key); }
  }

  lemma AdmitKeepsProbe(s: State, g: nat, i: nat, now: real, key: string)
    requires g < |s.groups| && i < |s.groups[g].queue| && ProbeKept(s, key)
    ensures ProbeKept(Admit(s, g, i, now), key)
  {
    var r, e := Admit(s, g, i, now), s.groups[g].queue[i];
    assert KeepsSlots(s, r);
    if Owned(s, key) { OwnedKept(s, r, key); }
    if BecomesProbe(s.health, e) && e.modelKey == Some(key) {
      var active := r.groups[g].activeEntries;
      assert active[|active| - 1] in active;
      assert HoldsProbe(active, key);
    }
  }

  lemma {:induction false} PumpKeepsProbe(s: State, g: nat, now: real, key: string)
    requires g < |s.groups| && ProbeKept(s, key)
    ensures ProbeKept(Pump(s, g, now), key)
    decreases |s.groups[g].queue|
  {
    hide ProbeKept;
    var i := NextWaiter(s.health, s.groups[g], now);
    if i.Some? {
      AdmitKeepsProbe(s, g, i.value, now, key);
      PumpKeepsProbe(Admit(s, g, i.value, now), g, now, key);
    }
  }

  lemma {:induction false} PumpFromKeepsProbe(s: State, k: nat, now: real, key: string)
    requires k <= |s.groups| && ProbeKept(s, key)
    ensures ProbeKept(PumpFrom(s, k, now), key)
    decreases |s.groups| - k
  {
    hide ProbeKept;
    if k < |s.groups| {
      PumpKeepsProbe(s, k, now, key);
      PumpFromKeepsProbe(Pump(s, k, now), k + 1, now, key);
    }
  }

  /** A model whose probe is in flight has no waiter admitted. */
  lemma {:induction false} FlaggedModelWaits(s: State, g: nat, now: real, key: string, e: Entry)
    requires g < |s.groups| && e in s.groups[g].queue && e.modelKey == Some(key) && key != ""
    requires key in s.health && s.health[key].unhealthy && s.health[key].probeInFlight
    ensures e in Pump(s, g, now).groups[g].queue
    decreases |s.groups[g].queue|
  {
    var i := NextWaiter(s.health, s.groups[g], now);
    if i.Some? {
      var queue := s.groups[g].queue;
      BestIsAdmissible(s.health, s.groups[g], |queue|, now);
      assert queue == queue[..i.value] + [queue[i.value]] + queue[i.value + 1..];
      FlaggedModelWaits(Admit(s, g, i.value, now), g, now, key, e);
    }
  }

  lemma {:induction false} BestIsAdmissible(health: map<string, Health>, g: Group, n: nat, now: real)
    requires n <= |g.queue|
    ensures Best(health, g, n, now).Some? ==>
      ModelAdmissible(health, g.queue[Best(health, g, n, now).value].modelKey, now)
  {
    if n > 0 { BestIsAdmissible(health, g, n - 1, now); }
  }

  // ---------------------------------------------------------------------------
  // Requests
  // ---------------------------------------------------------------------------

  lemma WithGroupSlots(s: State, name: string)
    ensures SameProbes(s, WithGroup(s, name))
  {
    hide GroupIndex;
    var r := WithGroup(s, name);
    assert forall g | 0 <= g < |s.groups| :: r.groups[g] == s.groups[g];
  }

  /** Replacing a group by one with the same slots changes nothing for the probes. */
  lemma ReplacedSlots(s: State, g: nat, group: Group)
    requires g < |s.groups| && group.activeEntries == s.groups[g].activeEntries
    ensures SameProbes(s, s.(groups := s.groups[g := group]))
  {
  }

  lemma AcquireKeepsProbe(s: State, q: Request, now: real, key: string)
    requires ProbeKept(s, key)
    ensures ProbeKept(Acquire(s, q, now), key)
  {
    hide ProbeKept, Owned, EntryFor, ModelAdmissible;
    var t := WithGroup(s, q.group);
    var u := if Keyed(q.modelKey) && q.probeMax.Some?
             then t.(probeMaxOverrides := t.probeMaxOverrides[q.modelKey.value := q.probeMax.value])
             else t;
    WithGroupSlots(s, q.group);
    SameProbeKept(s, u, key);
    if !u.stopped && !q.aborted {
      var v := Enqueue(u, GroupOf(s, q.group), EntryFor(s, q));
      ReplacedSlots(u, GroupOf(s, q.group), v.groups[GroupOf(s, q.group)]);
      SameProbeKept(u, v, key);
      PumpKeepsProbe(v, GroupOf(s, q.group), now, key);
    }
  }

  lemma AbortKeepsProbe(s: State, g: nat, no: nat, key: string)
    requires g < |s.groups| && ProbeKept(s, key)
    ensures ProbeKept(AbortWaiter(s, g, no), key)
  {
    SameProbeKept(s, AbortWaiter(s, g, no), key);
  }

  /** Freeing a slot loses the owner of no other model's probe. */
  lemma FreeSlotOwners(s: State, g: nat, i: nat, key: string)
    requires g < |s.groups| && i < |s.groups[g].activeEntries| && Owned(s, key)
    requires var a := s.groups[g].activeEntries[i]; !(a.probe && Keyed(a.modelKey) && a.modelKey == Some(key))
    ensures Owned(FreeSlot(s, g, i), key)
  {
    if key !in s.probing {
      var r, active := FreeSlot(s, g, i), s.groups[g].activeEntries;
      var h :| 0 <= h < |s.groups| && HoldsProbe(s.groups[h].activeEntries, key);
      var a :| a in s.groups[h].activeEntries && a.probe && a.modelKey == Some(key);
      if h == g {
        assert active == active[..i] + [active[i]] + active[i + 1..];
        assert a in RemoveAt(active, i);
      }
      assert HoldsProbe(r.groups[h].activeEntries, key);
    }
  }

  /** An outcome that clears the flag and arms the next probe leaves nothing to own. */
  lemma ArmKeepsProbe(s: State, key: string, other: string)
    requires key in s.health && !s.health[key].probeInFlight && (other != key ==> ProbeKept(s, other))
    ensures ProbeKept(ArmBackgroundProbe(s, key), other)
  {
    var r := ArmBackgroundProbe(s, key);
    if other != key && Owned(s, other) { OwnedKept(s, r, other); }
  }

  lemma SetOtherHealth(s: State, key: string, h: Health, other: string)
    requires ProbeKept(s, other) && other != key
    ensures ProbeKept(SetHealth(s, key, h), other)
  {
    var r := SetHealth(s, key, h);
    if Owned(s, other) { OwnedKept(s, r, other); }
  }

  lemma RescheduleKeepsProbe(s: State, key: string, now: real, other: string)
    requires key in s.health && !s.health[key].probeInFlight && (other != key ==> ProbeKept(s, other))
    ensures ProbeKept(RescheduleProbe(s, key, now), other)
  {
    hide ProbeKept;
    var h := s.health[key];
    var t := SetHealth(s, key, h.(nextProbeAt := now + h.probeDelay));
    if other != key { SetOtherHealth(s, key, t.health[key], other); }
    ArmKeepsProbe(t, key, other);
  }

  /** What is left of `ProbeKept` when the owner has just let go. */
  ghost predicate Settleable(s: State, key: string) {
    key in s.health ==>
      var h := s.health[key];
      && (h.probeInFlight ==> h.unhealthy)
      && (h.unhealthy && !s.stopped && key in s.probers ==> h.probeInFlight || key in s.probeTimers)
  }

  lemma SettleKeepsProbe(s: State, key: string, now: real, other: string)
    requires Settleable(s, key) && (other != key ==> ProbeKept(s, other))
    ensures ProbeKept(SettleStaleProbe(s, key, now), other)
  {
    if key in s.health && s.health[key].probeInFlight {
      var t := SetHealth(s, key, s.health[key].(probeInFlight := false));
      if other != key { SetOtherHealth(s, key, t.health[key], other); }
      RescheduleKeepsProbe(t, key, now, other);
    }
  }

  /** Releasing a probe's slot settles the probe. */
  lemma StaleProbeSettled(s: State, g: nat, i: nat, now: real, other: string)
    requires g < |s.groups| && i < |s.groups[g].activeEntries|
    requires ProbeKept(s, other)
    ensures var a := s.groups[g].activeEntries[i];
      var t := FreeSlot(s, g, i);
      ProbeKept(if a.probe && Keyed(a.modelKey) then SettleStaleProbe(t, a.modelKey.value, now) else t, other)
  {
    var a, t := s.groups[g].activeEntries[i], FreeSlot(s, g, i);
    if a.probe && a.modelKey == Some(other) && other != "" {
      SettleKeepsProbe(t, other, now, other);
    } else {
      if Owned(s, other) { FreeSlotOwners(s, g, i, other); }
      assert ProbeKept(t, other);
      if a.probe && Keyed(a.modelKey) { SettleOther(t, a.modelKey.value, now, other); }
    }
  }

  lemma SettleOther(s: State, key: string, now: real, other: string)
    requires other != key && ProbeKept(s, other)
    ensures ProbeKept(SettleStaleProbe(s, key, now), other)
  {
    hide ProbeKept;
    if key in s.health && s.health[key].unhealthy && s.health[key].probeInFlight {
      var t := SetHealth(s, key, s.health[key].(probeInFlight := false));
      SetOtherHealth(s, key, t.health[key], other);
      RescheduleKeepsProbe(t, key, now, other);
    }
  }

  lemma ReleaseKeepsProbe(s: State, g: nat, no: nat, now: real, key: string)
    requires g < |s.groups| && ProbeKept(s, key)
    ensures ProbeKept(Release(s, g, no, now), key)
  {
    hide ProbeKept;
    var i := IndexOf(ActiveNos(s.groups[g].activeEntries), no);
    if i.Some? {
      var a, t := s.groups[g].activeEntries[i.value], FreeSlot(s, g, i.value);
      StaleProbeSettled(s, g, i.value, now, key);
      var u := if a.probe && Keyed(a.modelKey) then SettleStaleProbe(t, a.modelKey.value, now) else t;
      PumpKeepsProbe(u, g, now, key);
    }
  }

  lemma {:induction false} EscalateKeepsProbe(s: State, k: nat, key: string, rank: nat, now: real, other: string)
    requires k <= |s.groups| && ProbeKept(s, other)
    ensures ProbeKept(EscalateFrom(s, k, key, rank, now), other)
    decreases |s.groups| - k
  {
    hide ProbeKept;
    if k < |s.groups| {
      var raised := Raised(s.groups[k].queue, key, rank);
      if raised == s.groups[k].queue {
        EscalateKeepsProbe(s, k + 1, key, rank, now, other);
      } else {
        var t := s.(groups := s.groups[k := s.groups[k].(queue := raised)]);
        SameProbeKept(s, t, other);
        PumpKeepsProbe(t, k, now, other);
        EscalateKeepsProbe(Pump(t, k, now), k + 1, key, rank, now, other);
      }
    }
  }

  lemma {:induction false} DrainKeepsProbe(s: State, k: nat, key: string)
    requires k <= |s.groups| && ProbeKept(s, key)
    ensures ProbeKept(DrainFrom(s, k), key)
    decreases |s.groups| - k
  {
    hide ProbeKept;
    if k < |s.groups| {
      var t := s.(groups := s.groups[k := s.groups[k].(queue := [])],
                  rejected := s.rejected + multiset(QueueNos(s.groups[k].queue)));
      SameProbeKept(s, t, key);
      DrainKeepsProbe(t, k + 1, key);
    }
  }

  // ---------------------------------------------------------------------------
  // Outcomes
  // ---------------------------------------------------------------------------

  lemma RecoverKeepsProbe(cfg: Tuning, s: State, key: string, now: real, other: string)
    requires Settleable(s, key) && (other != key ==> ProbeKept(s, other))
    ensures ProbeKept(Recover(cfg, s, key, now), other)
  {
    if key in s.health {
      var h := s.health[key].(failures := 0, probeInFlight := false);
      var well := h.(unhealthy := false, nextProbeAt := 0.0, probeDelay := cfg.probeBase);
      if other != key {
        SetOtherHealth(s, key, h, other);
        SetOtherHealth(s, key, well, other);
      }
      if h.unhealthy { PumpFromKeepsProbe(SetHealth(s, key, well), 0, now, other); }
    }
  }

  lemma SetKeepsProbe(s: State, key: string, h: Health, other: string)
    requires !h.probeInFlight && (other != key ==> ProbeKept(s, other))
    ensures !h.unhealthy ==> ProbeKept(SetHealth(s, key, h), other)
    ensures ProbeKept(ArmBackgroundProbe(SetHealth(s, key, h), key), other)
  {
    hide ProbeKept;
    var t := SetHealth(s, key, h);
    if other != key { SetOtherHealth(s, key, h, other); }
    ArmKeepsProbe(t, key, other);
    if other == key && !h.unhealthy { WellKeepsProbe(t, key); }
  }

  lemma WellKeepsProbe(s: State, key: string)
    requires key in s.health && !s.health[key].probeInFlight && !s.health[key].unhealthy
    ensures ProbeKept(s, key)
  {
  }

  lemma FailKeepsProbe(cfg: Tuning, s: State, key: string, now: real, other: string)
    requires Settleable(s, key) && (other != key ==> ProbeKept(s, other))
    ensures ProbeKept(Fail(cfg, s, key, now), other)
  {
    hide ProbeKept, ArmBackgroundProbe, SetHealth;
    var was := if key in s.health then s.health[key] else Health(false, 0, false, 0.0, cfg.probeBase);
    var h := was.(failures := was.failures + 1);
    if h.unhealthy {
      var delay := Least(h.probeDelay * 2.0, ProbeMax(cfg, s, key));
      SetKeepsProbe(s, key, h.(probeInFlight := false, probeDelay := delay, nextProbeAt := now + delay), other);
    } else if h.failures >= cfg.unhealthyThreshold {
      SetKeepsProbe(s, key, h.(unhealthy := true, probeInFlight := false, probeDelay := cfg.probeBase,
                               nextProbeAt := now + cfg.probeBase), other);
    } else {
      SetKeepsProbe(s, key, h, other);
    }
  }

  lemma NoteModelKeepsProbe(
    cfg: Tuning, s: State, key: string, cls: Option<FailureClass>, status: Option<nat>, now: real, other: string)
    requires Settleable(s, key) && (other != key ==> ProbeKept(s, other))
    ensures ProbeKept(NoteModelOutcome(cfg, s, key, cls, status, now), other)
  {
    hide Owned, Recover, Fail;
    RecoverKeepsProbe(cfg, s, key, now, other);
    FailKeepsProbe(cfg, s, key, now, other);
    if key in s.health && s.health[key].probeInFlight {
      var cleared := SetHealth(s, key, s.health[key].(probeInFlight := false));
      if other != key { SetOtherHealth(s, key, cleared.health[key], other); }
      ArmKeepsProbe(cleared, key, other);
      RescheduleKeepsProbe(cleared, key, now, other);
    }
  }

  lemma ThrottledSlots(g: Group, retryAfter: Option<real>, jitter: real, now: real)
    ensures Throttled(g, retryAfter, jitter, now).activeEntries == g.activeEntries
  {
  }

  lemma KeptIsSettleable(s: State, key: string)
    requires ProbeKept(s, key)
    ensures Settleable(s, key)
  {
  }

  lemma NoteOutcomeKeepsProbe(cfg: Tuning, s: State, r: Report, now: real, key: string)
    requires ProbeKept(s, key) && (r.modelKey.Some? ==> ProbeKept(s, r.modelKey.value))
    ensures ProbeKept(NoteOutcome(cfg, s, r, now), key)
  {
    hide ProbeKept, Owned, NoteModelOutcome, Throttled, GroupIndex;
    var t, g := WithGroup(s, r.group), GroupOf(s, r.group);
    var group := if r.status == Some(429) || r.status == Some(503)
                 then Throttled(t.groups[g], r.retryAfter, r.jitter, now)
                 else t.groups[g].(throttles := 0);
    var u := t.(groups := t.groups[g := group]);
    ThrottledSlots(t.groups[g], r.retryAfter, r.jitter, now);
    WithGroupSlots(s, r.group);
    ReplacedSlots(t, g, group);
    SameProbeKept(s, t, key);
    SameProbeKept(t, u, key);
    if r.modelKey.Some? {
      SameProbeKept(s, t, r.modelKey.value);
      SameProbeKept(t, u, r.modelKey.value);
      KeptIsSettleable(u, r.modelKey.value);
      NoteModelKeepsProbe(cfg, u, r.modelKey.value, r.cls, r.status, now, key);
    }
  }

  lemma RegisterKeepsProbe(s: State, key: string, other: string)
    requires ProbeKept(s, other)
    ensures ProbeKept(RegisterProber(s, key), other)
  {
    var r := RegisterProber(s, key);
    if Owned(s, other) { OwnedKept(s, r, other); }
  }

  lemma TimerKeepsProbe(s: State, key: string, now: real, other: string)
    requires ProbeKept(s, other)
    ensures ProbeKept(ProbeTimerFires(s, key, now), other)
  {
    var r := ProbeTimerFires(s, key, now);
    if Owned(s, other) { OwnedKept(s, r, other); }
  }

  lemma ProbeEndKeepsProbe(cfg: Tuning, s: State, key: string, ok: bool, status: Option<nat>, now: real, other: string)
    requires ProbeKept(s, key) && ProbeKept(s, other)
    ensures ProbeKept(ProbeSettles(cfg, s, key, ok, status, now), other)
  {
    var t := s.(probing := s.probing - multiset{key});
    if key in s.probing {
      if other != key || s.stopped {
        assert ProbeKept(t, other);
      }
      NoteModelKeepsProbe(cfg, t, key, None, None, now, other);
      NoteModelKeepsProbe(cfg, t, key, Some(Environmental), status, now, other);
    }
  }

  // ---------------------------------------------------------------------------
  // Runs
  // ---------------------------------------------------------------------------

  ghost predicate AllProbesKept(s: State) {
    forall key: string :: ProbeKept(s, key)
  }

  lemma TakeKeepsProbe(cfg: Tuning, s: State, t: Timed, key: string)
    requires AllProbesKept(s)
    ensures ProbeKept(Take(cfg, s, t), key)
  {
    hide ProbeKept, Acquire, AbortWaiter, Release, Escalate, NoteOutcome, RegisterProber, ProbeTimerFires, ProbeSettles,
      Pump, Stop;
    assert ProbeKept(s, key);
    match t.step
    case Ask(q) => AcquireKeepsProbe(s, q, t.now, key);
    case Abort(g, n) => if g < |s.groups| { AbortKeepsProbe(s, g, n, key); }
    case GiveBack(g, n) => if g < |s.groups| { ReleaseKeepsProbe(s, g, n, t.now, key); }
    case Raise(name, rank) => RaiseKeepsProbe(s, name, rank, t.now, key);
    case ClearRaise(name) => SameProbeKept(s, ClearEscalation(s, name), key);
    case Settled(r) =>
      assert r.modelKey.Some? ==> ProbeKept(s, r.modelKey.value);
      NoteOutcomeKeepsProbe(cfg, s, r, t.now, key);
    case AddProber(name) => RegisterKeepsProbe(s, name, key);
    case ProbeTimer(name) => TimerKeepsProbe(s, name, t.now, key);
    case ProbeEnd(name, ok, status) =>
      assert ProbeKept(s, name);
      ProbeEndKeepsProbe(cfg, s, name, ok, status, t.now, key);
    case PumpTimer(g) => if g < |s.groups| { PumpKeepsProbe(s, g, t.now, key); }
    case Shutdown => StopKeepsProbe(s, key);
  }

  lemma RaiseKeepsProbe(s: State, name: string, rank: nat, now: real, key: string)
    requires ProbeKept(s, key)
    ensures ProbeKept(Escalate(s, name, rank, now), key)
  {
    var pinned := if name in s.sticky && s.sticky[name] >= rank then s.sticky[name] else rank;
    var t := s.(sticky := s.sticky[name := pinned]);
    SameProbeKept(s, t, key);
    EscalateKeepsProbe(t, 0, name, pinned, now, key);
  }

  lemma StopKeepsProbe(s: State, key: string)
    requires ProbeKept(s, key)
    ensures ProbeKept(Stop(s), key)
  {
    DrainKeepsProbe(s.(stopped := true, probeTimers := {}), 0, key);
  }

  /**
   * No probe is ever lost: in every state of every run, a model whose probe flag is set is unhealthy, and until
   * the scheduler stops some unreleased slot admitted as its probe, or a running background probe, will settle
   * it; and an unhealthy model with a prober has its flag set or its next probe armed.
   */
  lemma {:induction false} NoProbeIsLost(cfg: Tuning, groups: seq<Group>, steps: seq<Timed>)
    ensures AllProbesKept(After(cfg, Fresh(groups), steps))
  {
    if steps != [] {
      var before := After(cfg, Fresh(groups), steps[..|steps| - 1]);
      NoProbeIsLost(cfg, groups, steps[..|steps| - 1]);
      forall key: string ensures ProbeKept(After(cfg, Fresh(groups), steps), key) {
        TakeKeepsProbe(cfg, before, steps[|steps| - 1], key);
      }
    }
  }

  /** So a model nobody is probing is admissible as soon as its probe window opens. */
  lemma NeverGatedForever(cfg: Tuning, groups: seq<Group>, steps: seq<Timed>, key: string, now: real)
    requires var s := After(cfg, Fresh(groups), steps);
      !s.stopped && !Owned(s, key) && key in s.health && now >= s.health[key].nextProbeAt
    ensures ModelAdmissible(After(cfg, Fresh(groups), steps).health, Some(key), now)
  {
    NoProbeIsLost(cfg, groups, steps);
    assert ProbeKept(After(cfg, Fresh(groups), steps), key);
  }
}
