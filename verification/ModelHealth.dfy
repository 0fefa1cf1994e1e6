/** A model's health is a closed form of its outcome history, whatever else the scheduler did meanwhile. */
module ModelHealth {
  import opened Transcript
  import opened Scheduler

  /** The part of a model's health its outcomes decide. */
  datatype Core = Core(unhealthy: bool, failures: nat, probeDelay: real)

  function CoreOf(s: State, key: string): Option<Core> {
    if key in s.health then
      var h := s.health[key];
      Some(Core(h.unhealthy, h.failures, h.probeDelay))
    else None
  }

  // ---------------------------------------------------------------------------
  // What leaves the health alone
  // ---------------------------------------------------------------------------

  lemma {:induction false} PumpCore(s: State, g: nat, now: real, key: string)
    requires g < |s.groups|
    ensures CoreOf(Pump(s, g, now), key) == CoreOf(s, key)
    decreases |s.groups[g].queue|
  {
    var i := NextWaiter(s.health, s.groups[g], now);
    if i.Some? {
      assert CoreOf(Admit(s, g, i.value, now), key) == CoreOf(s, key);
      PumpCore(Admit(s, g, i.value, now), g, now, key);
    }
  }

  lemma {:induction false} PumpFromCore(s: State, k: nat, now: real, key: string)
    requires k <= |s.groups|
    ensures CoreOf(PumpFrom(s, k, now), key) == CoreOf(s, key)
    decreases |s.groups| - k
  {
    hide CoreOf;
    if k < |s.groups| {
      PumpCore(s, k, now, key);
      PumpFromCore(Pump(s, k, now), k + 1, now, key);
    }
  }

  lemma {:induction false} EscalateCore(s: State, k: nat, name: string, rank: nat, now: real, key: string)
    requires k <= |s.groups|
    ensures CoreOf(EscalateFrom(s, k, name, rank, now), key) == CoreOf(s, key)
    decreases |s.groups| - k
  {
    if k < |s.groups| {
      var raised := Raised(s.groups[k].queue, name, rank);
      var t := s.(groups := s.groups[k := s.groups[k].(queue := raised)]);
      PumpCore(t, k, now, key);
      EscalateCore(if raised != s.groups[k].queue then Pump(t, k, now) else s, k + 1, name, rank, now, key);
    }
  }

  lemma {:induction false} DrainCore(s: State, k: nat, key: string)
    requires k <= |s.groups|
    ensures CoreOf(DrainFrom(s, k), key) == CoreOf(s, key)
    decreases |s.groups| - k
  {
    if k < |s.groups| {
      DrainCore(s.(groups := s.groups[k := s.groups[k].(queue := [])],
                   rejected := s.rejected + multiset(QueueNos(s.groups[k].queue))), k + 1, key);
    }
  }

  lemma AcquireCore(s: State, q: Request, now: real, key: string)
    ensures CoreOf(Acquire(s, q, now), key) == CoreOf(s, key)
  {
    hide Pump, GroupIndex, EntryFor;
    var t := WithGroup(s, q.group);
    var u := if Keyed(q.modelKey) && q.probeMax.Some?
             then t.(probeMaxOverrides := t.probeMaxOverrides[q.modelKey.value := q.probeMax.value])
             else t;
    if !u.stopped && !q.aborted {
      PumpCore(Enqueue(u, GroupOf(s, q.group), EntryFor(s, q)), GroupOf(s, q.group), now, key);
    }
  }

  lemma StaleCore(s: State, k: string, now: real, key: string)
    ensures CoreOf(SettleStaleProbe(s, k, now), key) == CoreOf(s, key)
  {
    hide RescheduleProbe;
    if k in s.health { NeutralCore(s, k, now, key); }
  }

  lemma ReleaseCore(s: State, g: nat, no: nat, now: real, key: string)
    requires g < |s.groups|
    ensures CoreOf(Release(s, g, no, now), key) == CoreOf(s, key)
  {
    hide Pump, IndexOf, SettleStaleProbe;
    var i := IndexOf(ActiveNos(s.groups[g].activeEntries), no);
    if i.Some? {
      var a := s.groups[g].activeEntries[i.value];
      var t := FreeSlot(s, g, i.value);
      if a.probe && Keyed(a.modelKey) { StaleCore(t, a.modelKey.value, now, key); }
      PumpCore(if a.probe && Keyed(a.modelKey) then SettleStaleProbe(t, a.modelKey.value, now) else t, g, now, key);
    }
  }

  // ---------------------------------------------------------------------------
  // What an outcome does to it
  // ---------------------------------------------------------------------------

  /** An outcome, as the health of its model sees it. */
  datatype Evidence = Success | Strike | Neutral

  function EvidenceOf(cls: Option<FailureClass>, status: Option<nat>): Evidence {
    if cls.None? then Success
    else if cls.value.Environmental? && status != Some(429) then Strike
    else Neutral
  }

  function CoreAfter(cfg: Tuning, cap: real, c: Option<Core>, e: Evidence): Option<Core> {
    match e
    case Neutral => c
    case Success =>
      if c.None? then None
      else if c.value.unhealthy then Some(Core(false, 0, cfg.probeBase)) else Some(c.value.(failures := 0))
    case Strike =>
      var was := if c.Some? then c.value else Core(false, 0, cfg.probeBase);
      var n := was.failures + 1;
      if was.unhealthy then Some(Core(true, n, Least(was.probeDelay * 2.0, cap)))
      else if n >= cfg.unhealthyThreshold then Some(Core(true, n, cfg.probeBase))
      else Some(was.(failures := n))
  }

  lemma RecoverCore(cfg: Tuning, s: State, k: string, now: real, key: string)
    ensures CoreOf(Recover(cfg, s, k, now), key) ==
      if k == key then CoreAfter(cfg, ProbeMax(cfg, s, key), CoreOf(s, key), Success) else CoreOf(s, key)
  {
    hide Pump, PumpFrom;
    if k in s.health && s.health[k].unhealthy {
      var h := s.health[k].(failures := 0, probeInFlight := false);
      var well := h.(unhealthy := false, nextProbeAt := 0.0, probeDelay := cfg.probeBase);
      PumpFromCore(SetHealth(s, k, well), 0, now, key);
    }
  }

  lemma FailCore(cfg: Tuning, s: State, k: string, now: real, key: string)
    ensures CoreOf(Fail(cfg, s, k, now), key) ==
      if k == key then CoreAfter(cfg, ProbeMax(cfg, s, key), CoreOf(s, key), Strike) else CoreOf(s, key)
  {
  }

  lemma NeutralCore(s: State, k: string, now: real, key: string)
    requires k in s.health
    ensures var cleared := SetHealth(s, k, s.health[k].(probeInFlight := false));
      && CoreOf(ArmBackgroundProbe(cleared, k), key) == CoreOf(s, key)
      && CoreOf(RescheduleProbe(cleared, k, now), key) == CoreOf(s, key)
  {
  }

  lemma OutcomeCore(
    cfg: Tuning, s: State, k: string, cls: Option<FailureClass>, status: Option<nat>, now: real, key: string)
    ensures CoreOf(NoteModelOutcome(cfg, s, k, cls, status, now), key) ==
      if k == key then CoreAfter(cfg, ProbeMax(cfg, s, key), CoreOf(s, key), EvidenceOf(cls, status))
      else CoreOf(s, key)
  {
    hide Recover, Fail, ArmBackgroundProbe, RescheduleProbe, CoreOf, ProbeMax;
    RecoverCore(cfg, s, k, now, key);
    FailCore(cfg, s, k, now, key);
    if k in s.health { NeutralCore(s, k, now, key); }
  }

  lemma NoteOutcomeCore(cfg: Tuning, s: State, r: Report, now: real, key: string)
    ensures CoreOf(NoteOutcome(cfg, s, r, now), key) ==
      if r.modelKey == Some(key) then CoreAfter(cfg, ProbeMax(cfg, s, key), CoreOf(s, key), EvidenceOf(r.cls, r.status))
      else CoreOf(s, key)
  {
    hide NoteModelOutcome, Throttled, CoreAfter, GroupIndex;
    var t, g := WithGroup(s, r.group), GroupOf(s, r.group);
    var group := if r.status == Some(429) || r.status == Some(503)
                 then Throttled(t.groups[g], r.retryAfter, r.jitter, now)
                 else t.groups[g].(throttles := 0);
    var u := t.(groups := t.groups[g := group]);
    assert CoreOf(u, key) == CoreOf(s, key) && ProbeMax(cfg, u, key) == ProbeMax(cfg, s, key);
    if r.modelKey.Some? { OutcomeCore(cfg, u, r.modelKey.value, r.cls, r.status, now, key); }
  }

  /** The evidence a step brings on the model, if any. */
  function StepEvidence(s: State, step: Step, key: string): Evidence {
    match step
    case Settled(r) => if r.modelKey == Some(key) then EvidenceOf(r.cls, r.status) else Neutral
    case ProbeEnd(k, ok, status) =>
      if k != key || k !in s.probing || s.stopped then Neutral
      else if ok then Success
      else EvidenceOf(Some(Environmental), status)
    case _ => Neutral
  }

  lemma ProbeEndCore(cfg: Tuning, s: State, k: string, ok: bool, status: Option<nat>, now: real, key: string)
    ensures CoreOf(ProbeSettles(cfg, s, k, ok, status, now), key) ==
      CoreAfter(cfg, ProbeMax(cfg, s, key), CoreOf(s, key), StepEvidence(s, ProbeEnd(k, ok, status), key))
  {
    hide NoteModelOutcome;
    var t := s.(probing := s.probing - multiset{k});
    assert CoreOf(t, key) == CoreOf(s, key) && ProbeMax(cfg, t, key) == ProbeMax(cfg, s, key);
    OutcomeCore(cfg, t, k, None, None, now, key);
    OutcomeCore(cfg, t, k, Some(Environmental), status, now, key);
  }

  lemma SameHealth(s: State, r: State, key: string)
    requires r.health == s.health
    ensures CoreOf(r, key) == CoreOf(s, key)
  {
  }

  /** Pins, probers, timers and waiters that give up leave every model's health alone. */
  lemma TouchCore(s: State, k: string, now: real, g: nat, no: nat, key: string)
    ensures CoreOf(ClearEscalation(s, k), key) == CoreOf(s, key)
    ensures CoreOf(RegisterProber(s, k), key) == CoreOf(s, key)
    ensures CoreOf(ProbeTimerFires(s, k, now), key) == CoreOf(s, key)
    ensures g < |s.groups| ==> CoreOf(AbortWaiter(s, g, no), key) == CoreOf(s, key)
  {
  }

  lemma StepCore(cfg: Tuning, s: State, t: Timed, key: string)
    ensures CoreOf(Take(cfg, s, t), key) ==
      CoreAfter(cfg, ProbeMax(cfg, s, key), CoreOf(s, key), StepEvidence(s, t.step, key))
  {
    hide NoteOutcome, Acquire, Release, ProbeSettles, Pump, AbortWaiter, ClearEscalation, RegisterProber,
      ProbeTimerFires, EscalateFrom, DrainFrom, CoreOf, ProbeMax;
    match t.step
    case Ask(q) => AcquireCore(s, q, t.now, key);
    case Abort(g, n) => TouchCore(s, key, t.now, g, n, key);
    case GiveBack(g, n) => if g < |s.groups| { ReleaseCore(s, g, n, t.now, key); }
    case Raise(name, rank) =>
      var pinned := if name in s.sticky && s.sticky[name] >= rank then s.sticky[name] else rank;
      EscalateCore(s.(sticky := s.sticky[name := pinned]), 0, name, pinned, t.now, key);
      SameHealth(s, s.(sticky := s.sticky[name := pinned]), key);
    case ClearRaise(name) => TouchCore(s, name, t.now, 0, 0, key);
    case Settled(r) => NoteOutcomeCore(cfg, s, r, t.now, key);
    case AddProber(name) => TouchCore(s, name, t.now, 0, 0, key);
    case ProbeTimer(name) => TouchCore(s, name, t.now, 0, 0, key);
    case ProbeEnd(name, ok, status) => ProbeEndCore(cfg, s, name, ok, status, t.now, key);
    case PumpTimer(g) => if g < |s.groups| { PumpCore(s, g, t.now, key); }
    case Shutdown =>
      DrainCore(s.(stopped := true, probeTimers := {}), 0, key);
      SameHealth(s, s.(stopped := true, probeTimers := {}), key);
  }

  // ---------------------------------------------------------------------------
  // The closed form
  // ---------------------------------------------------------------------------

  /** The model's strikes since its last clean success. */
  function Streak(cfg: Tuning, s: State, steps: seq<Timed>, key: string): nat {
    if steps == [] then 0 else
      var before := steps[..|steps| - 1];
      match StepEvidence(After(cfg, s, before), steps[|steps| - 1].step, key)
      case Success => 0
      case Strike => Streak(cfg, s, before, key) + 1
      case Neutral => Streak(cfg, s, before, key)
  }

  /** The strikes that turn a model unhealthy. */
  function Turning(cfg: Tuning): nat {
    if cfg.unhealthyThreshold >= 1 then cfg.unhealthyThreshold else 1
  }

  /** The probe delay after `n` strikes: the base at first, then doubled up to the cap. */
  function Delay(cfg: Tuning, cap: real, n: nat): real {
    if n <= Turning(cfg) then cfg.probeBase else Least(cfg.probeBase * Pow2(n - Turning(cfg)), cap)
  }

  ghost predicate ClosedForm(cfg: Tuning, cap: real, c: Option<Core>, n: nat) {
    if c.None? then n == 0 else
      && c.value.failures == n
      && (c.value.unhealthy <==> n >= Turning(cfg))
      && c.value.probeDelay == Delay(cfg, cap, n)
  }

  /** The effective cap of the model never changes over the run. */
  ghost predicate CapFixed(cfg: Tuning, s: State, steps: seq<Timed>, key: string, cap: real) {
    ProbeMax(cfg, After(cfg, s, steps), key) == cap
    && (steps != [] ==> CapFixed(cfg, s, steps[..|steps| - 1], key, cap))
  }

  lemma DelayDoubles(cfg: Tuning, cap: real, n: nat)
    requires n >= Turning(cfg) && cap >= 0.0
    ensures Delay(cfg, cap, n + 1) == Least(Delay(cfg, cap, n) * 2.0, cap)
  {
    var j := n - Turning(cfg);
    assert Pow2(j + 1) == 2.0 * Pow2(j);
    assert cfg.probeBase * Pow2(j + 1) == (cfg.probeBase * Pow2(j)) * 2.0;
    assert Pow2(0) == 1.0;
  }

  lemma EvidenceKeepsForm(cfg: Tuning, cap: real, c: Option<Core>, n: nat, e: Evidence)
    requires cap >= 0.0 && ClosedForm(cfg, cap, c, n)
    ensures ClosedForm(cfg, cap, CoreAfter(cfg, cap, c, e),
                       match e case Success => 0 case Strike => n + 1 case Neutral => n)
  {
    if e.Strike? && n >= Turning(cfg) { DelayDoubles(cfg, cap, n); }
  }

  /**
   * Over every run, a model is unhealthy exactly when its strikes (environmental failures other than a plain
   * 429) since its last clean success number at least the threshold, and its probe delay is then the
   * base, doubled with every further strike up to the cap. Nothing else the scheduler does moves either.
   */
  lemma {:induction false} HealthIsClosedForm(
    cfg: Tuning, groups: seq<Group>, steps: seq<Timed>, key: string, cap: real)
    requires cap >= 0.0 && CapFixed(cfg, Fresh(groups), steps, key, cap)
    ensures ClosedForm(cfg, cap, CoreOf(After(cfg, Fresh(groups), steps), key), Streak(cfg, Fresh(groups), steps, key))
  {
    if steps != [] {
      var before, t := steps[..|steps| - 1], steps[|steps| - 1];
      var s := After(cfg, Fresh(groups), before);
      HealthIsClosedForm(cfg, groups, before, key, cap);
      StepCore(cfg, s, t, key);
      var streak := Streak(cfg, Fresh(groups), before, key);
      EvidenceKeepsForm(cfg, cap, CoreOf(s, key), streak, StepEvidence(s, t.step, key));
    }
  }

  ghost predicate Textbook(cfg: Tuning, cap: real, n: nat) {
    && (n >= Turning(cfg) <==> n >= cfg.unhealthyThreshold)
    && (n >= cfg.unhealthyThreshold ==>
          Delay(cfg, cap, n) == Least(cfg.probeBase * Pow2(n - cfg.unhealthyThreshold), cap))
  }

  /**
   * The textbook form min(base * 2^(n - threshold), cap) is the code's exactly for a threshold of at least 1 and a
   * base within the cap.
   */
  lemma TextbookExactlyWhen(cfg: Tuning, cap: real)
    ensures (forall n: nat :: Textbook(cfg, cap, n)) <==> cfg.unhealthyThreshold >= 1 && cfg.probeBase <= cap
  {
    assert Pow2(0) == 1.0;
    if forall n: nat :: Textbook(cfg, cap, n) {
      assert Textbook(cfg, cap, 0);
      assert Textbook(cfg, cap, cfg.unhealthyThreshold);
    }
  }
}
