/** How many probes of a model are out at once, and when there is a second one. */
module SingleProbe {
  import opened Transcript
  import opened Scheduler
  import opened Probes
  import opened Admissions

  // ---------------------------------------------------------------------------
  // Counting probes
  // ---------------------------------------------------------------------------

  predicate IsProbeOf(a: Active, key: string) {
    a.probe && Keyed(a.modelKey) && a.modelKey == Some(key)
  }

  function ProbeSlots(active: seq<Active>, key: string): nat {
    if active == [] then 0
    else ProbeSlots(active[..|active| - 1], key) + (if IsProbeOf(active[|active| - 1], key) then 1 else 0)
  }

  function AllProbeSlots(groups: seq<Group>, key: string): nat {
    if groups == [] then 0
    else AllProbeSlots(groups[..|groups| - 1], key) + ProbeSlots(groups[|groups| - 1].activeEntries, key)
  }

  /** The probes of the model that are out: held slots admitted as its probe, and background probes under way. */
  function ProbesOut(s: State, key: string): nat {
    AllProbeSlots(s.groups, key) + s.probing[key]
  }

  predicate Flagged(s: State, key: string) {
    key in s.health && s.health[key].probeInFlight
  }

  function Flag(s: State, key: string): nat {
    if Flagged(s, key) then 1 else 0
  }

  /** The probes out that the flag does not speak for. */
  function Strays(s: State, key: string): int {
    ProbesOut(s, key) - Flag(s, key)
  }

  lemma {:induction false} SlotsConcat(a: seq<Active>, b: seq<Active>, key: string)
    ensures ProbeSlots(a + b, key) == ProbeSlots(a, key) + ProbeSlots(b, key)
  {
    if b == [] {
      assert a + b == a;
    } else {
      assert (a + b)[..|a + b| - 1] == a + b[..|b| - 1];
      SlotsConcat(a, b[..|b| - 1], key);
    }
  }

  lemma OneSlot(a: Active, key: string)
    ensures ProbeSlots([a], key) == if IsProbeOf(a, key) then 1 else 0
  {
    assert [a][..0] == [];
  }

  lemma SlotRemoved(active: seq<Active>, i: nat, key: string)
    requires i < |active|
    ensures ProbeSlots(active, key) ==
      ProbeSlots(RemoveAt(active, i), key) + if IsProbeOf(active[i], key) then 1 else 0
  {
    assert active == (active[..i] + [active[i]]) + active[i + 1..];
    SlotsConcat(active[..i] + [active[i]], active[i + 1..], key);
    SlotsConcat(active[..i], [active[i]], key);
    SlotsConcat(active[..i], active[i + 1..], key);
    OneSlot(active[i], key);
  }

  lemma {:induction false} GroupReplaced(groups: seq<Group>, k: nat, g: Group, key: string)
    requires k < |groups|
    ensures AllProbeSlots(groups[k := g], key) + ProbeSlots(groups[k].activeEntries, key) ==
      AllProbeSlots(groups, key) + ProbeSlots(g.activeEntries, key)
  {
    var n := |groups| - 1;
    if k < n {
      GroupReplaced(groups[..n], k, g, key);
      assert groups[k := g][..n] == groups[..n][k := g];
    } else {
      assert groups[k := g][..n] == groups[..n];
    }
  }

  lemma {:induction false} SlotsHeld(active: seq<Active>, key: string)
    ensures ProbeSlots(active, key) > 0 <==> HoldsProbe(active, key)
  {
    if active != [] {
      var init, last := active[..|active| - 1], active[|active| - 1];
      SlotsHeld(init, key);
      assert active == init + [last];
      assert forall a :: a in active <==> a in init || a == last;
    }
  }

  lemma {:induction false} GroupsHeld(groups: seq<Group>, key: string)
    ensures AllProbeSlots(groups, key) > 0 <==>
      exists g | 0 <= g < |groups| :: HoldsProbe(groups[g].activeEntries, key)
  {
    hide HoldsProbe;
    if groups != [] {
      var n := |groups| - 1;
      GroupsHeld(groups[..n], key);
      SlotsHeld(groups[n].activeEntries, key);
      if g :| 0 <= g < |groups| && HoldsProbe(groups[g].activeEntries, key) {
        assert g < n ==> groups[..n][g] == groups[g];
      }
    }
  }

  /** A probe is out exactly when the model's probe has an owner. */
  lemma OutMeansOwned(s: State, key: string)
    ensures ProbesOut(s, key) > 0 <==> Owned(s, key)
  {
    GroupsHeld(s.groups, key);
  }

  // ---------------------------------------------------------------------------
  // What no pump changes
  // ---------------------------------------------------------------------------

  /** The same slots in the same groups, and groups without any. */
  ghost predicate SameSlots(s: State, r: State) {
    && |s.groups| <= |r.groups|
    && r.probing == s.probing
    && (forall g | 0 <= g < |s.groups| :: r.groups[g].activeEntries == s.groups[g].activeEntries)
    && (forall g | |s.groups| <= g < |r.groups| :: r.groups[g].activeEntries == [])
  }

  lemma {:induction false} SameCount(a: seq<Group>, b: seq<Group>, key: string)
    requires |a| <= |b| && forall g | 0 <= g < |a| :: b[g].activeEntries == a[g].activeEntries
    requires forall g | |a| <= g < |b| :: b[g].activeEntries == []
    ensures AllProbeSlots(b, key) == AllProbeSlots(a, key)
    decreases |b|
  {
    if b != [] {
      var n := |b| - 1;
      if |a| == |b| {
        SameCount(a[..n], b[..n], key);
      } else {
        SameCount(a, b[..n], key);
      }
    }
  }

  /** Where no slot changes hands the strays change by what the flag does. */
  lemma FlagAlone(s: State, r: State, key: string)
    requires SameSlots(s, r)
    ensures Strays(r, key) == Strays(s, key) + Flag(s, key) - Flag(r, key)
  {
    SameCount(s.groups, r.groups, key);
  }

  /** A probe that is admitted sets the flag it found clear. */
  lemma AdmitKeepsStrays(s: State, g: nat, i: nat, now: real, key: string)
    requires g < |s.groups| && i < |s.groups[g].queue|
    requires ModelAdmissible(s.health, s.groups[g].queue[i].modelKey, now)
    ensures Strays(Admit(s, g, i, now), key) == Strays(s, key)
  {
    var group, r := s.groups[g], Admit(s, g, i, now);
    var a := r.groups[g].activeEntries[|group.activeEntries|];
    SlotsConcat(group.activeEntries, [a], key);
    OneSlot(a, key);
    GroupReplaced(s.groups, g, r.groups[g], key);
  }

  lemma {:induction false} PumpKeepsStrays(s: State, g: nat, now: real, key: string)
    requires g < |s.groups|
    ensures Strays(Pump(s, g, now), key) == Strays(s, key)
    decreases |s.groups[g].queue|
  {
    hide Strays, ModelAdmissible;
    var i := NextWaiter(s.health, s.groups[g], now);
    if i.Some? {
      BestIsAdmissible(s.health, s.groups[g], |s.groups[g].queue|, now);
      AdmitKeepsStrays(s, g, i.value, now, key);
      PumpKeepsStrays(Admit(s, g, i.value, now), g, now, key);
    }
  }

  lemma {:induction false} PumpFromKeepsStrays(s: State, k: nat, now: real, key: string)
    requires k <= |s.groups|
    ensures Strays(PumpFrom(s, k, now), key) == Strays(s, key)
    decreases |s.groups| - k
  {
    hide Strays;
    if k < |s.groups| {
      PumpKeepsStrays(s, k, now, key);
      PumpFromKeepsStrays(Pump(s, k, now), k + 1, now, key);
    }
  }

  lemma {:induction false} EscalateKeepsStrays(s: State, k: nat, name: string, rank: nat, now: real, key: string)
    requires k <= |s.groups|
    ensures Strays(EscalateFrom(s, k, name, rank, now), key) == Strays(s, key)
    decreases |s.groups| - k
  {
    hide Strays;
    if k < |s.groups| {
      var raised := Raised(s.groups[k].queue, name, rank);
      if raised == s.groups[k].queue {
        EscalateKeepsStrays(s, k + 1, name, rank, now, key);
      } else {
        var t := s.(groups := s.groups[k := s.groups[k].(queue := raised)]);
        FlagAlone(s, t, key);
        PumpKeepsStrays(t, k, now, key);
        EscalateKeepsStrays(Pump(t, k, now), k + 1, name, rank, now, key);
      }
    }
  }

  lemma {:induction false} DrainKeepsStrays(s: State, k: nat, key: string)
    requires k <= |s.groups|
    ensures Strays(DrainFrom(s, k), key) == Strays(s, key)
    decreases |s.groups| - k
  {
    hide Strays;
    if k < |s.groups| {
      var t := s.(groups := s.groups[k := s.groups[k].(queue := [])],
                  rejected := s.rejected + multiset(QueueNos(s.groups[k].queue)));
      FlagAlone(s, t, key);
      DrainKeepsStrays(t, k + 1, key);
    }
  }

  // ---------------------------------------------------------------------------
  // What each step changes
  // ---------------------------------------------------------------------------

  /** The step lets go of a probe of the model: its slot is given back, or its background probe ends. */
  predicate LetsGo(s: State, t: Timed, key: string) {
    match t.step
    case GiveBack(g, no) =>
      g < |s.groups| &&
      var i := IndexOf(ActiveNos(s.groups[g].activeEntries), no);
      i.Some? && IsProbeOf(s.groups[g].activeEntries[i.value], key)
    case ProbeEnd(name, _, _) => name == key && key in s.probing
    case _ => false
  }

  /** An outcome of a request to the model. */
  predicate Reports(t: Timed, key: string) {
    t.step.Settled? && t.step.report.modelKey == Some(key)
  }

  /** What a step adds to the strays. */
  function Drift(s: State, t: Timed, key: string): int {
    if Reports(t, key) then Flag(s, key)
    else if !LetsGo(s, t, key) then 0
    else if t.step.ProbeEnd? && s.stopped then -1
    else Flag(s, key) - 1
  }

  lemma GroupAdded(s: State, name: string)
    ensures SameSlots(s, WithGroup(s, name)) && WithGroup(s, name).health == s.health
  {
    hide GroupIndex;
    var r := WithGroup(s, name);
    assert forall g | 0 <= g < |s.groups| :: r.groups[g] == s.groups[g];
  }

  lemma AcquireKeepsStrays(s: State, q: Request, now: real, key: string)
    ensures Strays(Acquire(s, q, now), key) == Strays(s, key)
  {
    hide EntryFor, ModelAdmissible, Strays, GroupIndex;
    var t := WithGroup(s, q.group);
    var u := if Keyed(q.modelKey) && q.probeMax.Some?
             then t.(probeMaxOverrides := t.probeMaxOverrides[q.modelKey.value := q.probeMax.value])
             else t;
    GroupAdded(s, q.group);
    FlagAlone(s, u, key);
    if !u.stopped && !q.aborted {
      var v := Enqueue(u, GroupOf(s, q.group), EntryFor(s, q));
      FlagAlone(u, v, key);
      PumpKeepsStrays(v, GroupOf(s, q.group), now, key);
    }
  }

  lemma FreeSlotStrays(s: State, g: nat, i: nat, key: string)
    requires g < |s.groups| && i < |s.groups[g].activeEntries|
    ensures Strays(FreeSlot(s, g, i), key) ==
      Strays(s, key) - if IsProbeOf(s.groups[g].activeEntries[i], key) then 1 else 0
  {
    SlotRemoved(s.groups[g].activeEntries, i, key);
    GroupReplaced(s.groups, g, FreeSlot(s, g, i).groups[g], key);
  }

  lemma SettleStrays(s: State, name: string, now: real, key: string)
    requires Flagged(s, name) ==> s.health[name].unhealthy
    ensures Strays(SettleStaleProbe(s, name, now), key) == Strays(s, key) + if name == key then Flag(s, key) else 0
  {
    FlagAlone(s, SettleStaleProbe(s, name, now), key);
  }

  lemma ReleaseStrays(s: State, g: nat, no: nat, now: real, key: string)
    requires g < |s.groups| && AllProbesKept(s)
    ensures Strays(Release(s, g, no, now), key) == Strays(s, key) + Drift(s, Timed(GiveBack(g, no), now), key)
  {
    hide Strays, Pump, SettleStaleProbe;
    var i := IndexOf(ActiveNos(s.groups[g].activeEntries), no);
    if i.Some? {
      var a, t := s.groups[g].activeEntries[i.value], FreeSlot(s, g, i.value);
      FreeSlotStrays(s, g, i.value, key);
      if a.probe && Keyed(a.modelKey) {
        assert ProbeKept(s, a.modelKey.value);
        SettleStrays(t, a.modelKey.value, now, key);
        PumpKeepsStrays(SettleStaleProbe(t, a.modelKey.value, now), g, now, key);
      } else {
        PumpKeepsStrays(t, g, now, key);
      }
    }
  }

  lemma RecoveryStrays(cfg: Tuning, s: State, name: string, now: real, key: string)
    requires name in s.health && s.health[name].unhealthy
    ensures var r := Recover(cfg, s, name, now);
      && Strays(r, key) == Strays(s, key) + (if name == key then Flag(s, key) else 0)
      && (name == key ==> !Flagged(r, key))
  {
    var h := s.health[name].(failures := 0, probeInFlight := false);
    var t := SetHealth(s, name, h.(unhealthy := false, nextProbeAt := 0.0, probeDelay := cfg.probeBase));
    FlagAlone(s, t, key);
    PumpFromKeepsStrays(t, 0, now, key);
    WellStays(t, 0, now, name);
  }

  /** The slots and background probes are those of `s`; a flag is set where one was, the model's own cleared. */
  ghost predicate Clears(s: State, r: State, name: string, key: string) {
    && r.groups == s.groups && r.probing == s.probing
    && (Flagged(r, key) <==> Flagged(s, key) && name != key)
  }

  lemma ArmSame(s: State, name: string)
    ensures var r := ArmBackgroundProbe(s, name);
      r.groups == s.groups && r.probing == s.probing && r.health == s.health
  {
  }

  lemma SetClears(s: State, name: string, h: Health, key: string)
    requires !h.probeInFlight
    ensures Clears(s, SetHealth(s, name, h), name, key)
    ensures Clears(s, ArmBackgroundProbe(SetHealth(s, name, h), name), name, key)
  {
    ArmSame(SetHealth(s, name, h), name);
  }

  lemma FailClears(cfg: Tuning, s: State, name: string, now: real, key: string)
    requires Flagged(s, name) ==> s.health[name].unhealthy
    ensures Clears(s, Fail(cfg, s, name, now), name, key)
  {
    hide ArmBackgroundProbe, SetHealth, Clears, Least, ProbeMax;
    var was := if name in s.health then s.health[name] else Health(false, 0, false, 0.0, cfg.probeBase);
    var h := was.(failures := was.failures + 1);
    if h.unhealthy {
      var delay := Least(h.probeDelay * 2.0, ProbeMax(cfg, s, name));
      SetClears(s, name, h.(probeInFlight := false, probeDelay := delay, nextProbeAt := now + delay), key);
    } else if h.failures >= cfg.unhealthyThreshold {
      SetClears(s, name, h.(unhealthy := true, probeInFlight := false, probeDelay := cfg.probeBase,
                            nextProbeAt := now + cfg.probeBase), key);
    } else {
      SetClears(s, name, h, key);
    }
  }

  /** A probe that settles without evidence. */
  lemma InconclusiveClears(s: State, name: string, now: real, key: string)
    requires Flagged(s, name)
    ensures var cleared := SetHealth(s, name, s.health[name].(probeInFlight := false));
      && Clears(s, ArmBackgroundProbe(cleared, name), name, key)
      && Clears(s, RescheduleProbe(cleared, name, now), name, key)
  {
    hide ArmBackgroundProbe, Clears;
    var h := s.health[name].(probeInFlight := false);
    var cleared, again := SetHealth(s, name, h), SetHealth(s, name, h.(nextProbeAt := now + h.probeDelay));
    SetClears(s, name, h, key);
    SetClears(s, name, again.health[name], key);
    assert SetHealth(cleared, name, again.health[name]) == again;
  }

  /** What an outcome that is no recovery does to the flags. */
  lemma ClearsFlag(
    cfg: Tuning, s: State, name: string, cls: Option<FailureClass>, status: Option<nat>, now: real, key: string)
    requires Flagged(s, name) ==> s.health[name].unhealthy
    requires cls.None? ==> name !in s.health || !s.health[name].unhealthy
    ensures Clears(s, NoteModelOutcome(cfg, s, name, cls, status, now), name, key)
  {
    hide Fail, ArmBackgroundProbe, RescheduleProbe, PumpFrom;
    FailClears(cfg, s, name, now, key);
    if Flagged(s, name) { InconclusiveClears(s, name, now, key); }
    if cls.None? && name in s.health {
      SetClears(s, name, s.health[name].(failures := 0, probeInFlight := false), key);
    }
  }

  /** An outcome of the model clears its flag. */
  lemma NoteModelStrays(
    cfg: Tuning, s: State, name: string, cls: Option<FailureClass>, status: Option<nat>, now: real, key: string)
    requires Flagged(s, name) ==> s.health[name].unhealthy
    ensures var r := NoteModelOutcome(cfg, s, name, cls, status, now);
      && Strays(r, key) == Strays(s, key) + (if name == key then Flag(s, key) else 0)
      && (name == key ==> !Flagged(r, key))
  {
    hide Strays, Recover, Fail, RescheduleProbe, ArmBackgroundProbe, SetHealth;
    if cls.None? && name in s.health && s.health[name].unhealthy {
      RecoveryStrays(cfg, s, name, now, key);
    } else {
      hide NoteModelOutcome;
      ClearsFlag(cfg, s, name, cls, status, now, key);
      FlagAlone(s, NoteModelOutcome(cfg, s, name, cls, status, now), key);
    }
  }

  /** A healthy model is not probed. */
  lemma {:induction false} WellStays(s: State, k: nat, now: real, key: string)
    requires k <= |s.groups| && key in s.health && !s.health[key].unhealthy
    ensures var r := PumpFrom(s, k, now); key in r.health && r.health[key] == s.health[key]
    decreases |s.groups| - k
  {
    if k < |s.groups| {
      WellStaysPumped(s, k, now, key);
      WellStays(Pump(s, k, now), k + 1, now, key);
    }
  }

  lemma {:induction false} WellStaysPumped(s: State, g: nat, now: real, key: string)
    requires g < |s.groups| && key in s.health && !s.health[key].unhealthy
    ensures var r := Pump(s, g, now); key in r.health && r.health[key] == s.health[key]
    decreases |s.groups[g].queue|
  {
    var i := NextWaiter(s.health, s.groups[g], now);
    if i.Some? { WellStaysPumped(Admit(s, g, i.value, now), g, now, key); }
  }

  lemma NoteStrays(cfg: Tuning, s: State, r: Report, now: real, key: string)
    requires AllProbesKept(s)
    ensures var t := Timed(Settled(r), now);
      && Strays(NoteOutcome(cfg, s, r, now), key) == Strays(s, key) + Drift(s, t, key)
      && (Reports(t, key) ==> !Flagged(NoteOutcome(cfg, s, r, now), key))
  {
    hide NoteModelOutcome, Throttled, GroupIndex, Strays;
    var t, g := WithGroup(s, r.group), GroupOf(s, r.group);
    var group := if r.status == Some(429) || r.status == Some(503)
                 then Throttled(t.groups[g], r.retryAfter, r.jitter, now)
                 else t.groups[g].(throttles := 0);
    var u := t.(groups := t.groups[g := group]);
    GroupAdded(s, r.group);
    ThrottledSlots(t.groups[g], r.retryAfter, r.jitter, now);
    assert SameSlots(s, u);
    FlagAlone(s, u, key);
    if r.modelKey.Some? {
      assert ProbeKept(s, r.modelKey.value);
      NoteModelStrays(cfg, u, r.modelKey.value, r.cls, r.status, now, key);
    }
  }

  lemma TimerStrays(s: State, name: string, now: real, key: string)
    ensures Strays(ProbeTimerFires(s, name, now), key) == Strays(s, key)
  {
    hide ArmBackgroundProbe, AllProbeSlots;
    ArmSame(s.(probeTimers := s.probeTimers - {name}), name);
  }

  lemma ProbeEndStrays(cfg: Tuning, s: State, name: string, ok: bool, status: Option<nat>, now: real, key: string)
    requires AllProbesKept(s)
    ensures Strays(ProbeSettles(cfg, s, name, ok, status, now), key) ==
      Strays(s, key) + Drift(s, Timed(ProbeEnd(name, ok, status), now), key)
  {
    hide NoteModelOutcome;
    if name in s.probing {
      var t := s.(probing := s.probing - multiset{name});
      SameCount(s.groups, t.groups, key);
      assert ProbeKept(s, name);
      NoteModelStrays(cfg, t, name, None, None, now, key);
      NoteModelStrays(cfg, t, name, Some(Environmental), status, now, key);
    }
  }

  lemma StillStrays(s: State, name: string, key: string)
    ensures Strays(RegisterProber(s, name), key) == Strays(s, key)
    ensures Strays(ClearEscalation(s, name), key) == Strays(s, key)
    ensures Strays(s.(stopped := true, probeTimers := {}), key) == Strays(s, key)
  {
    FlagAlone(s, RegisterProber(s, name), key);
    FlagAlone(s, ClearEscalation(s, name), key);
    FlagAlone(s, s.(stopped := true, probeTimers := {}), key);
  }

  lemma AbortStrays(s: State, g: nat, no: nat, key: string)
    requires g < |s.groups|
    ensures Strays(AbortWaiter(s, g, no), key) == Strays(s, key)
  {
    FlagAlone(s, AbortWaiter(s, g, no), key);
  }

  lemma RaiseStrays(s: State, name: string, rank: nat, now: real, key: string)
    ensures Strays(Escalate(s, name, rank, now), key) == Strays(s, key)
  {
    var pinned := if name in s.sticky && s.sticky[name] >= rank then s.sticky[name] else rank;
    var t := s.(sticky := s.sticky[name := pinned]);
    FlagAlone(s, t, key);
    EscalateKeepsStrays(t, 0, name, pinned, now, key);
  }

  /**
   * Probes out and flag move together, save that an outcome noted while the flag is set leaves a stray, and that
   * letting go of a probe takes one back unless it clears the flag.
   */
  lemma StraysMove(cfg: Tuning, s: State, t: Timed, key: string)
    requires AllProbesKept(s)
    ensures Strays(Take(cfg, s, t), key) == Strays(s, key) + Drift(s, t, key)
    ensures Reports(t, key) ==> !Flagged(Take(cfg, s, t), key)
  {
    hide Strays, AllProbesKept, Acquire, Release, NoteOutcome, ProbeSettles, Pump, AbortWaiter, Escalate,
      RegisterProber, ProbeTimerFires;
    match t.step
    case Ask(q) => AcquireKeepsStrays(s, q, t.now, key);
    case Abort(g, n) => if g < |s.groups| { AbortStrays(s, g, n, key); }
    case GiveBack(g, n) => if g < |s.groups| { ReleaseStrays(s, g, n, t.now, key); }
    case Raise(name, rank) => RaiseStrays(s, name, rank, t.now, key);
    case ClearRaise(name) => StillStrays(s, name, key);
    case Settled(r) => NoteStrays(cfg, s, r, t.now, key);
    case AddProber(name) => StillStrays(s, name, key);
    case ProbeTimer(name) => TimerStrays(s, name, t.now, key);
    case ProbeEnd(name, ok, status) => ProbeEndStrays(cfg, s, name, ok, status, t.now, key);
    case PumpTimer(g) => if g < |s.groups| { PumpKeepsStrays(s, g, t.now, key); }
    case Shutdown =>
      StillStrays(s, key, key);
      DrainKeepsStrays(s.(stopped := true, probeTimers := {}), 0, key);
  }

  // ---------------------------------------------------------------------------
  // When there is a second probe
  // ---------------------------------------------------------------------------

  /** The step sends out a probe while one is out that the flag no longer shows, and does not let go of that one. */
  predicate Overtakes(cfg: Tuning, s: State, t: Timed, key: string) {
    ProbesOut(s, key) > 0 && !Flagged(s, key) && !LetsGo(s, t, key) && Flagged(Take(cfg, s, t), key)
  }

  /** A step makes a second probe exactly when it overtakes one. */
  lemma SecondProbe(cfg: Tuning, s: State, t: Timed, key: string)
    requires AllProbesKept(s) && ProbesOut(s, key) <= 1
    ensures ProbesOut(Take(cfg, s, t), key) > 1 <==> Overtakes(cfg, s, t, key)
  {
    hide Take, ProbesOut, LetsGo, AllProbesKept;
    StraysMove(cfg, s, t, key);
  }

  lemma {:induction false} NoneOut(groups: seq<Group>, key: string)
    requires Unused(groups)
    ensures AllProbeSlots(groups, key) == 0
  {
    if groups != [] { NoneOut(groups[..|groups| - 1], key); }
  }

  lemma NoneOutAtFirst(groups: seq<Group>, key: string)
    requires Unused(groups)
    ensures ProbesOut(Fresh(groups), key) == 0
  {
    NoneOut(groups, key);
  }

  /** In no state of the run are two probes of the model out. */
  ghost predicate NeverTwo(cfg: Tuning, groups: seq<Group>, steps: seq<Timed>, key: string) {
    && ProbesOut(After(cfg, Fresh(groups), steps), key) <= 1
    && (steps != [] ==> NeverTwo(cfg, groups, steps[..|steps| - 1], key))
  }

  ghost predicate NeverOvertakes(cfg: Tuning, groups: seq<Group>, steps: seq<Timed>, key: string) {
    steps != [] ==>
      var init := steps[..|steps| - 1];
      && NeverOvertakes(cfg, groups, init, key)
      && !Overtakes(cfg, After(cfg, Fresh(groups), init), steps[|steps| - 1], key)
  }

  /** There is never a second probe in a run exactly when no step of it overtakes one. */
  lemma {:induction false} OneProbeExactlyWhen(cfg: Tuning, groups: seq<Group>, steps: seq<Timed>, key: string)
    requires Unused(groups)
    ensures NeverTwo(cfg, groups, steps, key) <==> NeverOvertakes(cfg, groups, steps, key)
  {
    hide Overtakes, ProbesOut, AllProbesKept, Take;
    if steps == [] {
      NoneOutAtFirst(groups, key);
    } else {
      var init := steps[..|steps| - 1];
      var s := After(cfg, Fresh(groups), init);
      OneProbeExactlyWhen(cfg, groups, init, key);
      NoProbeIsLost(cfg, groups, init);
      if ProbesOut(s, key) <= 1 { SecondProbe(cfg, s, steps[|steps| - 1], key); }
    }
  }

  /** The flag is set and the step is an outcome of the model: it clears the flag while the probe is out. */
  predicate Uncovers(s: State, t: Timed, key: string) {
    Reports(t, key) && Flagged(s, key)
  }

  /** Every outcome that clears the flag is followed at once by letting go of the probe: it was the probe's own. */
  ghost predicate Prompt(cfg: Tuning, groups: seq<Group>, steps: seq<Timed>, key: string) {
    |steps| >= 2 ==>
      var init := steps[..|steps| - 1];
      && Prompt(cfg, groups, init, key)
      && (Uncovers(After(cfg, Fresh(groups), init[..|init| - 1]), init[|init| - 1], key) ==>
            LetsGo(After(cfg, Fresh(groups), init), steps[|steps| - 1], key))
  }

  /**
   * While callers report an outcome of a model being probed only for the probe itself, and then give back its slot
   * at once, the model never has two probes out.
   */
  lemma {:induction false} PromptMeansOneProbe(cfg: Tuning, groups: seq<Group>, steps: seq<Timed>, key: string)
    requires Unused(groups) && Prompt(cfg, groups, steps, key)
    ensures var s := After(cfg, Fresh(groups), steps);
      && ProbesOut(s, key) <= 1
      && (Strays(s, key) > 0 ==>
            steps != [] && Uncovers(After(cfg, Fresh(groups), steps[..|steps| - 1]), steps[|steps| - 1], key))
  {
    hide ProbesOut, AllProbesKept, Take;
    if steps == [] {
      NoneOutAtFirst(groups, key);
    } else {
      var init := steps[..|steps| - 1];
      PromptMeansOneProbe(cfg, groups, init, key);
      NoProbeIsLost(cfg, groups, init);
      StraysMove(cfg, After(cfg, Fresh(groups), init), steps[|steps| - 1], key);
    }
  }

  /** A request to the model, and to nothing else in particular. */
  function Plain(group: string, key: string): Request {
    Request(group, 0, None, Some(key), None, None, false)
  }

  /** Nobody waits in the group, a slot is free and no backoff is on. */
  predicate Idle(s: State, group: string, now: real) {
    var g := WithGroup(s, group).groups[GroupOf(s, group)];
    g.queue == [] && g.active < g.maxInFlight && g.backoffUntil <= now
  }

  /** On an idle group an admissible request gets its slot at once. */
  lemma IdleAdmits(s: State, group: string, key: string, now: real)
    requires !s.stopped && Idle(s, group, now) && ModelAdmissible(s.health, Some(key), now)
    ensures var g, q := GroupOf(s, group), Plain(group, key);
      Acquire(s, q, now) == Admit(Enqueue(WithGroup(s, group), g, EntryFor(s, q)), g, 0, now)
  {
    hide GroupIndex;
    var g, e := GroupOf(s, group), EntryFor(s, Plain(group, key));
    GroupAdded(s, group);
    var t := WithGroup(s, group);
    var v := Enqueue(t, g, e);
    assert v.groups[g] == t.groups[g].(queue := [e]);
    assert Eligible(v.health, v.groups[g], e, now);
    assert Best(v.health, v.groups[g], 0, now) == None;
    assert NextWaiter(v.health, v.groups[g], now) == Some(0);
    var r := Admit(v, g, 0, now);
    assert NextWaiter(r.health, r.groups[g], now) == None;
    assert Pump(v, g, now) == r;
  }

  /**
   * Nothing less will do: once an outcome cleared the flag of a model that stays unhealthy while its probe is out,
   * the next request to it on an idle group, after its window opened, is a second probe.
   */
  lemma StrayIsOvertaken(cfg: Tuning, s: State, group: string, key: string, now: real)
    requires key != "" && key in s.health && s.health[key].unhealthy && now >= s.health[key].nextProbeAt
    requires !s.stopped && ProbesOut(s, key) > 0 && !Flagged(s, key) && Idle(s, group, now)
    ensures ProbesOut(Take(cfg, s, Timed(Ask(Plain(group, key)), now)), key) > 1
  {
    hide Strays, ProbesOut, GroupIndex;
    var q := Plain(group, key);
    IdleAdmits(s, group, key, now);
    GroupAdded(s, group);
    AcquireKeepsStrays(s, q, now, key);
    StraysOut(s, Acquire(s, q, now), key);
  }

  lemma StraysOut(s: State, r: State, key: string)
    requires Strays(r, key) == Strays(s, key) && !Flagged(s, key) && Flagged(r, key)
    ensures ProbesOut(r, key) == ProbesOut(s, key) + 1
  {
  }

  // ---------------------------------------------------------------------------
  // A run with two probes out
  // ---------------------------------------------------------------------------

  const ONE_STRIKE: Tuning := Tuning(1, 10.0, 100.0)

  const FOUR_SLOTS: Group := FreshGroup("default").(maxInFlight := 4)

  function AskAt(now: real): Timed {
    Timed(Ask(Plain("default", "m")), now)
  }

  function FailAt(now: real): Timed {
    Timed(Settled(Report("default", Some("m"), Some(Environmental), Some(500), None, 0.0)), now)
  }

  /** The only group has `active` slots taken and nobody waiting. */
  ghost predicate Shows(s: State, active: nat, health: map<string, Health>) {
    && |s.groups| == 1
    && s.groups[0] == FOUR_SLOTS.(active := active, activeEntries := s.groups[0].activeEntries)
    && !s.stopped && s.health == health && s.probers == {} && s.probeMaxOverrides == map[]
  }

  lemma OnlyGroup(s: State, active: nat, health: map<string, Health>)
    requires Shows(s, active, health)
    ensures WithGroup(s, "default") == s && GroupOf(s, "default") == 0
  {
    assert GroupNames(s.groups) == ["default"];
  }

  lemma ShowsAsk(s: State, active: nat, health: map<string, Health>, now: real)
    requires Shows(s, active, health) && active < 4 && now >= 0.0 && ModelAdmissible(health, Some("m"), now)
    ensures var r, probe := Take(ONE_STRIKE, s, AskAt(now)), "m" in health && health["m"].unhealthy;
      && Shows(r, active + 1, if probe then health["m" := health["m"].(probeInFlight := true)] else health)
      && ProbesOut(r, "m") == ProbesOut(s, "m") + (if probe then 1 else 0)
  {
    hide ProbesOut, GroupIndex;
    OnlyGroup(s, active, health);
    IdleAdmits(s, "default", "m", now);
    AcquireKeepsStrays(s, Plain("default", "m"), now, "m");
  }

  lemma ShowsFail(s: State, active: nat, health: map<string, Health>, now: real)
    requires Shows(s, active, health) && "m" in Fail(ONE_STRIKE, s, "m", now).health
    ensures var r := Take(ONE_STRIKE, s, FailAt(now));
      Shows(r, active, Fail(ONE_STRIKE, s, "m", now).health) && ProbesOut(r, "m") == ProbesOut(s, "m")
  {
    hide GroupIndex;
    OnlyGroup(s, active, health);
    var r := Take(ONE_STRIKE, s, FailAt(now));
    SameCount(s.groups, r.groups, "m");
  }

  /**
   * Two requests are out when their model fails on the first; a third goes out as the probe; the second fails late
   * and clears the flag; and the fourth goes out as a probe too.
   */
  lemma TwoProbesOut()
    ensures var steps := [AskAt(0.0), AskAt(0.0), FailAt(1.0), AskAt(12.0), FailAt(13.0), AskAt(40.0)];
      Unused([FOUR_SLOTS]) && ProbesOut(After(ONE_STRIKE, Fresh([FOUR_SLOTS]), steps), "m") > 1
  {
    hide Take, ProbesOut;
    var steps := [AskAt(0.0), AskAt(0.0), FailAt(1.0), AskAt(12.0), FailAt(13.0), AskAt(40.0)];
    var down := Health(true, 1, false, 11.0, 10.0);
    var s := Fresh([FOUR_SLOTS]);
    forall n | 0 <= n < 6
      ensures After(ONE_STRIKE, s, steps[..n + 1]) == Take(ONE_STRIKE, After(ONE_STRIKE, s, steps[..n]), steps[n])
    {
      AfterNext(s, steps, n);
    }
    assert steps[..6] == steps && After(ONE_STRIKE, s, steps[..0]) == s;
    NoneOutAtFirst([FOUR_SLOTS], "m");
    ShowsAsk(s, 0, map[], 0.0);
    var s1 := After(ONE_STRIKE, s, steps[..1]);
    ShowsAsk(s1, 1, map[], 0.0);
    var s2 := After(ONE_STRIKE, s, steps[..2]);
    ShowsFail(s2, 2, map[], 1.0);
    var s3 := After(ONE_STRIKE, s, steps[..3]);
    ShowsAsk(s3, 2, map["m" := down], 12.0);
    var s4 := After(ONE_STRIKE, s, steps[..4]);
    ShowsFail(s4, 3, map["m" := down.(probeInFlight := true)], 13.0);
    var s5 := After(ONE_STRIKE, s, steps[..5]);
    OnlyGroup(s5, 3, s5.health);
    StrayIsOvertaken(ONE_STRIKE, s5, "default", "m", 40.0);
  }

  lemma AfterNext(s: State, steps: seq<Timed>, n: nat)
    requires n < |steps|
    ensures After(ONE_STRIKE, s, steps[..n + 1]) == Take(ONE_STRIKE, After(ONE_STRIKE, s, steps[..n]), steps[n])
  {
    assert steps[..n + 1][..n] == steps[..n];
  }
}
