/** The scheduler as the object that updates its groups, queues and model states in place. */
module LlmSchedulers {
  import opened Transcript
  import opened Scheduler
  import opened Admissions
  import opened Probes

  lemma {:induction false} AskedFirst(health: map<string, Health>, queue: seq<Entry>, i: nat, share: string, now: real)
    requires i < |queue| && AsksFor(health, queue[i], share, now)
    requires forall j | 0 <= j < i :: !AsksFor(health, queue[j], share, now)
    ensures AskedFraction(health, queue, share, now) == Some(queue[i].share.value.fraction)
  {
    var n := |queue| - 1;
    if i < n {
      AskedFirst(health, queue[..n], i, share, now);
    } else {
      NoneAsked(health, queue[..n], share, now);
    }
  }

  lemma {:induction false} NoneAsked(health: map<string, Health>, queue: seq<Entry>, share: string, now: real)
    requires forall j | 0 <= j < |queue| :: !AsksFor(health, queue[j], share, now)
    ensures AskedFraction(health, queue, share, now) == None
  {
    if queue != [] { NoneAsked(health, queue[..|queue| - 1], share, now); }
  }

  method CountHeld(active: seq<Active>, share: string) returns (held: nat)
    ensures held == Held(active, share)
  {
    held := 0;
    var k := 0;
    while k < |active|
      invariant k <= |active| && held == Held(active[..k], share)
    {
      assert active[..k + 1][..k] == active[..k];
      if active[k].share == Some(share) {
        held := held + 1;
      }
      k := k + 1;
    }
    assert active[..k] == active;
  }

  /** The shares looked up so far, each by the first waiter that asked. */
  ghost predicate Looked(health: map<string, Health>, g: Group, i: nat, full: map<string, bool>, now: real)
    requires i <= |g.queue|
  {
    && (forall name | name in full :: full[name] == ShareFull(health, g, g.queue, name, now))
    && (forall j, name | 0 <= j < i && name !in full :: !AsksFor(health, g.queue[j], name, now))
  }

  /** Whether waiter `i` could be admitted; a share is counted once per scan. */
  method CheckEligible(health: map<string, Health>, g: Group, i: nat, full: map<string, bool>, now: real)
    returns (eligible: bool, looked: map<string, bool>)
    requires i < |g.queue| && Looked(health, g, i, full, now)
    ensures eligible == Eligible(health, g, g.queue[i], now)
    ensures Looked(health, g, i + 1, looked, now)
  {
    var e := g.queue[i];
    looked := full;
    if !ModelAdmissible(health, e.modelKey, now) {
      return false, looked;
    }
    if e.share.None? {
      return true, looked;
    }
    var name := e.share.value.name;
    if name !in looked {
      AskedFirst(health, g.queue, i, name, now);
      var held := CountHeld(g.activeEntries, name);
      looked := looked[name := held >= ShareCap(e.share.value.fraction, g.maxInFlight)];
    }
    return !looked[name], looked;
  }

  /** The scan over the queue. */
  method FindBest(health: map<string, Health>, g: Group, now: real) returns (best: Option<nat>)
    ensures best == Best(health, g, |g.queue|, now)
  {
    best := None;
    var full: map<string, bool> := map[];
    var i := 0;
    while i < |g.queue|
      invariant i <= |g.queue| && best == Best(health, g, i, now)
      invariant Looked(health, g, i, full, now)
    {
      var eligible;
      eligible, full := CheckEligible(health, g, i, full, now);
      if eligible && (best.None? || Before(g.queue[i], g.queue[best.value])) {
        best := Some(i);
      }
      i := i + 1;
    }
  }

  method RaiseQueue(queue: seq<Entry>, key: string, rank: nat) returns (raised: seq<Entry>, changed: bool)
    ensures raised == Raised(queue, key, rank) && changed == (raised != queue)
  {
    raised, changed := queue, false;
    var k := 0;
    while k < |queue|
      invariant k <= |queue| == |raised|
      invariant raised[..k] == Raised(queue, key, rank)[..k] && raised[k..] == queue[k..]
      invariant changed == (raised != queue)
    {
      if raised[k].key == Some(key) && raised[k].rank < rank {
        raised := raised[k := raised[k].(rank := rank)];
        changed := true;
        assert raised[k] != queue[k];
      }
      k := k + 1;
    }
  }

  class LlmScheduler {
    const cfg: Tuning
    var groups: seq<Group>
    var health: map<string, Health>
    var probeMaxOverrides: map<string, real>
    var probers: set<string>
    var probeTimers: set<string>
    var probing: multiset<string>
    var sticky: map<string, nat>
    var seqCounter: nat
    var stopped: bool
    ghost var released: multiset<nat>
    ghost var rejected: multiset<nat>
    ghost var admissions: seq<Admission>

    ghost function Now(): State
      reads this
    {
      State(groups, health, probeMaxOverrides, probers, probeTimers, probing, sticky, seqCounter, stopped, released,
            rejected, admissions)
    }

    constructor (cfg: Tuning, declared: seq<Group>)
      ensures this.cfg == cfg
      ensures Now() == Fresh(groups)
      ensures groups == if GroupIndex(declared, "default").Some? then declared else declared + [FreshGroup("default")]
      ensures Unused(declared) ==> Unused(groups)
    {
      this.cfg := cfg;
      groups := if GroupIndex(declared, "default").Some? then declared else declared + [FreshGroup("default")];
      health, probeMaxOverrides, probers, probeTimers := map[], map[], {}, {};
      probing, sticky, seqCounter, stopped := multiset{}, map[], 0, false;
      released, rejected, admissions := multiset{}, multiset{}, [];
    }

    /** Waiter `i` of group `g` leaves the queue for a slot. */
    method Let(g: nat, i: nat, now: real)
      requires g < |groups| && i < |groups[g].queue|
      modifies this
      ensures Now() == Admit(old(Now()), g, i, now)
    {
      var group := groups[g];
      var e := group.queue[i];
      admissions := admissions + [Admission(health, group, i, now)];
      var probe := false;
      if Keyed(e.modelKey) && e.modelKey.value in health {
        var h := health[e.modelKey.value];
        if h.unhealthy {
          health := health[e.modelKey.value := h.(probeInFlight := true)];
          probe := true;
        }
      }
      var entry := Active(e.no, if e.share.Some? then Some(e.share.value.name) else None, e.modelKey, probe);
      groups := groups[g := group.(queue := RemoveAt(group.queue, i), active := group.active + 1,
                                   activeEntries := group.activeEntries + [entry])];
    }

    /** Admit waiters while capacity allows and no backoff is active. */
    method PumpGroup(g: nat, now: real)
      requires g < |groups|
      modifies this
      ensures Now() == Pump(old(Now()), g, now)
    {
      while true
        invariant g < |groups| && Pump(Now(), g, now) == Pump(old(Now()), g, now)
        decreases |groups[g].queue|
      {
        var group := groups[g];
        if |group.queue| == 0 || group.active >= group.maxInFlight || group.backoffUntil > now {
          return;
        }
        var best := FindBest(health, group, now);
        if best.None? {
          return;
        }
        Let(g, best.value, now);
      }
    }

    method PumpAll(now: real)
      modifies this
      ensures Now() == PumpFrom(old(Now()), 0, now)
    {
      var k := 0;
      while k < |groups|
        invariant k <= |groups| && PumpFrom(Now(), k, now) == PumpFrom(old(Now()), 0, now)
      {
        PumpGroup(k, now);
        k := k + 1;
      }
    }

    /** The group of that name, created if it was never declared. */
    method GetGroup(name: string) returns (g: nat)
      modifies this`groups
      ensures Now() == WithGroup(old(Now()), name) && g == GroupOf(old(Now()), name) && g < |groups|
    {
      if GroupIndex(groups, name).None? {
        groups := groups + [FreshGroup(name)];
      }
      g := GroupIndex(groups, name).value;
    }

    method PushEntry(g: nat, e: Entry)
      requires g < |groups|
      modifies this`groups, this`seqCounter
      ensures Now() == Enqueue(old(Now()), g, e)
    {
      seqCounter := seqCounter + 1;
      groups := groups[g := groups[g].(queue := groups[g].queue + [e])];
    }

    /** Ask for a slot: the registration number, or `None` if the request was rejected at once. */
    method Ask(q: Request, now: real) returns (ticket: Option<nat>)
      modifies this
      ensures Now() == Acquire(old(Now()), q, now)
      ensures ticket == if old(stopped) || q.aborted then None else Some(old(seqCounter))
    {
      hide GroupIndex, Pump, WithGroup, GroupOf, Enqueue;
      var g := GetGroup(q.group);
      if Keyed(q.modelKey) && q.probeMax.Some? {
        probeMaxOverrides := probeMaxOverrides[q.modelKey.value := q.probeMax.value];
      }
      if stopped || q.aborted {
        return None;
      }
      var pinned := if Keyed(q.key) && q.key.value in sticky then sticky[q.key.value] else 0;
      var e := Entry(if pinned > q.rank then pinned else q.rank, seqCounter, q.key, q.modelKey, q.share);
      ticket := Some(seqCounter);
      PushEntry(g, e);
      PumpGroup(g, now);
    }

    method Abort(g: nat, no: nat)
      requires g < |groups|
      modifies this
      ensures Now() == AbortWaiter(old(Now()), g, no)
    {
      var i := IndexOf(QueueNos(groups[g].queue), no);
      if i.Some? {
        groups := groups[g := groups[g].(queue := RemoveAt(groups[g].queue, i.value))];
        rejected := rejected + multiset{no};
      }
    }

    method Arm(key: string)
      modifies this`probeTimers
      ensures Now() == ArmBackgroundProbe(old(Now()), key)
    {
      if !(stopped || key !in health || !health[key].unhealthy || key !in probers) {
        probeTimers := probeTimers + {key};
      }
    }

    method SettleStale(key: string, now: real)
      modifies this`health, this`probeTimers
      ensures Now() == SettleStaleProbe(old(Now()), key, now)
    {
      if key in health && health[key].unhealthy && health[key].probeInFlight {
        var h := health[key].(probeInFlight := false);
        health := health[key := h];
        health := health[key := h.(nextProbeAt := now + h.probeDelay)];
        Arm(key);
      }
    }

    /** The release function of a slot. */
    method GiveBack(g: nat, no: nat, now: real)
      requires g < |groups|
      modifies this
      ensures Now() == Release(old(Now()), g, no, now)
    {
      var i := IndexOf(ActiveNos(groups[g].activeEntries), no);
      if i.None? {
        return;
      }
      var group := groups[g];
      var a := group.activeEntries[i.value];
      groups := groups[g := group.(active := if group.active > 0 then group.active - 1 else 0,
                                   activeEntries := RemoveAt(group.activeEntries, i.value))];
      released := released + multiset{no};
      if a.probe && Keyed(a.modelKey) {
        SettleStale(a.modelKey.value, now);
      }
      PumpGroup(g, now);
    }

    method RaiseKey(key: string, rank: nat, now: real)
      modifies this
      ensures Now() == Escalate(old(Now()), key, rank, now)
    {
      hide Pump, Raised;
      if key !in sticky || rank > sticky[key] {
        sticky := sticky[key := rank];
      } else {
        assert sticky[key := sticky[key]] == sticky;
      }
      var pinned := sticky[key];
      var k := 0;
      while k < |groups|
        invariant k <= |groups| && EscalateFrom(Now(), k, key, pinned, now) == Escalate(old(Now()), key, rank, now)
      {
        var raised, changed := RaiseQueue(groups[k].queue, key, pinned);
        if changed {
          groups := groups[k := groups[k].(queue := raised)];
          PumpGroup(k, now);
        }
        k := k + 1;
      }
    }

    method ClearRaise(key: string)
      modifies this
      ensures Now() == ClearEscalation(old(Now()), key)
    {
      sticky := sticky - {key};
    }

    /** The model-health half of an outcome. */
    method NoteModel(key: string, cls: Option<FailureClass>, status: Option<nat>, now: real)
      modifies this
      ensures Now() == NoteModelOutcome(cfg, old(Now()), key, cls, status, now)
    {
      if cls.None? {
        RecoverModel(key, now);
      } else if !cls.value.Environmental? {
        if key in health && health[key].probeInFlight {
          health := health[key := health[key].(probeInFlight := false)];
          Arm(key);
        }
      } else if status == Some(429) {
        if key in health && health[key].probeInFlight {
          var h := health[key].(probeInFlight := false);
          health := health[key := h];
          health := health[key := h.(nextProbeAt := now + h.probeDelay)];
          Arm(key);
        }
      } else {
        FailModel(key, now);
      }
    }

    method RecoverModel(key: string, now: real)
      modifies this
      ensures Now() == Recover(cfg, old(Now()), key, now)
    {
      if key !in health {
        return;
      }
      var h := health[key].(failures := 0, probeInFlight := false);
      if h.unhealthy {
        health := health[key := h.(unhealthy := false, nextProbeAt := 0.0, probeDelay := cfg.probeBase)];
        PumpAll(now);
      } else {
        health := health[key := h];
      }
    }

    method FailModel(key: string, now: real)
      modifies this
      ensures Now() == Fail(cfg, old(Now()), key, now)
    {
      hide ArmBackgroundProbe, Least;
      var h := if key in health then health[key] else Health(false, 0, false, 0.0, cfg.probeBase);
      h := h.(failures := h.failures + 1);
      if h.unhealthy {
        var max := if key in probeMaxOverrides then probeMaxOverrides[key] else cfg.probeMax;
        var delay := Least(h.probeDelay * 2.0, max);
        health := health[key := h.(probeInFlight := false, probeDelay := delay, nextProbeAt := now + delay)];
        Arm(key);
      } else if h.failures >= cfg.unhealthyThreshold {
        health := health[key := h.(unhealthy := true, probeInFlight := false, probeDelay := cfg.probeBase,
                                   nextProbeAt := now + cfg.probeBase)];
        Arm(key);
      } else {
        health := health[key := h];
      }
    }

    /** A settled request, on both axes. */
    method Note(r: Report, now: real)
      modifies this
      ensures Now() == NoteOutcome(cfg, old(Now()), r, now)
    {
      var g := GetGroup(r.group);
      if r.status == Some(429) || r.status == Some(503) {
        groups := groups[g := Throttled(groups[g], r.retryAfter, r.jitter, now)];
      } else {
        groups := groups[g := groups[g].(throttles := 0)];
      }
      if r.modelKey.Some? {
        NoteModel(r.modelKey.value, r.cls, r.status, now);
      }
    }

    method AddProber(key: string)
      modifies this
      ensures Now() == RegisterProber(old(Now()), key)
    {
      probers := probers + {key};
      if key in health && health[key].unhealthy && key !in probeTimers {
        Arm(key);
      }
    }

    /** The timer of a background probe; `true`: a probe went out. */
    method FireProbeTimer(key: string, now: real) returns (launched: bool)
      modifies this
      ensures Now() == ProbeTimerFires(old(Now()), key, now)
      ensures launched ==> probing == old(probing) + multiset{key}
      ensures !launched ==> probing == old(probing)
    {
      launched := false;
      if key !in probeTimers {
        return;
      }
      probeTimers := probeTimers - {key};
      if stopped || key !in health || !health[key].unhealthy || key !in probers || health[key].probeInFlight {
        return;
      }
      if now < health[key].nextProbeAt {
        Arm(key);
        return;
      }
      health := health[key := health[key].(probeInFlight := true)];
      probing := probing + multiset{key};
      launched := true;
    }

    method EndProbe(key: string, ok: bool, status: Option<nat>, now: real)
      modifies this
      ensures Now() == ProbeSettles(cfg, old(Now()), key, ok, status, now)
    {
      if key !in probing {
        return;
      }
      probing := probing - multiset{key};
      if stopped {
        return;
      }
      if ok {
        NoteModel(key, None, None, now);
      } else {
        NoteModel(key, Some(Environmental), status, now);
      }
    }

    method RejectAll(k: nat)
      requires k < |groups|
      modifies this`groups, this`rejected
      ensures Now() == old(Now()).(groups := old(groups)[k := old(groups)[k].(queue := [])],
                                   rejected := old(rejected) + multiset(QueueNos(old(groups)[k].queue)))
    {
      hide QueueNos;
      rejected := rejected + multiset(QueueNos(groups[k].queue));
      groups := groups[k := groups[k].(queue := [])];
    }

    method Shutdown()
      modifies this
      ensures Now() == Stop(old(Now()))
    {
      hide QueueNos;
      stopped := true;
      probeTimers := {};
      var k := 0;
      while k < |groups|
        invariant k <= |groups| && DrainFrom(Now(), k) == Stop(old(Now()))
      {
        RejectAll(k);
        k := k + 1;
      }
    }

    /** One call of the scheduler's interface, or one of its timers. */
    method Step(t: Timed)
      modifies this
      ensures Now() == Take(cfg, old(Now()), t)
    {
      hide Acquire, AbortWaiter, Release, Escalate, ClearEscalation, NoteOutcome, RegisterProber, ProbeTimerFires,
        ProbeSettles, Pump, Stop;
      match t.step
      case Ask(q) => var _ := Ask(q, t.now);
      case Abort(g, n) => if g < |groups| { Abort(g, n); }
      case GiveBack(g, n) => if g < |groups| { GiveBack(g, n, t.now); }
      case Raise(key, rank) => RaiseKey(key, rank, t.now);
      case ClearRaise(key) => ClearRaise(key);
      case Settled(r) => Note(r, t.now);
      case AddProber(key) => AddProber(key);
      case ProbeTimer(key) => var _ := FireProbeTimer(key, t.now);
      case ProbeEnd(key, ok, status) => EndProbe(key, ok, status, t.now);
      case PumpTimer(g) => if g < |groups| { PumpGroup(g, t.now); }
      case Shutdown => Shutdown();
    }

    /** A scheduler's life: whatever is asked of it, its books balance, its turns are kept and no probe is lost. */
    method Drive(steps: seq<Timed>, ghost most: string -> real)
      requires Now() == Fresh(groups) && Unused(groups)
      requires forall k | 0 <= k < |steps| :: Asks(steps[k], most)
      modifies this
      ensures Now() == After(cfg, Fresh(old(groups)), steps)
      ensures InOrder(Now(), most) && AllProbesKept(Now())
    {
      hide Take;
      ghost var declared := groups;
      var k := 0;
      while k < |steps|
        invariant k <= |steps| && Now() == After(cfg, Fresh(declared), steps[..k])
      {
        assert steps[..k + 1][..k] == steps[..k];
        Step(steps[k]);
        k := k + 1;
      }
      assert steps[..k] == steps;
      RunsStayInOrder(cfg, declared, steps, most);
      NoProbeIsLost(cfg, declared, steps);
    }
  }
}
