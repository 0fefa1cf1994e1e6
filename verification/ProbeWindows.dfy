/** The time between probes: when the next one may go out, and that nothing goes to the model before. */
module ProbeWindows {
  import opened Transcript
  import opened Scheduler
  import opened Probes
  import opened SingleProbe

  // ---------------------------------------------------------------------------
  // When the window opens
  // ---------------------------------------------------------------------------

  /** An environmental failure of a request to the model, or of a background probe of it, that is no throttle. */
  predicate Strikes(s: State, t: Timed, key: string) {
    match t.step
    case Settled(r) => r.modelKey == Some(key) && r.cls == Some(Environmental) && r.status != Some(429)
    case ProbeEnd(name, ok, status) => name == key && key in s.probing && !s.stopped && !ok && status != Some(429)
    case _ => false
  }

  lemma FailWindow(cfg: Tuning, s: State, key: string, now: real)
    ensures var r := Fail(cfg, s, key, now);
      key in r.health &&
      (r.health[key].unhealthy ==>
         !r.health[key].probeInFlight && r.health[key].nextProbeAt == now + r.health[key].probeDelay)
  {
    hide Least, ProbeMax;
  }

  /** A strike that makes or leaves the model unhealthy clears its flag and opens its next window one delay later. */
  lemma StrikeSetsWindow(cfg: Tuning, s: State, t: Timed, key: string)
    requires Strikes(s, t, key)
    ensures var r := Take(cfg, s, t);
      key in r.health &&
      (r.health[key].unhealthy ==>
         !r.health[key].probeInFlight && r.health[key].nextProbeAt == t.now + r.health[key].probeDelay)
  {
    hide Fail, GroupIndex, Throttled;
    match t.step
    case Settled(r) =>
      var u, g := WithGroup(s, r.group), GroupOf(s, r.group);
      var group := if r.status == Some(429) || r.status == Some(503)
                   then Throttled(u.groups[g], r.retryAfter, r.jitter, t.now)
                   else u.groups[g].(throttles := 0);
      FailWindow(cfg, u.(groups := u.groups[g := group]), key, t.now);
    case ProbeEnd(name, ok, status) => FailWindow(cfg, s.(probing := s.probing - multiset{name}), key, t.now);
    case _ =>
  }

  /** A throttled probe, and one released without an outcome, are tried again one unchanged delay later. */
  lemma InconclusiveSetsWindow(s: State, key: string, now: real)
    requires key in s.health && s.health[key].unhealthy && s.health[key].probeInFlight
    ensures var h := s.health[key].(probeInFlight := false, nextProbeAt := now + s.health[key].probeDelay);
      && SettleStaleProbe(s, key, now).health[key] == h
      && forall cfg: Tuning :: NoteModelOutcome(cfg, s, key, Some(Environmental), Some(429), now).health[key] == h
  {
  }

  /** A content failure, an abort and a refusal leave the window as it is: the next request may probe at once. */
  lemma NeutralKeepsWindow(cfg: Tuning, s: State, key: string, cls: FailureClass, status: Option<nat>, now: real)
    requires key in s.health && !cls.Environmental?
    ensures NoteModelOutcome(cfg, s, key, Some(cls), status, now).health[key] == s.health[key].(probeInFlight := false)
  {
  }

  /** A background probe goes out exactly when its timer fires on an open window that nobody is probing through. */
  lemma ProbeGoesOutExactlyWhen(s: State, key: string, now: real)
    ensures var r := ProbeTimerFires(s, key, now);
      && (r.probing != s.probing <==>
            && key in s.probeTimers && !s.stopped && key in s.probers && key in s.health
            && s.health[key].unhealthy && !s.health[key].probeInFlight && now >= s.health[key].nextProbeAt)
      && (r.probing != s.probing ==> r.probing == s.probing + multiset{key} && r.health[key].probeInFlight)
  {
    hide ArmBackgroundProbe;
    ArmSame(s.(probeTimers := s.probeTimers - {key}), key);
    if r :| r == ProbeTimerFires(s, key, now) && r.probing == s.probing + multiset{key} {
      assert r.probing[key] == s.probing[key] + 1;
    }
  }

  // ---------------------------------------------------------------------------
  // Nothing goes to the model before
  // ---------------------------------------------------------------------------

  /** Nobody may probe the model before `until`. */
  ghost predicate Closed(s: State, key: string, until: real) {
    key in s.health && s.health[key].unhealthy && !s.health[key].probeInFlight && s.health[key].nextProbeAt == until
  }

  predicate OfModel(a: Admission, key: string) {
    a.waiter < |a.group.queue| && a.group.queue[a.waiter].modelKey == Some(key)
  }

  /** The window stayed closed, and no request to the model was admitted. */
  ghost predicate NoneAdmitted(s: State, r: State, key: string, until: real) {
    && Closed(r, key, until)
    && s.admissions <= r.admissions
    && forall k | |s.admissions| <= k < |r.admissions| :: !OfModel(r.admissions[k], key)
  }

  lemma NoneTwice(s: State, t: State, r: State, key: string, until: real)
    requires NoneAdmitted(s, t, key, until) && NoneAdmitted(t, r, key, until)
    ensures NoneAdmitted(s, r, key, until)
  {
  }

  lemma SameNone(s: State, r: State, key: string, until: real)
    requires Closed(s, key, until) && key in r.health && r.health[key] == s.health[key] && r.admissions == s.admissions
    ensures NoneAdmitted(s, r, key, until)
  {
  }

  lemma {:induction false} PumpClosed(s: State, g: nat, now: real, key: string, until: real)
    requires g < |s.groups| && Closed(s, key, until) && now < until && key != ""
    ensures NoneAdmitted(s, Pump(s, g, now), key, until)
    decreases |s.groups[g].queue|
  {
    var i := NextWaiter(s.health, s.groups[g], now);
    if i.Some? {
      BestIsAdmissible(s.health, s.groups[g], |s.groups[g].queue|, now);
      var t := Admit(s, g, i.value, now);
      assert NoneAdmitted(s, t, key, until);
      PumpClosed(t, g, now, key, until);
      NoneTwice(s, t, Pump(t, g, now), key, until);
    }
  }

  lemma {:induction false} PumpFromClosed(s: State, k: nat, now: real, key: string, until: real)
    requires k <= |s.groups| && Closed(s, key, until) && now < until && key != ""
    ensures NoneAdmitted(s, PumpFrom(s, k, now), key, until)
    decreases |s.groups| - k
  {
    hide NoneAdmitted;
    if k == |s.groups| {
      SameNone(s, s, key, until);
    } else {
      PumpClosed(s, k, now, key, until);
      NoneIsClosed(s, Pump(s, k, now), key, until);
      PumpFromClosed(Pump(s, k, now), k + 1, now, key, until);
      NoneTwice(s, Pump(s, k, now), PumpFrom(s, k, now), key, until);
    }
  }

  lemma NoneIsClosed(s: State, r: State, key: string, until: real)
    requires NoneAdmitted(s, r, key, until)
    ensures Closed(r, key, until)
  {
  }

  /** First a change that leaves the model and the past alone, then a pump. */
  lemma ThenPump(s: State, t: State, g: nat, now: real, key: string, until: real)
    requires g < |t.groups| && now < until && key != "" && Closed(s, key, until)
    requires key in t.health && t.health[key] == s.health[key] && t.admissions == s.admissions
    ensures NoneAdmitted(s, Pump(t, g, now), key, until)
  {
    SameNone(s, t, key, until);
    PumpClosed(t, g, now, key, until);
    NoneTwice(s, t, Pump(t, g, now), key, until);
  }

  lemma {:induction false} EscalateClosed(
    s: State, k: nat, name: string, rank: nat, now: real, key: string, until: real)
    requires k <= |s.groups| && Closed(s, key, until) && now < until && key != ""
    ensures NoneAdmitted(s, EscalateFrom(s, k, name, rank, now), key, until)
    decreases |s.groups| - k
  {
    hide NoneAdmitted, Pump, Raised;
    if k == |s.groups| {
      SameNone(s, s, key, until);
    } else {
      var raised := Raised(s.groups[k].queue, name, rank);
      if raised == s.groups[k].queue {
        EscalateClosed(s, k + 1, name, rank, now, key, until);
      } else {
        var t := s.(groups := s.groups[k := s.groups[k].(queue := raised)]);
        ThenPump(s, t, k, now, key, until);
        NoneIsClosed(s, Pump(t, k, now), key, until);
        EscalateClosed(Pump(t, k, now), k + 1, name, rank, now, key, until);
        NoneTwice(s, Pump(t, k, now), EscalateFrom(s, k, name, rank, now), key, until);
      }
    }
  }

  lemma {:induction false} DrainSame(s: State, k: nat)
    requires k <= |s.groups|
    ensures DrainFrom(s, k).health == s.health && DrainFrom(s, k).admissions == s.admissions
    decreases |s.groups| - k
  {
    if k < |s.groups| {
      DrainSame(s.(groups := s.groups[k := s.groups[k].(queue := [])],
                   rejected := s.rejected + multiset(QueueNos(s.groups[k].queue))), k + 1);
    }
  }

  lemma SettleOtherModel(s: State, name: string, now: real, key: string, until: real)
    requires Closed(s, key, until)
    ensures var r := SettleStaleProbe(s, name, now);
      key in r.health && r.health[key] == s.health[key] && r.admissions == s.admissions
  {
  }

  lemma ReleaseClosed(s: State, g: nat, no: nat, now: real, key: string, until: real)
    requires g < |s.groups| && Closed(s, key, until) && now < until && key != ""
    ensures NoneAdmitted(s, Release(s, g, no, now), key, until)
  {
    hide NoneAdmitted, Pump, SettleStaleProbe;
    var i := IndexOf(ActiveNos(s.groups[g].activeEntries), no);
    if i.Some? {
      var a, t := s.groups[g].activeEntries[i.value], FreeSlot(s, g, i.value);
      if a.probe && Keyed(a.modelKey) {
        SettleOtherModel(t, a.modelKey.value, now, key, until);
        ThenPump(s, SettleStaleProbe(t, a.modelKey.value, now), g, now, key, until);
      } else {
        ThenPump(s, t, g, now, key, until);
      }
    } else {
      SameNone(s, s, key, until);
    }
  }

  lemma AcquireClosed(s: State, q: Request, now: real, key: string, until: real)
    requires Closed(s, key, until) && now < until && key != ""
    ensures NoneAdmitted(s, Acquire(s, q, now), key, until)
  {
    hide NoneAdmitted, Pump, GroupIndex;
    var t := WithGroup(s, q.group);
    var u := if Keyed(q.modelKey) && q.probeMax.Some?
             then t.(probeMaxOverrides := t.probeMaxOverrides[q.modelKey.value := q.probeMax.value])
             else t;
    SameNone(s, u, key, until);
    if !u.stopped && !q.aborted {
      ThenPump(s, Enqueue(u, GroupOf(s, q.group), EntryFor(s, q)), GroupOf(s, q.group), now, key, until);
    }
  }

  lemma OtherOutcomeClosed(
    cfg: Tuning, s: State, name: string, cls: Option<FailureClass>, status: Option<nat>, now: real, key: string,
    until: real)
    requires Closed(s, key, until) && now < until && key != "" && name != key
    ensures NoneAdmitted(s, NoteModelOutcome(cfg, s, name, cls, status, now), key, until)
  {
    hide NoneAdmitted, PumpFrom;
    var r := NoteModelOutcome(cfg, s, name, cls, status, now);
    if cls.None? && name in s.health && s.health[name].unhealthy {
      var h := s.health[name].(failures := 0, probeInFlight := false);
      var t := SetHealth(s, name, h.(unhealthy := false, nextProbeAt := 0.0, probeDelay := cfg.probeBase));
      SameNone(s, t, key, until);
      PumpFromClosed(t, 0, now, key, until);
      NoneTwice(s, t, r, key, until);
    } else {
      OtherHealthSame(cfg, s, name, cls, status, now, key);
      SameNone(s, r, key, until);
    }
  }

  lemma OtherHealthSame(
    cfg: Tuning, s: State, name: string, cls: Option<FailureClass>, status: Option<nat>, now: real, key: string)
    requires name != key && key in s.health
    requires cls.None? ==> name !in s.health || !s.health[name].unhealthy
    ensures var r := NoteModelOutcome(cfg, s, name, cls, status, now);
      key in r.health && r.health[key] == s.health[key] && r.admissions == s.admissions
  {
    hide PumpFrom, Least, ProbeMax;
    OutcomeHealthOnly(cfg, s, name, cls, status, now);
  }

  lemma NoteClosed(cfg: Tuning, s: State, r: Report, now: real, key: string, until: real)
    requires Closed(s, key, until) && now < until && key != "" && r.modelKey != Some(key)
    ensures NoneAdmitted(s, NoteOutcome(cfg, s, r, now), key, until)
  {
    hide NoneAdmitted, NoteModelOutcome, Throttled, GroupIndex;
    var t, g := WithGroup(s, r.group), GroupOf(s, r.group);
    var group := if r.status == Some(429) || r.status == Some(503)
                 then Throttled(t.groups[g], r.retryAfter, r.jitter, now)
                 else t.groups[g].(throttles := 0);
    var u := t.(groups := t.groups[g := group]);
    SameNone(s, u, key, until);
    if r.modelKey.Some? {
      OtherOutcomeClosed(cfg, u, r.modelKey.value, r.cls, r.status, now, key, until);
      NoneTwice(s, u, NoteOutcome(cfg, s, r, now), key, until);
    }
  }

  lemma QuietClosed(s: State, name: string, now: real, key: string, until: real)
    requires Closed(s, key, until) && now < until
    ensures NoneAdmitted(s, RegisterProber(s, name), key, until)
    ensures NoneAdmitted(s, ProbeTimerFires(s, name, now), key, until)
    ensures NoneAdmitted(s, ClearEscalation(s, name), key, until)
    ensures NoneAdmitted(s, Stop(s), key, until)
  {
    DrainSame(s.(stopped := true, probeTimers := {}), 0);
  }

  lemma RaiseClosed(s: State, name: string, rank: nat, now: real, key: string, until: real)
    requires Closed(s, key, until) && now < until && key != ""
    ensures NoneAdmitted(s, Escalate(s, name, rank, now), key, until)
  {
    var pinned := if name in s.sticky && s.sticky[name] >= rank then s.sticky[name] else rank;
    var t := s.(sticky := s.sticky[name := pinned]);
    EscalateClosed(t, 0, name, pinned, now, key, until);
    NoneTwice(s, t, Escalate(s, name, rank, now), key, until);
  }

  lemma ProbeEndClosed(
    cfg: Tuning, s: State, name: string, ok: bool, status: Option<nat>, now: real, key: string, until: real)
    requires Closed(s, key, until) && now < until && key != "" && name != key
    ensures NoneAdmitted(s, ProbeSettles(cfg, s, name, ok, status, now), key, until)
  {
    hide NoneAdmitted, NoteModelOutcome;
    var t := s.(probing := s.probing - multiset{name});
    SameNone(s, s, key, until);
    SameNone(s, t, key, until);
    if name in s.probing && !s.stopped {
      var cls := if ok then None else Some(Environmental);
      var code := if ok then None else status;
      OtherOutcomeClosed(cfg, t, name, cls, code, now, key, until);
      NoneTwice(s, t, NoteModelOutcome(cfg, t, name, cls, code, now), key, until);
    }
  }

  /** No outcome of the model is noted. */
  predicate Silent(t: Timed, key: string) {
    !Reports(t, key) && !(t.step.ProbeEnd? && t.step.key == key)
  }

  lemma StepClosed(cfg: Tuning, s: State, t: Timed, key: string, until: real)
    requires Closed(s, key, until) && t.now < until && key != "" && Silent(t, key)
    ensures NoneAdmitted(s, Take(cfg, s, t), key, until)
  {
    hide NoneAdmitted, Acquire, Release, Escalate, NoteOutcome, ProbeSettles, RegisterProber, ProbeTimerFires,
      Stop, ClearEscalation, Pump;
    QuietClosed(s, if t.step.ProbeTimer? || t.step.AddProber? || t.step.ClearRaise? then t.step.key else "", t.now, key,
                until);
    SameNone(s, s, key, until);
    match t.step
    case Ask(q) => AcquireClosed(s, q, t.now, key, until);
    case Abort(g, no) => if g < |s.groups| { SameNone(s, AbortWaiter(s, g, no), key, until); }
    case GiveBack(g, no) => if g < |s.groups| { ReleaseClosed(s, g, no, t.now, key, until); }
    case Raise(name, rank) => RaiseClosed(s, name, rank, t.now, key, until);
    case Settled(r) => NoteClosed(cfg, s, r, t.now, key, until);
    case ProbeEnd(name, ok, status) => ProbeEndClosed(cfg, s, name, ok, status, t.now, key, until);
    case PumpTimer(g) => if g < |s.groups| { ThenPump(s, s, g, t.now, key, until); }
    case _ =>
  }

  /**
   * After a strike on an unhealthy model, until the strike's time plus its delay and as long as no other
   * outcome of the model comes in, no waiter of it is admitted in any group, whatever else happens.
   */
  lemma {:induction false} NothingBeforeWindow(
    cfg: Tuning, s: State, strike: Timed, steps: seq<Timed>, key: string)
    requires key != "" && Strikes(s, strike, key)
    requires var r := Take(cfg, s, strike); key in r.health && r.health[key].unhealthy
    requires forall k | 0 <= k < |steps| ::
      Silent(steps[k], key) && steps[k].now < strike.now + Take(cfg, s, strike).health[key].probeDelay
    ensures var r := Take(cfg, s, strike);
      NoneAdmitted(r, After(cfg, r, steps), key, strike.now + r.health[key].probeDelay)
  {
    hide Take, NoneAdmitted;
    var r := Take(cfg, s, strike);
    var until := strike.now + r.health[key].probeDelay;
    StrikeSetsWindow(cfg, s, strike, key);
    if steps == [] {
      SameNone(r, r, key, until);
    } else {
      var init := steps[..|steps| - 1];
      NothingBeforeWindow(cfg, s, strike, init, key);
      var t := After(cfg, r, init);
      NoneIsClosed(r, t, key, until);
      StepClosed(cfg, t, steps[|steps| - 1], key, until);
      NoneTwice(r, t, After(cfg, r, steps), key, until);
    }
  }
}
