/** What a request asked for stays with it: as a waiter, as a slot, and in the pins and caps it leaves. */
module Registrations {
  import opened Transcript
  import opened Scheduler
  import opened Admissions

  // ---------------------------------------------------------------------------
  // Where the entries of a group come from
  // ---------------------------------------------------------------------------

  /** The same waiter, its class raised at most. */
  predicate SameWaiter(e: Entry, f: Entry) {
    f == e.(rank := f.rank) && f.rank >= e.rank
  }

  /** The slot of the waiter. */
  predicate SlotOf(e: Entry, a: Active) {
    a.no == e.no && a.modelKey == e.modelKey && a.share == if e.share.Some? then Some(e.share.value.name) else None
  }

  ghost predicate WaiterComes(g: Group, f: Entry) {
    exists e | e in g.queue :: SameWaiter(e, f)
  }

  ghost predicate SlotComes(g: Group, a: Active) {
    a in g.activeEntries || exists e | e in g.queue :: SlotOf(e, a)
  }

  /** Every waiter and every slot of the second group was a waiter, or a slot, of the first. */
  ghost predicate GroupComes(g: Group, h: Group) {
    && h.name == g.name
    && (forall f | f in h.queue :: WaiterComes(g, f))
    && (forall a | a in h.activeEntries :: SlotComes(g, a))
  }

  ghost predicate Comes(s: State, r: State) {
    && |s.groups| <= |r.groups| && r.seqCounter == s.seqCounter
    && (forall k | 0 <= k < |s.groups| :: GroupComes(s.groups[k], r.groups[k]))
    && (forall k | |s.groups| <= k < |r.groups| :: r.groups[k].queue == [] && r.groups[k].activeEntries == [])
  }

  lemma GroupComesTwice(a: Group, b: Group, c: Group)
    requires GroupComes(a, b) && GroupComes(b, c)
    ensures GroupComes(a, c)
  {
    forall f | f in c.queue ensures WaiterComes(a, f) {
      assert WaiterComes(b, f);
      var e :| e in b.queue && SameWaiter(e, f);
      assert WaiterComes(a, e);
      var d :| d in a.queue && SameWaiter(d, e);
      assert SameWaiter(d, f);
    }
    forall x | x in c.activeEntries ensures SlotComes(a, x) {
      assert SlotComes(b, x);
      if x in b.activeEntries {
        assert SlotComes(a, x);
      } else {
        var e :| e in b.queue && SlotOf(e, x);
        assert WaiterComes(a, e);
        var d :| d in a.queue && SameWaiter(d, e);
        assert SlotOf(d, x);
      }
    }
  }

  lemma NobodyIn<T>(s: seq<T>)
    ensures s != [] ==> exists x :: x in s
  {
    if s != [] { assert s[0] in s; }
  }

  lemma NothingComes(g: Group, h: Group)
    requires GroupComes(g, h) && g.queue == [] && g.activeEntries == []
    ensures h.queue == [] && h.activeEntries == []
  {
    NobodyIn(h.queue);
    NobodyIn(h.activeEntries);
  }

  lemma ComesTwice(s: State, t: State, r: State)
    requires Comes(s, t) && Comes(t, r)
    ensures Comes(s, r)
  {
    hide GroupComes;
    forall k | 0 <= k < |s.groups| ensures GroupComes(s.groups[k], r.groups[k]) {
      GroupComesTwice(s.groups[k], t.groups[k], r.groups[k]);
    }
    forall k | |s.groups| <= k < |r.groups| ensures r.groups[k].queue == [] && r.groups[k].activeEntries == [] {
      if k < |t.groups| { NothingComes(t.groups[k], r.groups[k]); }
    }
  }

  lemma GroupStays(g: Group, h: Group)
    requires h.name == g.name
    requires forall e | e in h.queue :: e in g.queue
    requires forall a | a in h.activeEntries :: a in g.activeEntries
    ensures GroupComes(g, h)
  {
    forall f | f in h.queue ensures WaiterComes(g, f) { assert SameWaiter(f, f); }
  }

  /** One group changed, the others did not. */
  lemma OneGroup(s: State, r: State, g: nat)
    requires g < |s.groups| && |r.groups| == |s.groups| && r.seqCounter == s.seqCounter
    requires GroupComes(s.groups[g], r.groups[g])
    requires forall k | 0 <= k < |s.groups| && k != g :: r.groups[k] == s.groups[k]
    ensures Comes(s, r)
  {
    hide GroupComes;
    forall k | 0 <= k < |s.groups| && k != g ensures GroupComes(s.groups[k], r.groups[k]) {
      GroupStays(s.groups[k], r.groups[k]);
    }
  }

  lemma SameComes(s: State, r: State)
    requires r.seqCounter == s.seqCounter && r.groups == s.groups
    ensures Comes(s, r)
  {
    hide GroupComes;
    forall k | 0 <= k < |s.groups| ensures GroupComes(s.groups[k], r.groups[k]) {
      GroupStays(s.groups[k], r.groups[k]);
    }
  }

  lemma RemovedIn<T>(s: seq<T>, i: nat)
    requires i < |s|
    ensures forall x | x in RemoveAt(s, i) :: x in s
  {
  }

  lemma AdmitComes(s: State, g: nat, i: nat, now: real)
    requires g < |s.groups| && i < |s.groups[g].queue|
    ensures Comes(s, Admit(s, g, i, now))
  {
    hide GroupComes;
    var group, r := s.groups[g], Admit(s, g, i, now);
    GroupAdmits(group, r.groups[g], i);
    OneGroup(s, r, g);
  }

  lemma GroupAdmits(g: Group, h: Group, i: nat)
    requires i < |g.queue| && h.name == g.name && h.queue == RemoveAt(g.queue, i)
    requires |h.activeEntries| == |g.activeEntries| + 1 && h.activeEntries[..|g.activeEntries|] == g.activeEntries
    requires SlotOf(g.queue[i], h.activeEntries[|g.activeEntries|])
    ensures GroupComes(g, h)
  {
    RemovedIn(g.queue, i);
    forall f | f in h.queue ensures WaiterComes(g, f) { assert SameWaiter(f, f); }
    forall a | a in h.activeEntries ensures SlotComes(g, a) {
      var k :| 0 <= k < |h.activeEntries| && h.activeEntries[k] == a;
      if k < |g.activeEntries| { assert a == g.activeEntries[k]; } else { assert g.queue[i] in g.queue; }
    }
  }

  lemma {:induction false} PumpComes(s: State, g: nat, now: real)
    requires g < |s.groups|
    ensures Comes(s, Pump(s, g, now))
    decreases |s.groups[g].queue|
  {
    hide Comes;
    var i := NextWaiter(s.health, s.groups[g], now);
    if i.Some? {
      AdmitComes(s, g, i.value, now);
      PumpComes(Admit(s, g, i.value, now), g, now);
      ComesTwice(s, Admit(s, g, i.value, now), Pump(s, g, now));
    } else {
      SameComes(s, s);
    }
  }

  lemma {:induction false} PumpFromComes(s: State, k: nat, now: real)
    requires k <= |s.groups|
    ensures Comes(s, PumpFrom(s, k, now))
    decreases |s.groups| - k
  {
    hide Comes;
    if k < |s.groups| {
      PumpComes(s, k, now);
      PumpFromComes(Pump(s, k, now), k + 1, now);
      ComesTwice(s, Pump(s, k, now), PumpFrom(s, k, now));
    } else {
      SameComes(s, s);
    }
  }

  lemma RaisedComes(s: State, k: nat, key: string, rank: nat)
    requires k < |s.groups|
    ensures Comes(s, s.(groups := s.groups[k := s.groups[k].(queue := Raised(s.groups[k].queue, key, rank))]))
  {
    hide Comes;
    var group := s.groups[k];
    var raised := Raised(group.queue, key, rank);
    forall f | f in raised ensures WaiterComes(group, f) {
      var i :| 0 <= i < |raised| && raised[i] == f;
      assert SameWaiter(group.queue[i], f);
    }
    assert GroupComes(group, group.(queue := raised));
    OneGroup(s, s.(groups := s.groups[k := group.(queue := raised)]), k);
  }

  lemma {:induction false} EscalateComes(s: State, k: nat, key: string, rank: nat, now: real)
    requires k <= |s.groups|
    ensures Comes(s, EscalateFrom(s, k, key, rank, now))
    decreases |s.groups| - k
  {
    hide Comes, Raised, Pump;
    if k == |s.groups| {
      SameComes(s, s);
    } else {
      var raised := Raised(s.groups[k].queue, key, rank);
      if raised == s.groups[k].queue {
        EscalateComes(s, k + 1, key, rank, now);
      } else {
        var t := s.(groups := s.groups[k := s.groups[k].(queue := raised)]);
        RaisedComes(s, k, key, rank);
        PumpComes(t, k, now);
        ComesTwice(s, t, Pump(t, k, now));
        EscalateComes(Pump(t, k, now), k + 1, key, rank, now);
        ComesTwice(s, Pump(t, k, now), EscalateFrom(s, k, key, rank, now));
      }
    }
  }

  lemma {:induction false} DrainComes(s: State, k: nat)
    requires k <= |s.groups|
    ensures Comes(s, DrainFrom(s, k))
    decreases |s.groups| - k
  {
    hide Comes;
    if k == |s.groups| {
      SameComes(s, s);
    } else {
      var t := s.(groups := s.groups[k := s.groups[k].(queue := [])],
                  rejected := s.rejected + multiset(QueueNos(s.groups[k].queue)));
      GroupStays(s.groups[k], t.groups[k]);
      OneGroup(s, t, k);
      DrainComes(t, k + 1);
      ComesTwice(s, t, DrainFrom(s, k));
    }
  }

  lemma WithGroupComes(s: State, name: string)
    ensures Comes(s, WithGroup(s, name))
  {
    hide GroupComes, GroupIndex;
    var r := WithGroup(s, name);
    forall k | 0 <= k < |s.groups| ensures GroupComes(s.groups[k], r.groups[k]) {
      GroupStays(s.groups[k], r.groups[k]);
    }
  }

  lemma AbortComes(s: State, g: nat, no: nat)
    requires g < |s.groups|
    ensures Comes(s, AbortWaiter(s, g, no))
  {
    hide Comes;
    var i := IndexOf(QueueNos(s.groups[g].queue), no);
    if i.Some? {
      var r := AbortWaiter(s, g, no);
      RemovedIn(s.groups[g].queue, i.value);
      GroupStays(s.groups[g], r.groups[g]);
      OneGroup(s, r, g);
    } else {
      SameComes(s, s);
    }
  }

  lemma ReleaseComes(s: State, g: nat, no: nat, now: real)
    requires g < |s.groups|
    ensures Comes(s, Release(s, g, no, now))
  {
    hide Comes, Pump;
    var i := IndexOf(ActiveNos(s.groups[g].activeEntries), no);
    if i.Some? {
      var a, t := s.groups[g].activeEntries[i.value], FreeSlot(s, g, i.value);
      RemovedIn(s.groups[g].activeEntries, i.value);
      GroupStays(s.groups[g], t.groups[g]);
      OneGroup(s, t, g);
      var u := if a.probe && Keyed(a.modelKey) then SettleStaleProbe(t, a.modelKey.value, now) else t;
      SameComes(t, u);
      ComesTwice(s, t, u);
      PumpComes(u, g, now);
      ComesTwice(s, u, Pump(u, g, now));
    } else {
      SameComes(s, s);
    }
  }

  lemma NoteModelComes(cfg: Tuning, s: State, key: string, cls: Option<FailureClass>, status: Option<nat>, now: real)
    ensures Comes(s, NoteModelOutcome(cfg, s, key, cls, status, now))
  {
    hide Comes, PumpFrom;
    var r := NoteModelOutcome(cfg, s, key, cls, status, now);
    if cls.None? && key in s.health && s.health[key].unhealthy {
      var h := s.health[key].(failures := 0, probeInFlight := false);
      var t := SetHealth(s, key, h.(unhealthy := false, nextProbeAt := 0.0, probeDelay := cfg.probeBase));
      SameComes(s, t);
      PumpFromComes(t, 0, now);
      ComesTwice(s, t, r);
    } else {
      hide NoteModelOutcome;
      OutcomeHealthOnly(cfg, s, key, cls, status, now);
      SameComes(s, r);
    }
  }

  lemma NoteComes(cfg: Tuning, s: State, r: Report, now: real)
    ensures Comes(s, NoteOutcome(cfg, s, r, now))
  {
    hide Comes, NoteModelOutcome, GroupIndex;
    var t, g := WithGroup(s, r.group), GroupOf(s, r.group);
    var group := if r.status == Some(429) || r.status == Some(503)
                 then Throttled(t.groups[g], r.retryAfter, r.jitter, now)
                 else t.groups[g].(throttles := 0);
    var u := t.(groups := t.groups[g := group]);
    WithGroupComes(s, r.group);
    GroupStays(t.groups[g], group);
    OneGroup(t, u, g);
    ComesTwice(s, t, u);
    if r.modelKey.Some? {
      NoteModelComes(cfg, u, r.modelKey.value, r.cls, r.status, now);
      ComesTwice(s, u, NoteOutcome(cfg, s, r, now));
    }
  }

  // ---------------------------------------------------------------------------
  // What was asked for
  // ---------------------------------------------------------------------------

  /** The requests registered, in the order of their numbers. */
  function Registered(cfg: Tuning, s: State, steps: seq<Timed>): seq<Request> {
    if steps == [] then [] else
      var init, step := steps[..|steps| - 1], steps[|steps| - 1].step;
      Registered(cfg, s, init)
      + (if step.Ask? && !After(cfg, s, init).stopped && !step.q.aborted then [step.q] else [])
  }

  /** The waiter is what its request asked for, of its class or above, in the group it named. */
  ghost predicate WaiterTells(group: string, e: Entry, asked: seq<Request>) {
    && e.no < |asked|
    && var q := asked[e.no];
    && e.key == q.key && e.modelKey == q.modelKey && e.share == q.share && e.rank >= q.rank && group == q.group
  }

  ghost predicate SlotTells(group: string, a: Active, asked: seq<Request>) {
    && a.no < |asked|
    && var q := asked[a.no];
    && a.modelKey == q.modelKey && group == q.group
    && a.share == if q.share.Some? then Some(q.share.value.name) else None
  }

  ghost predicate GroupTells(g: Group, asked: seq<Request>) {
    && (forall e | e in g.queue :: WaiterTells(g.name, e, asked))
    && (forall a | a in g.activeEntries :: SlotTells(g.name, a, asked))
  }

  ghost predicate AllTell(s: State, asked: seq<Request>) {
    s.seqCounter == |asked| && forall k | 0 <= k < |s.groups| :: GroupTells(s.groups[k], asked)
  }

  lemma ComesTells(s: State, r: State, asked: seq<Request>)
    requires Comes(s, r) && AllTell(s, asked)
    ensures AllTell(r, asked)
  {
    forall k | 0 <= k < |r.groups| ensures GroupTells(r.groups[k], asked) {
      if k < |s.groups| {
        GroupComesTells(s.groups[k], r.groups[k], asked);
      }
    }
  }

  lemma GroupComesTells(g: Group, h: Group, asked: seq<Request>)
    requires GroupComes(g, h) && GroupTells(g, asked)
    ensures GroupTells(h, asked)
  {
    forall f | f in h.queue ensures WaiterTells(h.name, f, asked) {
      assert WaiterComes(g, f);
      var e :| e in g.queue && SameWaiter(e, f);
      assert WaiterTells(g.name, e, asked);
    }
    forall a | a in h.activeEntries ensures SlotTells(h.name, a, asked) {
      assert SlotComes(g, a);
      if a !in g.activeEntries {
        var e :| e in g.queue && SlotOf(e, a);
        assert WaiterTells(g.name, e, asked);
      }
    }
  }

  lemma MoreAsked(g: Group, asked: seq<Request>, q: Request)
    requires GroupTells(g, asked)
    ensures GroupTells(g, asked + [q])
  {
    forall e | e in g.queue ensures WaiterTells(g.name, e, asked + [q]) {
      assert WaiterTells(g.name, e, asked) && (asked + [q])[e.no] == asked[e.no];
    }
    forall a | a in g.activeEntries ensures SlotTells(g.name, a, asked + [q]) {
      assert SlotTells(g.name, a, asked) && (asked + [q])[a.no] == asked[a.no];
    }
  }

  lemma EnqueueTells(s: State, g: nat, e: Entry, asked: seq<Request>, q: Request)
    requires g < |s.groups| && AllTell(s, asked) && e.no == s.seqCounter && s.groups[g].name == q.group
    requires e.key == q.key && e.modelKey == q.modelKey && e.share == q.share && e.rank >= q.rank
    ensures AllTell(Enqueue(s, g, e), asked + [q])
  {
    var r := Enqueue(s, g, e);
    forall k | 0 <= k < |r.groups| ensures GroupTells(r.groups[k], asked + [q]) {
      MoreAsked(s.groups[k], asked, q);
      if k == g { assert WaiterTells(r.groups[k].name, e, asked + [q]); }
    }
  }

  lemma AskTells(s: State, q: Request, now: real, asked: seq<Request>)
    requires AllTell(s, asked)
    ensures AllTell(Acquire(s, q, now), if !s.stopped && !q.aborted then asked + [q] else asked)
  {
    hide AllTell, Comes, Pump, GroupIndex;
    var t := WithGroup(s, q.group);
    var u := if Keyed(q.modelKey) && q.probeMax.Some?
             then t.(probeMaxOverrides := t.probeMaxOverrides[q.modelKey.value := q.probeMax.value])
             else t;
    WithGroupComes(s, q.group);
    ComesTells(s, t, asked);
    SameComes(t, u);
    ComesTells(t, u, asked);
    if !u.stopped && !q.aborted {
      var g, e := GroupOf(s, q.group), EntryFor(s, q);
      CountsTell(u, asked);
      EnqueueTells(u, g, e, asked, q);
      PumpComes(Enqueue(u, g, e), g, now);
      ComesTells(Enqueue(u, g, e), Acquire(s, q, now), asked + [q]);
    }
  }

  lemma CountsTell(s: State, asked: seq<Request>)
    requires AllTell(s, asked)
    ensures s.seqCounter == |asked|
  {
  }

  lemma QuietComes(s: State, key: string, now: real)
    ensures Comes(s, RegisterProber(s, key)) && Comes(s, ProbeTimerFires(s, key, now))
    ensures Comes(s, ClearEscalation(s, key))
  {
    hide Comes;
    SameComes(s, RegisterProber(s, key));
    SameComes(s, ProbeTimerFires(s, key, now));
    SameComes(s, ClearEscalation(s, key));
  }

  lemma ProbeEndComes(cfg: Tuning, s: State, key: string, ok: bool, status: Option<nat>, now: real)
    ensures Comes(s, ProbeSettles(cfg, s, key, ok, status, now))
  {
    hide Comes, NoteModelOutcome;
    var t := s.(probing := s.probing - multiset{key});
    SameComes(s, s);
    SameComes(s, t);
    NoteModelComes(cfg, t, key, None, None, now);
    NoteModelComes(cfg, t, key, Some(Environmental), status, now);
    ComesTwice(s, t, NoteModelOutcome(cfg, t, key, None, None, now));
    ComesTwice(s, t, NoteModelOutcome(cfg, t, key, Some(Environmental), status, now));
  }

  lemma RaiseComes(s: State, key: string, rank: nat, now: real)
    ensures Comes(s, Escalate(s, key, rank, now))
  {
    hide Comes;
    var pinned := if key in s.sticky && s.sticky[key] >= rank then s.sticky[key] else rank;
    var t := s.(sticky := s.sticky[key := pinned]);
    SameComes(s, t);
    EscalateComes(t, 0, key, pinned, now);
    ComesTwice(s, t, Escalate(s, key, rank, now));
  }

  lemma StopComes(s: State)
    ensures Comes(s, Stop(s))
  {
    hide Comes;
    var t := s.(stopped := true, probeTimers := {});
    SameComes(s, t);
    DrainComes(t, 0);
    ComesTwice(s, t, Stop(s));
  }

  /** No step but a registration brings anybody in. */
  lemma StepComes(cfg: Tuning, s: State, t: Timed)
    requires !t.step.Ask?
    ensures Comes(s, Take(cfg, s, t))
  {
    hide Comes, Release, NoteOutcome, ProbeSettles, Pump, AbortWaiter, Escalate, RegisterProber, ProbeTimerFires,
      ClearEscalation, Stop;
    SameComes(s, s);
    match t.step
    case Abort(g, no) => if g < |s.groups| { AbortComes(s, g, no); }
    case GiveBack(g, no) => if g < |s.groups| { ReleaseComes(s, g, no, t.now); }
    case Raise(key, rank) => RaiseComes(s, key, rank, t.now);
    case ClearRaise(key) => QuietComes(s, key, t.now);
    case Settled(r) => NoteComes(cfg, s, r, t.now);
    case AddProber(key) => QuietComes(s, key, t.now);
    case ProbeTimer(key) => QuietComes(s, key, t.now);
    case ProbeEnd(key, ok, status) => ProbeEndComes(cfg, s, key, ok, status, t.now);
    case PumpTimer(g) => if g < |s.groups| { PumpComes(s, g, t.now); }
    case Shutdown => StopComes(s);
  }

  /**
   * Over every run, whoever waits and whoever holds a slot does so for the very request that registered under its
   * number: its model, its share and its key, in the group it named, at its class or above.
   */
  lemma {:induction false} EntriesTellRequests(cfg: Tuning, groups: seq<Group>, steps: seq<Timed>)
    requires Unused(groups)
    ensures AllTell(After(cfg, Fresh(groups), steps), Registered(cfg, Fresh(groups), steps))
  {
    hide AllTell, Take;
    if steps == [] {
      NobodyTells(groups);
    } else {
      var init, last := steps[..|steps| - 1], steps[|steps| - 1];
      var s, asked := After(cfg, Fresh(groups), init), Registered(cfg, Fresh(groups), init);
      EntriesTellRequests(cfg, groups, init);
      if last.step.Ask? {
        AskTells(s, last.step.q, last.now, asked);
        AskIsAcquire(cfg, s, last);
        assert asked + [] == asked;
      } else {
        StepComes(cfg, s, last);
        ComesTells(s, Take(cfg, s, last), asked);
        assert asked + [] == asked;
      }
    }
  }

  lemma AskIsAcquire(cfg: Tuning, s: State, t: Timed)
    requires t.step.Ask?
    ensures Take(cfg, s, t) == Acquire(s, t.step.q, t.now)
  {
  }

  lemma NobodyTells(groups: seq<Group>)
    requires Unused(groups)
    ensures AllTell(Fresh(groups), [])
  {
  }

  // ---------------------------------------------------------------------------
  // Pins, caps and backoff
  // ---------------------------------------------------------------------------

  /** A request registers at the higher of its own class and the one its key is pinned to; a cleared pin is gone. */
  lemma RegistersAt(s: State, q: Request, key: string)
    ensures var rank := EntryFor(s, q).rank;
      && (q.key != Some(key) || key == "" || key !in s.sticky || s.sticky[key] <= q.rank || rank == s.sticky[key])
      && (rank == q.rank || (Keyed(q.key) && q.key.value in s.sticky && rank == s.sticky[q.key.value] > q.rank))
    ensures q.key == Some(key) ==> EntryFor(ClearEscalation(s, key), q).rank == q.rank
  {
  }

  /** A request sets the longest probe delay of its model, if it names one, even when it is rejected. */
  lemma AskSetsCap(cfg: Tuning, s: State, q: Request, now: real)
    requires Keyed(q.modelKey) && q.probeMax.Some?
    ensures ProbeMax(cfg, Acquire(s, q, now), q.modelKey.value) == q.probeMax.value
  {
    hide Pump, GroupIndex;
    var t := WithGroup(s, q.group);
    var u := t.(probeMaxOverrides := t.probeMaxOverrides[q.modelKey.value := q.probeMax.value]);
    if !u.stopped && !q.aborted {
      PumpKeepsCaps(Enqueue(u, GroupOf(s, q.group), EntryFor(s, q)), GroupOf(s, q.group), now);
    }
  }

  lemma {:induction false} PumpKeepsCaps(s: State, g: nat, now: real)
    requires g < |s.groups|
    ensures Pump(s, g, now).probeMaxOverrides == s.probeMaxOverrides
    decreases |s.groups[g].queue|
  {
    var i := NextWaiter(s.health, s.groups[g], now);
    if i.Some? { PumpKeepsCaps(Admit(s, g, i.value, now), g, now); }
  }

  /** A failed probe doubles the model's delay, up to the cap a request set for it, or the common one. */
  lemma StrikeDoubles(cfg: Tuning, s: State, key: string, now: real)
    requires key in s.health && s.health[key].unhealthy
    ensures var delay, twice := Fail(cfg, s, key, now).health[key].probeDelay, s.health[key].probeDelay * 2.0;
      var cap := if key in s.probeMaxOverrides then s.probeMaxOverrides[key] else cfg.probeMax;
      delay <= twice && delay <= cap && (delay == twice || delay == cap)
  {
  }

  /** The groups throttle and back off as before. */
  ghost predicate SamePace(s: State, r: State) {
    && |r.groups| == |s.groups|
    && forall k | 0 <= k < |s.groups| ::
         r.groups[k].throttles == s.groups[k].throttles && r.groups[k].backoffUntil == s.groups[k].backoffUntil
  }

  lemma {:induction false} PumpKeepsPace(s: State, g: nat, now: real)
    requires g < |s.groups|
    ensures SamePace(s, Pump(s, g, now))
    decreases |s.groups[g].queue|
  {
    var i := NextWaiter(s.health, s.groups[g], now);
    if i.Some? { PumpKeepsPace(Admit(s, g, i.value, now), g, now); }
  }

  lemma {:induction false} PumpFromKeepsPace(s: State, k: nat, now: real)
    requires k <= |s.groups|
    ensures SamePace(s, PumpFrom(s, k, now))
    decreases |s.groups| - k
  {
    if k < |s.groups| {
      PumpKeepsPace(s, k, now);
      PumpFromKeepsPace(Pump(s, k, now), k + 1, now);
    }
  }

  lemma NoteModelKeepsPace(
    cfg: Tuning, s: State, key: string, cls: Option<FailureClass>, status: Option<nat>, now: real)
    ensures SamePace(s, NoteModelOutcome(cfg, s, key, cls, status, now))
  {
    if cls.None? && key in s.health && s.health[key].unhealthy {
      var h := s.health[key].(failures := 0, probeInFlight := false);
      var well := h.(unhealthy := false, nextProbeAt := 0.0, probeDelay := cfg.probeBase);
      PumpFromKeepsPace(SetHealth(s, key, well), 0, now);
    } else {
      hide NoteModelOutcome;
      OutcomeHealthOnly(cfg, s, key, cls, status, now);
    }
  }

  /** What an outcome does to its group: statuses 429 and 503 count as throttles, anything else starts over. */
  lemma OutcomeOnGroup(cfg: Tuning, s: State, r: Report, now: real)
    ensures var t, g := WithGroup(s, r.group), GroupOf(s, r.group);
      var u := NoteOutcome(cfg, s, r, now);
      && |u.groups| == |t.groups|
      && var before, after := t.groups[g], u.groups[g];
      var throttled := r.status == Some(429) || r.status == Some(503);
      && after.throttles == (if throttled then before.throttles + 1 else 0)
      && after.backoffUntil >= before.backoffUntil
      && (throttled ==> after.backoffUntil == Throttled(before, r.retryAfter, r.jitter, now).backoffUntil)
      && (!throttled ==> after.backoffUntil == before.backoffUntil)
  {
    hide NoteModelOutcome, GroupIndex;
    var t, g := WithGroup(s, r.group), GroupOf(s, r.group);
    var group := if r.status == Some(429) || r.status == Some(503)
                 then Throttled(t.groups[g], r.retryAfter, r.jitter, now)
                 else t.groups[g].(throttles := 0);
    if r.modelKey.Some? {
      NoteModelKeepsPace(cfg, t.(groups := t.groups[g := group]), r.modelKey.value, r.cls, r.status, now);
    }
  }
}
