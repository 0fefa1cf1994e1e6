/** A slot that comes free goes to a waiter at once: no step leaves an admissible waiter beside a free slot it made. */
module Settling {
  import opened Transcript
  import opened Scheduler
  import opened Admissions

  /** Nobody of the group can be admitted: none waits, no slot is free, a backoff is on, or no waiter is eligible. */
  ghost predicate AtRest(health: map<string, Health>, g: Group, now: real) {
    || g.queue == [] || g.active >= g.maxInFlight || g.backoffUntil > now
    || NoneEligible(health, g, |g.queue|, now)
  }

  lemma PumpRests(s: State, g: nat, now: real)
    requires g < |s.groups|
    ensures var r := Pump(s, g, now); AtRest(r.health, r.groups[g], now)
  {
    PumpIsDone(s, g, now);
  }

  // ---------------------------------------------------------------------------
  // Pumping other groups
  // ---------------------------------------------------------------------------

  /** Only probe flags were set since. */
  ghost predicate MoreFlags(before: map<string, Health>, after: map<string, Health>) {
    && after.Keys == before.Keys
    && forall key | key in before ::
         after[key] == before[key] || after[key] == before[key].(probeInFlight := true)
  }

  lemma FlagsGrow(a: map<string, Health>, b: map<string, Health>, c: map<string, Health>)
    requires MoreFlags(a, b) && MoreFlags(b, c)
    ensures MoreFlags(a, c)
  {
  }

  /** The group came to rest, and only probe flags were set since, by the pumps of other groups. */
  ghost predicate CameToRest(r: State, g: nat, now: real)
    requires g < |r.groups|
  {
    exists health | MoreFlags(health, r.health) :: AtRest(health, r.groups[g], now)
  }

  /** Pumping one group leaves the others, and sets flags. */
  ghost predicate Elsewhere(s: State, r: State, g: nat) {
    && |r.groups| == |s.groups| && MoreFlags(s.health, r.health)
    && forall k | 0 <= k < |s.groups| && k != g :: r.groups[k] == s.groups[k]
  }

  lemma {:induction false} PumpElsewhere(s: State, g: nat, now: real)
    requires g < |s.groups|
    ensures Elsewhere(s, Pump(s, g, now), g)
    decreases |s.groups[g].queue|
  {
    var i := NextWaiter(s.health, s.groups[g], now);
    if i.Some? {
      var t := Admit(s, g, i.value, now);
      PumpElsewhere(t, g, now);
      assert MoreFlags(s.health, t.health);
      FlagsGrow(s.health, t.health, Pump(t, g, now).health);
    }
  }

  lemma StillCame(s: State, r: State, g: nat, k: nat, now: real)
    requires k < |s.groups| && k != g && CameToRest(s, k, now) && Elsewhere(s, r, g)
    ensures CameToRest(r, k, now)
  {
    hide MoreFlags, AtRest;
    var health :| MoreFlags(health, s.health) && AtRest(health, s.groups[k], now);
    FlagsGrow(health, s.health, r.health);
  }

  lemma PumpCame(s: State, g: nat, now: real)
    requires g < |s.groups|
    ensures CameToRest(Pump(s, g, now), g, now)
  {
    hide AtRest;
    PumpRests(s, g, now);
    assert MoreFlags(Pump(s, g, now).health, Pump(s, g, now).health);
  }

  lemma {:induction false} PumpFromCame(s: State, k: nat, now: real, j: nat)
    requires k <= |s.groups| && j < |s.groups| && (j < k ==> CameToRest(s, j, now))
    ensures CameToRest(PumpFrom(s, k, now), j, now)
    decreases |s.groups| - k
  {
    hide CameToRest, Elsewhere;
    if k < |s.groups| {
      PumpElsewhere(s, k, now);
      if j < k { StillCame(s, Pump(s, k, now), k, j, now); }
      if j == k { PumpCame(s, k, now); }
      PumpFromCame(Pump(s, k, now), k + 1, now, j);
    }
  }

  /** A waiter under the key is below the class. */
  ghost predicate Raises(queue: seq<Entry>, key: string, rank: nat) {
    exists i | 0 <= i < |queue| :: queue[i].key == Some(key) && queue[i].rank < rank
  }

  lemma RaisedChanges(queue: seq<Entry>, key: string, rank: nat)
    requires Raises(queue, key, rank)
    ensures Raised(queue, key, rank) != queue
  {
    var i :| 0 <= i < |queue| && queue[i].key == Some(key) && queue[i].rank < rank;
    assert Raised(queue, key, rank)[i] != queue[i];
  }

  lemma {:induction false} EscalateCame(s: State, k: nat, key: string, rank: nat, now: real, j: nat)
    requires k <= |s.groups| && j < |s.groups|
    requires if j < k then CameToRest(s, j, now) else Raises(s.groups[j].queue, key, rank)
    ensures var r := EscalateFrom(s, k, key, rank, now); j < |r.groups| && CameToRest(r, j, now)
    decreases |s.groups| - k
  {
    hide CameToRest, Raises, Raised, Pump;
    if k < |s.groups| {
      var raised := Raised(s.groups[k].queue, key, rank);
      if j == k { RaisedChanges(s.groups[k].queue, key, rank); }
      if raised == s.groups[k].queue {
        EscalateCame(s, k + 1, key, rank, now, j);
      } else {
        var t := s.(groups := s.groups[k := s.groups[k].(queue := raised)]);
        PumpElsewhere(t, k, now);
        if j < k {
          SameCame(s, t, j, now);
          StillCame(t, Pump(t, k, now), k, j, now);
        }
        if j == k { PumpCame(t, k, now); }
        EscalateCame(Pump(t, k, now), k + 1, key, rank, now, j);
      }
    }
  }

  lemma SameCame(s: State, t: State, j: nat, now: real)
    requires j < |s.groups| && j < |t.groups| && t.groups[j] == s.groups[j] && t.health == s.health
    requires CameToRest(s, j, now)
    ensures CameToRest(t, j, now)
  {
  }

  // ---------------------------------------------------------------------------
  // Every step that frees a slot, registers, raises or recovers
  // ---------------------------------------------------------------------------

  /** A probe or request outcome that brings the model back. */
  ghost predicate Recovers(s: State, key: string) {
    key in s.health && s.health[key].unhealthy
  }

  /** The step must look after the waiters of group `g`. */
  ghost predicate Wakes(s: State, t: Timed, g: nat) {
    match t.step
    case Ask(q) => !s.stopped && !q.aborted && g == GroupOf(s, q.group)
    case GiveBack(h, no) => g == h < |s.groups| && no in ActiveNos(s.groups[h].activeEntries)
    case Raise(key, rank) =>
      g < |s.groups|
      && Raises(s.groups[g].queue, key, if key in s.sticky && s.sticky[key] >= rank then s.sticky[key] else rank)
    case Settled(r) =>
      g < |WithGroup(s, r.group).groups| && r.cls.None? && r.modelKey.Some? && Recovers(s, r.modelKey.value)
    case ProbeEnd(name, ok, _) => g < |s.groups| && ok && name in s.probing && !s.stopped && Recovers(s, name)
    case PumpTimer(h) => g == h < |s.groups|
    case _ => false
  }

  /** A slot given back wakes the waiters of its group. */
  lemma GiveBackRests(s: State, g: nat, no: nat, now: real)
    requires g < |s.groups| && no in ActiveNos(s.groups[g].activeEntries)
    ensures var r := Release(s, g, no, now);
      g < |r.groups| && CameToRest(r, g, now) && AtRest(r.health, r.groups[g], now)
  {
    hide Pump, AtRest;
    var i := IndexOf(ActiveNos(s.groups[g].activeEntries), no).value;
    var a, t := s.groups[g].activeEntries[i], FreeSlot(s, g, i);
    var u := if a.probe && Keyed(a.modelKey) then SettleStaleProbe(t, a.modelKey.value, now) else t;
    PumpRests(u, g, now);
    PumpCame(u, g, now);
  }

  /** A request that is registered waits only if nobody of its group can be admitted. */
  lemma AskRests(s: State, q: Request, now: real)
    requires !s.stopped && !q.aborted
    ensures var r, g := Acquire(s, q, now), GroupOf(s, q.group);
      g < |r.groups| && CameToRest(r, g, now) && AtRest(r.health, r.groups[g], now)
  {
    hide Pump, AtRest, GroupIndex;
    var t := WithGroup(s, q.group);
    var u := if Keyed(q.modelKey) && q.probeMax.Some?
             then t.(probeMaxOverrides := t.probeMaxOverrides[q.modelKey.value := q.probeMax.value])
             else t;
    var v := Enqueue(u, GroupOf(s, q.group), EntryFor(s, q));
    PumpRests(v, GroupOf(s, q.group), now);
    PumpCame(v, GroupOf(s, q.group), now);
  }

  lemma RecoveryCame(cfg: Tuning, s: State, key: string, status: Option<nat>, now: real, g: nat)
    requires Recovers(s, key) && g < |s.groups|
    ensures var r := NoteModelOutcome(cfg, s, key, None, status, now); g < |r.groups| && CameToRest(r, g, now)
  {
    hide CameToRest;
    var h := s.health[key].(failures := 0, probeInFlight := false);
    PumpFromCame(SetHealth(s, key, h.(unhealthy := false, nextProbeAt := 0.0, probeDelay := cfg.probeBase)), 0, now, g);
  }

  lemma SettledCame(cfg: Tuning, s: State, r: Report, now: real, g: nat)
    requires g < |WithGroup(s, r.group).groups| && r.cls.None? && r.modelKey.Some? && Recovers(s, r.modelKey.value)
    ensures var u := NoteOutcome(cfg, s, r, now); g < |u.groups| && CameToRest(u, g, now)
  {
    hide CameToRest, NoteModelOutcome, Throttled, GroupIndex;
    var t, h := WithGroup(s, r.group), GroupOf(s, r.group);
    var group := if r.status == Some(429) || r.status == Some(503)
                 then Throttled(t.groups[h], r.retryAfter, r.jitter, now)
                 else t.groups[h].(throttles := 0);
    RecoveryCame(cfg, t.(groups := t.groups[h := group]), r.modelKey.value, r.status, now, g);
  }

  lemma RaiseCame(s: State, key: string, rank: nat, now: real, g: nat)
    requires Wakes(s, Timed(Raise(key, rank), now), g)
    ensures var r := Escalate(s, key, rank, now); g < |r.groups| && CameToRest(r, g, now)
  {
    var pinned := if key in s.sticky && s.sticky[key] >= rank then s.sticky[key] else rank;
    EscalateCame(s.(sticky := s.sticky[key := pinned]), 0, key, pinned, now, g);
  }

  /**
   * After a slot is given back, a request registers, an escalation raises a waiter, a model recovers or a backoff
   * ends, the groups concerned have come to rest: whoever still waits could not have been admitted then.
   */
  lemma StepsComeToRest(cfg: Tuning, s: State, t: Timed, g: nat)
    requires Wakes(s, t, g)
    ensures var r := Take(cfg, s, t); g < |r.groups| && CameToRest(r, g, t.now)
  {
    hide CameToRest, AtRest, Acquire, Release, Escalate, NoteOutcome, NoteModelOutcome, Pump;
    match t.step
    case Ask(q) => AskRests(s, q, t.now);
    case GiveBack(h, no) => GiveBackRests(s, h, no, t.now);
    case Raise(key, rank) => RaiseCame(s, key, rank, t.now, g);
    case Settled(r) => SettledCame(cfg, s, r, t.now, g);
    case ProbeEnd(name, ok, status) =>
      RecoveryCame(cfg, s.(probing := s.probing - multiset{name}), name, None, t.now, g);
    case PumpTimer(h) => PumpCame(s, h, t.now);
    case _ =>
  }

  // ---------------------------------------------------------------------------
  // Staying at rest
  // ---------------------------------------------------------------------------

  /** Every share of the queue is asked for under one fraction. */
  ghost predicate OneFraction(queue: seq<Entry>) {
    forall i, j | 0 <= i < |queue| && 0 <= j < |queue| && queue[i].share.Some? && queue[j].share.Some?
      && queue[i].share.value.name == queue[j].share.value.name ::
      queue[i].share == queue[j].share
  }

  lemma FewerAdmissible(a: map<string, Health>, b: map<string, Health>, key: Option<string>, now: real)
    requires MoreFlags(a, b) && ModelAdmissible(b, key, now)
    ensures ModelAdmissible(a, key, now)
  {
  }

  lemma AskedByAll(health: map<string, Health>, queue: seq<Entry>, e: Entry, now: real)
    requires OneFraction(queue) && e in queue && e.share.Some? && ModelAdmissible(health, e.modelKey, now)
    ensures AskedFraction(health, queue, e.share.value.name, now) == Some(e.share.value.fraction)
  {
    var name := e.share.value.name;
    AskedSomewhere(health, queue, name, now);
    var k :| 0 <= k < |queue| && queue[k] == e;
    assert AsksFor(health, queue[k], name, now);
    var asked := AskedFraction(health, queue, name, now);
    var i :| 0 <= i < |queue| && queue[i].share == Some(SlotShare(name, asked.value));
    assert queue[i].share == queue[k].share;
  }

  /** The share the waiter asks for had no room, under the fraction it was read off, and has room now. */
  ghost predicate Opened(a: map<string, Health>, b: map<string, Health>, g: Group, e: Entry, now: real) {
    && e.share.Some? && ModelAdmissible(b, e.modelKey, now)
    && ShareFull(a, g, g.queue, e.share.value.name, now) && !ShareFull(b, g, g.queue, e.share.value.name, now)
  }

  /** A group that came to rest with a slot free stays at rest exactly while no share opens to an admissible waiter. */
  lemma RestExactlyWhen(a: map<string, Health>, b: map<string, Health>, g: Group, now: real)
    requires MoreFlags(a, b) && AtRest(a, g, now)
    requires g.queue != [] && g.active < g.maxInFlight && g.backoffUntil <= now
    ensures AtRest(b, g, now) <==> forall e | e in g.queue :: !Opened(a, b, g, e, now)
  {
    hide MoreFlags, ModelAdmissible, ShareFull;
    forall j | 0 <= j < |g.queue| ensures Eligible(b, g, g.queue[j], now) <==> Opened(a, b, g, g.queue[j], now) {
      if Eligible(b, g, g.queue[j], now) { FewerAdmissible(a, b, g.queue[j].modelKey, now); }
      assert !Eligible(a, g, g.queue[j], now);
    }
  }

  /** With one fraction a share, setting flags makes nobody eligible. */
  lemma FlagsKeepRest(a: map<string, Health>, b: map<string, Health>, g: Group, now: real)
    requires MoreFlags(a, b) && AtRest(a, g, now) && OneFraction(g.queue)
    ensures AtRest(b, g, now)
  {
    hide MoreFlags, OneFraction, ModelAdmissible;
    forall j | 0 <= j < |g.queue| && Eligible(b, g, g.queue[j], now)
      ensures Eligible(a, g, g.queue[j], now)
    {
      var e := g.queue[j];
      FewerAdmissible(a, b, e.modelKey, now);
      if e.share.Some? {
        AskedByAll(a, g.queue, e, now);
        AskedByAll(b, g.queue, e, now);
      }
    }
  }

  /**
   * And they are at rest when the step is over: always the group of a request or of a slot given back, and every
   * group whose waiters ask for each share under one fraction.
   */
  lemma StepsRest(cfg: Tuning, s: State, t: Timed, g: nat)
    requires Wakes(s, t, g)
    ensures var r := Take(cfg, s, t);
      && g < |r.groups|
      && (t.step.Ask? || t.step.GiveBack? || t.step.PumpTimer? || OneFraction(r.groups[g].queue) ==>
            AtRest(r.health, r.groups[g], t.now))
  {
    hide AtRest, MoreFlags, OneFraction, Acquire, Release, Escalate, NoteOutcome, NoteModelOutcome, Pump;
    var r := Take(cfg, s, t);
    StepsComeToRest(cfg, s, t, g);
    var health :| MoreFlags(health, r.health) && AtRest(health, r.groups[g], t.now);
    if OneFraction(r.groups[g].queue) { FlagsKeepRest(health, r.health, r.groups[g], t.now); }
    match t.step
    case Ask(q) => AskRests(s, q, t.now);
    case GiveBack(h, no) => GiveBackRests(s, h, no, t.now);
    case PumpTimer(h) => PumpRests(s, h, t.now);
    case _ =>
  }

  // A group that is not at rest when the step is over.

  const FIRST: Entry := Entry(1, 1, None, Some("m"), Some(SlotShare("x", 0.1)))
  const SECOND: Entry := Entry(1, 2, None, None, Some(SlotShare("x", 1.0)))
  const THIRD: Entry := Entry(1, 3, None, Some("m"), None)

  const SHARED: Group :=
    FreshGroup("a").(maxInFlight := 10, active := 1, activeEntries := [Active(0, Some("x"), None, false)],
                     queue := [FIRST, SECOND])

  const PLAIN: Group := FreshGroup("b").(queue := [THIRD])

  const DOWN: Health := Health(true, 1, false, 0.0, 10.0)

  function Tied(health: map<string, Health>, groups: seq<Group>): State {
    Fresh(groups).(health := health)
  }

  lemma ShareOf(health: map<string, Health>, now: real)
    ensures ModelAdmissible(health, FIRST.modelKey, now) ==>
      AskedFraction(health, SHARED.queue, "x", now) == Some(0.1)
    ensures !ModelAdmissible(health, FIRST.modelKey, now) ==>
      AskedFraction(health, SHARED.queue, "x", now) == Some(1.0)
  {
    var one := SHARED.queue[..1];
    assert SHARED.queue[..|SHARED.queue| - 1] == one && one[..|one| - 1] == [];
    assert AskedFraction(health, [], "x", now) == None;
    assert AskedFraction(health, one, "x", now) ==
      if ModelAdmissible(health, FIRST.modelKey, now) then Some(0.1) else None;
  }

  lemma OneHeld()
    ensures Held(SHARED.activeEntries, "x") == 1 && ShareCap(0.1, 10) == 1 && ShareCap(1.0, 10) == 10
  {
    assert SHARED.activeEntries[..0] == [];
    assert 10 as real * 0.1 == 1.0 && 10 as real * 1.0 == 10.0;
  }

  /**
   * Two waiters ask for one share under different fractions. When a model recovers, the small fraction of the first
   * keeps the second out; then the pump of another group takes the first one's probe, and the second is left eligible.
   */
  lemma TwoFractionsStall(cfg: Tuning)
    ensures var s := Tied(map["m" := DOWN, "r" := DOWN], [SHARED, PLAIN]);
      var t := Timed(ProbeEnd("r", true, None), 100.0);
      var u := s.(probing := multiset{"r"});
      && Wakes(u, t, 0)
      && var r := Take(cfg, u, t);
      |r.groups| == 2 && !AtRest(r.health, r.groups[0], t.now)
  {
    var now := 100.0;
    var s := Tied(map["m" := DOWN, "r" := DOWN], [SHARED, PLAIN]);
    var well := DOWN.(failures := 0, unhealthy := false, nextProbeAt := 0.0, probeDelay := cfg.probeBase);
    var v := SetHealth(s, "r", well);
    assert "m"[0] != "r"[0];
    assert v.health["m"] == DOWN;
    ShareOf(v.health, now);
    OneHeld();
    assert !Eligible(v.health, SHARED, SHARED.queue[0], now) && !Eligible(v.health, SHARED, SHARED.queue[1], now);
    BestIsFirst(v.health, SHARED, 2, now);
    assert Pump(v, 0, now) == v;
    BestIsFirst(v.health, PLAIN, 1, now);
    assert Eligible(v.health, PLAIN, PLAIN.queue[0], now);
    assert NextWaiter(v.health, PLAIN, now) == Some(0);
    var w := Admit(v, 1, 0, now);
    assert w.groups[1].queue == [];
    assert Pump(v, 1, now) == Pump(w, 1, now) == w;
    assert PumpFrom(v, 2, now) == v && PumpFrom(w, 2, now) == w;
    assert PumpFrom(v, 0, now) == PumpFrom(v, 1, now) == PumpFrom(w, 2, now);
    assert w.groups[0] == SHARED && w.health["m"].probeInFlight;
    ShareOf(w.health, now);
    assert Eligible(w.health, SHARED, SHARED.queue[1], now);
  }

  // ---------------------------------------------------------------------------
  // Leaving the queue otherwise
  // ---------------------------------------------------------------------------

  /** A waiter that gives up is out of the queue and counted as rejected; the others stay, in order. */
  lemma AbortLeaves(s: State, g: nat, i: nat)
    requires g < |s.groups| && i < |s.groups[g].queue| && Accounted(s)
    ensures var no, queue := s.groups[g].queue[i].no, s.groups[g].queue;
      var r := AbortWaiter(s, g, no);
      && r.groups[g].queue == queue[..i] + queue[i + 1..]
      && no !in QueueNos(r.groups[g].queue)
      && r.rejected == s.rejected + multiset{no}
      && r.groups[g].activeEntries == s.groups[g].activeEntries
  {
    var no, queue := s.groups[g].queue[i].no, s.groups[g].queue;
    AccountedIsDistinct(s, g);
    assert QueueNos(queue)[i] == no;
    var k := IndexOf(QueueNos(queue), no).value;
    assert QueueNos(queue)[k] == no && k == i;
  }

  ghost predicate Drained(s: State) {
    s.stopped && forall g | 0 <= g < |s.groups| :: s.groups[g].queue == []
  }

  lemma {:induction false} DrainEmpties(s: State, k: nat)
    requires k <= |s.groups| && forall g | 0 <= g < k :: s.groups[g].queue == []
    ensures var r := DrainFrom(s, k);
      && |r.groups| == |s.groups| && r.stopped == s.stopped && r.admissions == s.admissions
      && forall g | 0 <= g < |r.groups| :: r.groups[g].queue == []
    decreases |s.groups| - k
  {
    if k < |s.groups| {
      DrainEmpties(s.(groups := s.groups[k := s.groups[k].(queue := [])],
                      rejected := s.rejected + multiset(QueueNos(s.groups[k].queue))), k + 1);
    }
  }

  lemma {:induction false} NothingToPump(s: State, k: nat, now: real)
    requires k <= |s.groups| && Drained(s)
    ensures PumpFrom(s, k, now) == s && forall g | 0 <= g < |s.groups| :: Pump(s, g, now) == s
    decreases |s.groups| - k
  {
    if k < |s.groups| { NothingToPump(s, k + 1, now); }
  }

  /** What a step of a drained scheduler may change. */
  ghost predicate StaysDrained(s: State, r: State) {
    Drained(r) && r.admissions == s.admissions
  }

  lemma DrainedAsk(s: State, q: Request, now: real)
    requires Drained(s)
    ensures StaysDrained(s, Acquire(s, q, now))
  {
    hide GroupIndex;
  }

  lemma DrainedRelease(s: State, g: nat, no: nat, now: real)
    requires Drained(s) && g < |s.groups|
    ensures StaysDrained(s, Release(s, g, no, now))
  {
    var i := IndexOf(ActiveNos(s.groups[g].activeEntries), no);
    if i.Some? {
      var a, t := s.groups[g].activeEntries[i.value], FreeSlot(s, g, i.value);
      var u := if a.probe && Keyed(a.modelKey) then SettleStaleProbe(t, a.modelKey.value, now) else t;
      NothingToPump(u, 0, now);
    }
  }

  lemma {:induction false} DrainedRaise(s: State, k: nat, key: string, rank: nat, now: real)
    requires Drained(s) && k <= |s.groups|
    ensures EscalateFrom(s, k, key, rank, now) == s
    decreases |s.groups| - k
  {
    if k < |s.groups| {
      assert Raised(s.groups[k].queue, key, rank) == s.groups[k].queue;
      DrainedRaise(s, k + 1, key, rank, now);
    }
  }

  lemma DrainedNoteModel(
    cfg: Tuning, s: State, key: string, cls: Option<FailureClass>, status: Option<nat>, now: real)
    requires Drained(s)
    ensures StaysDrained(s, NoteModelOutcome(cfg, s, key, cls, status, now))
  {
    if cls.None? && key in s.health && s.health[key].unhealthy {
      var h := s.health[key].(failures := 0, probeInFlight := false);
      NothingToPump(SetHealth(s, key, h.(unhealthy := false, nextProbeAt := 0.0, probeDelay := cfg.probeBase)), 0, now);
    } else {
      hide NoteModelOutcome;
      OutcomeHealthOnly(cfg, s, key, cls, status, now);
    }
  }

  lemma DrainedNote(cfg: Tuning, s: State, r: Report, now: real)
    requires Drained(s)
    ensures StaysDrained(s, NoteOutcome(cfg, s, r, now))
  {
    hide NoteModelOutcome, GroupIndex;
    var t, g := WithGroup(s, r.group), GroupOf(s, r.group);
    var group := if r.status == Some(429) || r.status == Some(503)
                 then Throttled(t.groups[g], r.retryAfter, r.jitter, now)
                 else t.groups[g].(throttles := 0);
    var u := t.(groups := t.groups[g := group]);
    if r.modelKey.Some? { DrainedNoteModel(cfg, u, r.modelKey.value, r.cls, r.status, now); }
  }

  lemma DrainedStep(cfg: Tuning, s: State, t: Timed)
    requires Drained(s)
    ensures StaysDrained(s, Take(cfg, s, t))
  {
    hide Acquire, Release, NoteOutcome, NoteModelOutcome;
    match t.step
    case Ask(q) => DrainedAsk(s, q, t.now);
    case GiveBack(g, no) => if g < |s.groups| { DrainedRelease(s, g, no, t.now); }
    case Raise(key, rank) =>
      var pinned := if key in s.sticky && s.sticky[key] >= rank then s.sticky[key] else rank;
      DrainedRaise(s.(sticky := s.sticky[key := pinned]), 0, key, pinned, t.now);
    case Settled(r) => DrainedNote(cfg, s, r, t.now);
    case ProbeEnd(name, ok, status) => assert Drained(s.(probing := s.probing - multiset{name}));
    case PumpTimer(g) => NothingToPump(s, 0, t.now);
    case Shutdown => DrainEmpties(s.(stopped := true, probeTimers := {}), 0);
    case _ =>
  }

  /** A stopped scheduler has no waiter left, and never admits anyone again. */
  lemma {:induction false} StopIsFinal(cfg: Tuning, s: State, steps: seq<Timed>)
    ensures StaysDrained(s, After(cfg, Stop(s), steps))
  {
    hide Take;
    if steps == [] {
      DrainEmpties(s.(stopped := true, probeTimers := {}), 0);
    } else {
      var before := After(cfg, Stop(s), steps[..|steps| - 1]);
      StopIsFinal(cfg, s, steps[..|steps| - 1]);
      DrainedStep(cfg, before, steps[|steps| - 1]);
    }
  }
}
