/** The local request scheduler: a priority admission gate per rate-limit group, and a circuit breaker per model. */
module Scheduler {
  import opened Transcript

  datatype Tuning = Tuning(unhealthyThreshold: nat, probeBase: real, probeMax: real)

  datatype FailureClass = Environmental | Content | Stopped | Refusal

  datatype SlotShare = SlotShare(name: string, fraction: real)

  /** A waiting request; `no` is its registration number. */
  datatype Entry = Entry(rank: nat, no: nat, key: Option<string>, modelKey: Option<string>, share: Option<SlotShare>)

  /** An admitted request; `probe`: it was admitted as the half-open probe of its model. */
  datatype Active = Active(no: nat, share: Option<string>, modelKey: Option<string>, probe: bool)

  datatype Group = Group(
    name: string,
    maxInFlight: nat,
    backoffBase: real,
    backoffMax: real,
    active: nat,
    activeEntries: seq<Active>,
    queue: seq<Entry>,
    backoffUntil: real,
    throttles: nat)

  datatype Health = Health(unhealthy: bool, failures: nat, probeInFlight: bool, nextProbeAt: real, probeDelay: real)

  /** An admission as it was decided: waiter `waiter` of a group, in the group's state of that moment. */
  datatype Admission = Admission(health: map<string, Health>, group: Group, waiter: nat, now: real)

  /** `released` and `rejected` are the requests that left, one way or the other; `admissions` is the past. */
  datatype State = State(
    groups: seq<Group>,  // in the order they were declared
    health: map<string, Health>,
    probeMaxOverrides: map<string, real>,
    probers: set<string>,
    probeTimers: set<string>,
    probing: multiset<string>,  // background probes under way
    sticky: map<string, nat>,
    seqCounter: nat,
    stopped: bool,
    released: multiset<nat>,
    rejected: multiset<nat>,
    admissions: seq<Admission>)

  /** What a request asks for; `aborted`: its signal had fired before it asked. */
  datatype Request = Request(
    group: string,
    rank: nat,
    key: Option<string>,
    modelKey: Option<string>,
    probeMax: Option<real>,
    share: Option<SlotShare>,
    aborted: bool)

  const DEFAULT_MAX_IN_FLIGHT: nat := 2
  const DEFAULT_BACKOFF_BASE: real := 1000.0
  const DEFAULT_BACKOFF_MAX: real := 60000.0

  function Least(a: real, b: real): real {
    if a <= b then a else b
  }

  function Most(a: real, b: real): real {
    if a >= b then a else b
  }

  function Pow2(n: nat): (r: real)
    ensures r >= 1.0
  {
    if n == 0 then 1.0 else 2.0 * Pow2(n - 1)
  }

  /** The slots a share may hold. */
  function ShareCap(fraction: real, maxInFlight: nat): (r: nat)
    ensures r >= 1
  {
    var slots := (maxInFlight as real * Least(1.0, Most(0.0, fraction))).Floor;
    if slots >= 1 then slots else 1
  }

  function RemoveAt<T>(s: seq<T>, i: nat): (r: seq<T>)
    requires i < |s|
    ensures |r| == |s| - 1
  {
    s[..i] + s[i + 1..]
  }

  // ---------------------------------------------------------------------------
  // Admission
  // ---------------------------------------------------------------------------

  /** An empty model key gates nothing. */
  predicate Keyed(key: Option<string>) {
    key.Some? && key.value != ""
  }

  predicate ModelAdmissible(health: map<string, Health>, key: Option<string>, now: real) {
    Keyed(key) && key.value in health && health[key.value].unhealthy ==>
      !health[key.value].probeInFlight && now >= health[key.value].nextProbeAt
  }

  function Held(active: seq<Active>, share: string): (r: nat)
    ensures r <= |active|
  {
    if active == [] then 0
    else Held(active[..|active| - 1], share) + (if active[|active| - 1].share == Some(share) then 1 else 0)
  }

  /** The waiters that count when the share is looked up: admissible, and of that share. */
  predicate AsksFor(health: map<string, Health>, e: Entry, share: string, now: real) {
    ModelAdmissible(health, e.modelKey, now) && e.share.Some? && e.share.value.name == share
  }

  /** The fraction the first such waiter carries; it decides for the whole scan. */
  function AskedFraction(health: map<string, Health>, queue: seq<Entry>, share: string, now: real): Option<real> {
    if queue == [] then None else
      var before := AskedFraction(health, queue[..|queue| - 1], share, now);
      var e := queue[|queue| - 1];
      if before.Some? then before else if AsksFor(health, e, share, now) then Some(e.share.value.fraction) else None
  }

  predicate ShareFull(health: map<string, Health>, g: Group, queue: seq<Entry>, share: string, now: real) {
    var asked := AskedFraction(health, queue, share, now);
    asked.Some? && Held(g.activeEntries, share) >= ShareCap(asked.value, g.maxInFlight)
  }

  /** A waiter that could be admitted now. */
  predicate Eligible(health: map<string, Health>, g: Group, e: Entry, now: real) {
    && ModelAdmissible(health, e.modelKey, now)
    && (e.share.Some? ==> !ShareFull(health, g, g.queue, e.share.value.name, now))
  }

  /** Higher class first, then first come first served. */
  predicate Before(a: Entry, b: Entry) {
    a.rank > b.rank || (a.rank == b.rank && a.no < b.no)
  }

  /** The waiter the scan settles on among the first `n`. */
  function Best(health: map<string, Health>, g: Group, n: nat, now: real): (r: Option<nat>)
    requires n <= |g.queue|
    ensures r.Some? ==> r.value < n
  {
    if n == 0 then None else
      var best := Best(health, g, n - 1, now);
      if !Eligible(health, g, g.queue[n - 1], now) then best
      else if best.None? || Before(g.queue[n - 1], g.queue[best.value]) then Some(n - 1)
      else best
  }

  function NextWaiter(health: map<string, Health>, g: Group, now: real): (r: Option<nat>)
    ensures r.Some? ==> r.value < |g.queue|
  {
    if g.queue == [] || g.active >= g.maxInFlight || g.backoffUntil > now then None
    else Best(health, g, |g.queue|, now)
  }

  predicate BecomesProbe(health: map<string, Health>, e: Entry) {
    Keyed(e.modelKey) && e.modelKey.value in health && health[e.modelKey.value].unhealthy
  }

  /** Waiter `i` of group `g` takes a slot. */
  function Admit(s: State, g: nat, i: nat, now: real): State
    requires g < |s.groups| && i < |s.groups[g].queue|
  {
    var group := s.groups[g];
    var e := group.queue[i];
    var probe := BecomesProbe(s.health, e);
    var share := if e.share.Some? then Some(e.share.value.name) else None;
    var admitted := group.(
      queue := RemoveAt(group.queue, i),
      active := group.active + 1,
      activeEntries := group.activeEntries + [Active(e.no, share, e.modelKey, probe)]);
    s.(groups := s.groups[g := admitted],
       health := if probe then s.health[e.modelKey.value := s.health[e.modelKey.value].(probeInFlight := true)]
                 else s.health,
       admissions := s.admissions + [Admission(s.health, group, i, now)])
  }

  function Pump(s: State, g: nat, now: real): (r: State)
    requires g < |s.groups|
    ensures |r.groups| == |s.groups|
    decreases |s.groups[g].queue|
  {
    var i := NextWaiter(s.health, s.groups[g], now);
    if i.None? then s else Pump(Admit(s, g, i.value, now), g, now)
  }

  /** Every group from `k` on. */
  function PumpFrom(s: State, k: nat, now: real): (r: State)
    requires k <= |s.groups|
    ensures |r.groups| == |s.groups|
    decreases |s.groups| - k
  {
    if k == |s.groups| then s else PumpFrom(Pump(s, k, now), k + 1, now)
  }

  // ---------------------------------------------------------------------------
  // Requests
  // ---------------------------------------------------------------------------

  function FreshGroup(name: string): Group {
    Group(name, DEFAULT_MAX_IN_FLIGHT, DEFAULT_BACKOFF_BASE, DEFAULT_BACKOFF_MAX, 0, [], [], 0.0, 0)
  }

  /** The last place of `x`. */
  function IndexOf<T(==)>(s: seq<T>, x: T): (r: Option<nat>)
    ensures r.Some? ==> r.value < |s| && s[r.value] == x
    ensures r.None? ==> x !in s
  {
    if s == [] then None
    else if s[|s| - 1] == x then Some(|s| - 1)
    else IndexOf(s[..|s| - 1], x)
  }

  function GroupNames(groups: seq<Group>): (r: seq<string>)
    ensures |r| == |groups| && forall k :: 0 <= k < |r| ==> r[k] == groups[k].name
  {
    seq(|groups|, k requires 0 <= k < |groups| => groups[k].name)
  }

  function GroupIndex(groups: seq<Group>, name: string): (r: Option<nat>)
    ensures r.Some? ==> r.value < |groups| && groups[r.value].name == name
    ensures r.None? ==> forall k :: 0 <= k < |groups| ==> groups[k].name != name
  {
    IndexOf(GroupNames(groups), name)
  }

  /** An unknown group name gets a group of its own. */
  function WithGroup(s: State, name: string): (r: State)
    ensures GroupIndex(r.groups, name).Some?
  {
    if GroupIndex(s.groups, name).Some? then s else s.(groups := s.groups + [FreshGroup(name)])
  }

  function GroupOf(s: State, name: string): (r: nat)
    ensures r < |WithGroup(s, name).groups|
  {
    GroupIndex(WithGroup(s, name).groups, name).value
  }

  function EntryFor(s: State, q: Request): Entry {
    var pinned := if Keyed(q.key) && q.key.value in s.sticky then s.sticky[q.key.value] else 0;
    Entry(if pinned > q.rank then pinned else q.rank, s.seqCounter, q.key, q.modelKey, q.share)
  }

  function Acquire(s: State, q: Request, now: real): State {
    var t := WithGroup(s, q.group);
    var u := if Keyed(q.modelKey) && q.probeMax.Some?
             then t.(probeMaxOverrides := t.probeMaxOverrides[q.modelKey.value := q.probeMax.value])
             else t;
    if u.stopped || q.aborted then u else
      var g := GroupOf(s, q.group);
      Pump(Enqueue(u, g, EntryFor(s, q)), g, now)
  }

  function Enqueue(s: State, g: nat, e: Entry): (r: State)
    requires g < |s.groups|
    ensures |r.groups| == |s.groups|
  {
    s.(groups := s.groups[g := s.groups[g].(queue := s.groups[g].queue + [e])], seqCounter := s.seqCounter + 1)
  }

  function QueueNos(queue: seq<Entry>): (r: seq<nat>)
    ensures |r| == |queue| && forall i :: 0 <= i < |r| ==> r[i] == queue[i].no
  {
    seq(|queue|, i requires 0 <= i < |queue| => queue[i].no)
  }

  function ActiveNos(active: seq<Active>): (r: seq<nat>)
    ensures |r| == |active| && forall i :: 0 <= i < |r| ==> r[i] == active[i].no
  {
    seq(|active|, i requires 0 <= i < |active| => active[i].no)
  }

  /** A waiter's signal fires: it leaves the queue, if it is still there. */
  function AbortWaiter(s: State, g: nat, no: nat): State
    requires g < |s.groups|
  {
    var i := IndexOf(QueueNos(s.groups[g].queue), no);
    if i.None? then s else
      s.(groups := s.groups[g := s.groups[g].(queue := RemoveAt(s.groups[g].queue, i.value))],
         rejected := s.rejected + multiset{no})
  }

  function FreeSlot(s: State, g: nat, i: nat): (r: State)
    requires g < |s.groups| && i < |s.groups[g].activeEntries|
    ensures |r.groups| == |s.groups|
  {
    var group := s.groups[g];
    s.(groups := s.groups[g := group.(active := if group.active > 0 then group.active - 1 else 0,
                                      activeEntries := RemoveAt(group.activeEntries, i))],
       released := s.released + multiset{group.activeEntries[i].no})
  }

  /** A slot is given back; a second release of it does nothing. */
  function Release(s: State, g: nat, no: nat, now: real): State
    requires g < |s.groups|
  {
    var i := IndexOf(ActiveNos(s.groups[g].activeEntries), no);
    if i.None? then s else
      var a := s.groups[g].activeEntries[i.value];
      var t := FreeSlot(s, g, i.value);
      Pump(if a.probe && Keyed(a.modelKey) then SettleStaleProbe(t, a.modelKey.value, now) else t, g, now)
  }

  function Raised(queue: seq<Entry>, key: string, rank: nat): (r: seq<Entry>)
    ensures |r| == |queue|
  {
    seq(|queue|, i requires 0 <= i < |queue| =>
      if queue[i].key == Some(key) && queue[i].rank < rank then queue[i].(rank := rank) else queue[i])
  }

  /** Raise the waiters under `key` group by group, pumping each group that changed. */
  function EscalateFrom(s: State, k: nat, key: string, rank: nat, now: real): State
    requires k <= |s.groups|
    decreases |s.groups| - k
  {
    if k == |s.groups| then s else
      var raised := Raised(s.groups[k].queue, key, rank);
      var t := s.(groups := s.groups[k := s.groups[k].(queue := raised)]);
      EscalateFrom(if raised != s.groups[k].queue then Pump(t, k, now) else s, k + 1, key, rank, now)
  }

  function Escalate(s: State, key: string, rank: nat, now: real): State {
    var pinned := if key in s.sticky && s.sticky[key] >= rank then s.sticky[key] else rank;
    EscalateFrom(s.(sticky := s.sticky[key := pinned]), 0, key, pinned, now)
  }

  function ClearEscalation(s: State, key: string): State {
    s.(sticky := s.sticky - {key})
  }

  // ---------------------------------------------------------------------------
  // Health
  // ---------------------------------------------------------------------------

  function ProbeMax(cfg: Tuning, s: State, key: string): real {
    if key in s.probeMaxOverrides then s.probeMaxOverrides[key] else cfg.probeMax
  }

  function ArmBackgroundProbe(s: State, key: string): State {
    if s.stopped || key !in s.health || !s.health[key].unhealthy || key !in s.probers then s
    else s.(probeTimers := s.probeTimers + {key})
  }

  function SetHealth(s: State, key: string, h: Health): State {
    s.(health := s.health[key := h])
  }

  /** The next probe window, at the current delay. */
  function RescheduleProbe(s: State, key: string, now: real): State
    requires key in s.health
  {
    var h := s.health[key];
    ArmBackgroundProbe(SetHealth(s, key, h.(nextProbeAt := now + h.probeDelay)), key)
  }

  /** A slot admitted as a probe settles it when it is released, whatever was or was not reported. */
  function SettleStaleProbe(s: State, key: string, now: real): (r: State)
    ensures r.groups == s.groups
  {
    if key !in s.health || !s.health[key].unhealthy || !s.health[key].probeInFlight then s
    else RescheduleProbe(SetHealth(s, key, s.health[key].(probeInFlight := false)), key, now)
  }

  function Recover(cfg: Tuning, s: State, key: string, now: real): State {
    if key !in s.health then s else
      var h := s.health[key].(failures := 0, probeInFlight := false);
      if !h.unhealthy then SetHealth(s, key, h)
      else PumpFrom(SetHealth(s, key, h.(unhealthy := false, nextProbeAt := 0.0, probeDelay := cfg.probeBase)), 0, now)
  }

  function Fail(cfg: Tuning, s: State, key: string, now: real): State {
    var was := if key in s.health then s.health[key] else Health(false, 0, false, 0.0, cfg.probeBase);
    var h := was.(failures := was.failures + 1);
    if h.unhealthy then
      var delay := Least(h.probeDelay * 2.0, ProbeMax(cfg, s, key));
      ArmBackgroundProbe(
        SetHealth(s, key, h.(probeInFlight := false, probeDelay := delay, nextProbeAt := now + delay)), key)
    else if h.failures >= cfg.unhealthyThreshold then
      ArmBackgroundProbe(
        SetHealth(s, key, h.(unhealthy := true, probeInFlight := false, probeDelay := cfg.probeBase,
                             nextProbeAt := now + cfg.probeBase)), key)
    else SetHealth(s, key, h)
  }

  /** The outcome of a request on its model: `None` is a clean success. */
  function NoteModelOutcome(
    cfg: Tuning, s: State, key: string, cls: Option<FailureClass>, status: Option<nat>, now: real): State
  {
    var flagged := key in s.health && s.health[key].probeInFlight;
    var cleared := if flagged then SetHealth(s, key, s.health[key].(probeInFlight := false)) else s;
    if cls.None? then Recover(cfg, s, key, now)
    else if !cls.value.Environmental? then if flagged then ArmBackgroundProbe(cleared, key) else s
    else if status == Some(429) then if flagged then RescheduleProbe(cleared, key, now) else s
    else Fail(cfg, s, key, now)
  }

  /** Nothing but model health and probe timers differs. */
  ghost predicate HealthOnly(s: State, r: State) {
    r == s.(health := r.health, probeTimers := r.probeTimers)
  }

  lemma ArmHealthOnly(s: State, key: string, h: Health)
    ensures HealthOnly(s, SetHealth(s, key, h))
    ensures HealthOnly(s, ArmBackgroundProbe(s, key))
    ensures HealthOnly(s, ArmBackgroundProbe(SetHealth(s, key, h), key))
  {
  }

  lemma FailHealthOnly(cfg: Tuning, s: State, key: string, now: real)
    ensures HealthOnly(s, Fail(cfg, s, key, now))
  {
    hide ArmBackgroundProbe, SetHealth, Least, ProbeMax, HealthOnly;
    var was := if key in s.health then s.health[key] else Health(false, 0, false, 0.0, cfg.probeBase);
    var h := was.(failures := was.failures + 1);
    var delay := Least(h.probeDelay * 2.0, ProbeMax(cfg, s, key));
    ArmHealthOnly(s, key, h);
    ArmHealthOnly(s, key, h.(probeInFlight := false, probeDelay := delay, nextProbeAt := now + delay));
    ArmHealthOnly(s, key, h.(unhealthy := true, probeInFlight := false, probeDelay := cfg.probeBase,
                             nextProbeAt := now + cfg.probeBase));
  }

  /** An outcome that is no recovery changes nothing but health and timers. */
  lemma OutcomeHealthOnly(
    cfg: Tuning, s: State, key: string, cls: Option<FailureClass>, status: Option<nat>, now: real)
    requires cls.None? ==> key !in s.health || !s.health[key].unhealthy
    ensures HealthOnly(s, NoteModelOutcome(cfg, s, key, cls, status, now))
  {
    hide ArmBackgroundProbe, Fail, PumpFrom;
    FailHealthOnly(cfg, s, key, now);
    if key in s.health {
      var h := s.health[key].(probeInFlight := false);
      var cleared := SetHealth(s, key, h);
      ArmHealthOnly(cleared, key, h);
      ArmHealthOnly(cleared, key, h.(nextProbeAt := now + h.probeDelay));
    }
  }

  /** The longest wait of a group's next throttle. */
  function BackoffCeiling(g: Group): real {
    Least(g.backoffMax, g.backoffBase * Pow2(g.throttles))
  }

  /** Half the ceiling, and a random part of the other half; `jitter` is the draw, from 0 to 1. */
  function JitteredWait(ceiling: real, jitter: real): real {
    ceiling / 2.0 + jitter * (ceiling / 2.0)
  }

  function Throttled(g: Group, retryAfter: Option<real>, jitter: real, now: real): Group {
    var wait := if retryAfter.Some? then Least(retryAfter.value, g.backoffMax)
                else JitteredWait(BackoffCeiling(g), jitter);
    g.(throttles := g.throttles + 1, backoffUntil := Most(g.backoffUntil, now + wait))
  }

  datatype Report = Report(
    group: string, modelKey: Option<string>, cls: Option<FailureClass>, status: Option<nat>, retryAfter: Option<real>,
    jitter: real)

  function NoteOutcome(cfg: Tuning, s: State, r: Report, now: real): State {
    var t := WithGroup(s, r.group);
    var g := GroupOf(s, r.group);
    var group := if r.status == Some(429) || r.status == Some(503)
                 then Throttled(t.groups[g], r.retryAfter, r.jitter, now)
                 else t.groups[g].(throttles := 0);
    var u := t.(groups := t.groups[g := group]);
    if r.modelKey.None? then u else NoteModelOutcome(cfg, u, r.modelKey.value, r.cls, r.status, now)
  }

  function RegisterProber(s: State, key: string): State {
    var t := s.(probers := s.probers + {key});
    if key in t.health && t.health[key].unhealthy && key !in t.probeTimers then ArmBackgroundProbe(t, key) else t
  }

  /** The probe timer of a model fires. */
  function ProbeTimerFires(s: State, key: string, now: real): State {
    if key !in s.probeTimers then s else
      var t := s.(probeTimers := s.probeTimers - {key});
      if t.stopped || key !in t.health || !t.health[key].unhealthy || key !in t.probers || t.health[key].probeInFlight
      then t
      else if now < t.health[key].nextProbeAt then ArmBackgroundProbe(t, key)
      else SetHealth(t, key, t.health[key].(probeInFlight := true)).(probing := t.probing + multiset{key})
  }

  /** A background probe is answered, fails, or times out. */
  function ProbeSettles(cfg: Tuning, s: State, key: string, ok: bool, status: Option<nat>, now: real): State {
    if key !in s.probing then s else
      var t := s.(probing := s.probing - multiset{key});
      if t.stopped then t
      else if ok then NoteModelOutcome(cfg, t, key, None, None, now)
      else NoteModelOutcome(cfg, t, key, Some(Environmental), status, now)
  }

  /** Reject the waiters of every group from `k` on. */
  function DrainFrom(s: State, k: nat): State
    requires k <= |s.groups|
    decreases |s.groups| - k
  {
    if k == |s.groups| then s else
      DrainFrom(s.(groups := s.groups[k := s.groups[k].(queue := [])],
                   rejected := s.rejected + multiset(QueueNos(s.groups[k].queue))), k + 1)
  }

  function Stop(s: State): State {
    DrainFrom(s.(stopped := true, probeTimers := {}), 0)
  }

  // ---------------------------------------------------------------------------
  // Runs
  // ---------------------------------------------------------------------------

  datatype Step =
    | Ask(q: Request)
    | Abort(g: nat, no: nat)
    | GiveBack(g: nat, no: nat)
    | Raise(key: string, rank: nat)
    | ClearRaise(key: string)
    | Settled(report: Report)
    | AddProber(key: string)
    | ProbeTimer(key: string)
    | ProbeEnd(key: string, ok: bool, status: Option<nat>)
    | PumpTimer(g: nat)
    | Shutdown

  datatype Timed = Timed(step: Step, now: real)

  function Take(cfg: Tuning, s: State, t: Timed): State {
    match t.step
    case Ask(q) => Acquire(s, q, t.now)
    case Abort(g, n) => if g < |s.groups| then AbortWaiter(s, g, n) else s
    case GiveBack(g, n) => if g < |s.groups| then Release(s, g, n, t.now) else s
    case Raise(key, rank) => Escalate(s, key, rank, t.now)
    case ClearRaise(key) => ClearEscalation(s, key)
    case Settled(r) => NoteOutcome(cfg, s, r, t.now)
    case AddProber(key) => RegisterProber(s, key)
    case ProbeTimer(key) => ProbeTimerFires(s, key, t.now)
    case ProbeEnd(key, ok, status) => ProbeSettles(cfg, s, key, ok, status, t.now)
    case PumpTimer(g) => if g < |s.groups| then Pump(s, g, t.now) else s
    case Shutdown => Stop(s)
  }

  /** A fresh scheduler over the declared groups. */
  function Fresh(groups: seq<Group>): State {
    State(groups, map[], map[], {}, {}, multiset{}, map[], 0, false, multiset{}, multiset{}, [])
  }

  function After(cfg: Tuning, s: State, steps: seq<Timed>): State {
    if steps == [] then s else Take(cfg, After(cfg, s, steps[..|steps| - 1]), steps[|steps| - 1])
  }
}
