/** The attempt loop of one model request: buffering, retry, fallover, and the commit of a whole attempt. */
module RequestRetry {
  import opened Transcript
  import MF = ModelFallback

  datatype ErrorClass = Environmental | Content | Refusal | Aborted

  datatype Usage = Usage(input: nat, output: nat, cacheRead: nat, cacheWrite: nat, totalTokens: nat, cost: real)

  /** `tag`: the class a surfaced error is marked with. */
  datatype Failure = Failure(
    text: string, cls: ErrorClass, status: Option<nat>, usage: Option<Usage>, tag: Option<ErrorClass>)

  /** `truncated`: the model stopped at its output limit. */
  datatype Reply = Reply(text: string, usage: Option<Usage>, truncated: bool, withheld: bool)

  datatype StreamEvent =
    | Start
    | Delta(text: string)
    | Other(name: string)
    | Done(reply: Reply)
    | Failed(failure: Failure)

  datatype RuleDecision = Fallover | Redo | Withhold | GiveUp

  datatype SleepEnd = Slept | BudgetCut | CallerCut

  /** What one attempt meets: its stream (a thrown error ends it) and the clocks, signals and hooks around it. */
  datatype World = World(
    env: MF.Env,
    events: seq<StreamEvent>,
    tripAt: Option<nat>,  // the delta the repetition guard trips on
    partial: Failure,  // the stream's own partial message there
    callerAborted: bool,
    abortedAtStart: bool,
    neverAdmitted: bool,
    stalled: bool,  // cut by its first-token deadline
    budgetAborted: bool,
    expiredStatus: Option<nat>,  // the status read in the budget message, which quotes the failure's own
    pastDeadline: bool,
    overCost: Option<string>,  // the cost check before a retry
    reselect: bool,
    rule: Option<RuleDecision>,
    sleep: SleepEnd)

  /** `committedHook` and `abortedHook`: the usage hooks that are wired. */
  datatype Config = Config(
    members: seq<MF.Member>,  // empty: no resolver below
    groupStatuses: map<string, set<nat>>,
    preflight: Option<string>,
    refusalFallover: bool,
    committedHook: bool,
    abortedHook: bool,
    truncationHook: bool)

  datatype Billed = Reported(attempt: nat, usage: Usage) | Estimated(attempt: nat)

  datatype Ending = Pending | Delivered | Surfaced | Withheld

  datatype State = State(
    attempt: nat,
    pass: MF.Pass,
    trips: nat,
    reselects: nat,
    billed: seq<Billed>,
    out: seq<StreamEvent>,
    ending: Ending,
    fallovers: seq<string>,  // the keys that were left
    allTrips: nat)

  const MAX_DEGENERATE_TRIPS: nat := 3
  const MAX_BUDGET_RESELECTS: nat := 16

  // ---------------------------------------------------------------------------
  // One attempt's stream
  // ---------------------------------------------------------------------------

  datatype Collected = Collected(buffered: seq<StreamEvent>, failure: Option<Failure>, degenerate: bool)

  predicate TripsAt(w: World, k: nat)
    requires k < |w.events|
  {
    w.tripAt == Some(k) && w.events[k].Delta?
  }

  /** The events up to the first error or trip. */
  function Collect(w: World, k: nat): (r: Collected)
    requires k <= |w.events|
    ensures r.degenerate ==> r.failure == Some(w.partial.(cls := ErrorClass.Aborted))
    decreases |w.events| - k
  {
    if k == |w.events| then Collected([], None, false)
    else if w.events[k].Failed? then Collected([], Some(w.events[k].failure), false)
    else if TripsAt(w, k) then Collected([w.events[k]], Some(w.partial.(cls := ErrorClass.Aborted)), true)
    else Prepend([w.events[k]], Collect(w, k + 1))
  }

  function Prepend(before: seq<StreamEvent>, c: Collected): Collected {
    c.(buffered := before + c.buffered)
  }

  lemma PrependTwice(a: seq<StreamEvent>, b: seq<StreamEvent>, c: Collected)
    ensures Prepend(a, Prepend(b, c)) == Prepend(a + b, c)
  {
    assert a + (b + c.buffered) == (a + b) + c.buffered;
  }

  /** Any event but the opener. */
  predicate ProducedTokens(buffered: seq<StreamEvent>) {
    exists k :: 0 <= k < |buffered| && !buffered[k].Start?
  }

  predicate Complete(c: Collected) {
    c.failure.None? && c.buffered != [] && c.buffered[|c.buffered| - 1].Done?
  }

  const EMPTY_STREAM: Failure := Failure("stream ended without a terminal event", Environmental, None, None, None)

  function FailureOf(c: Collected): Failure {
    if c.failure.Some? then c.failure.value else EMPTY_STREAM
  }

  method CollectStream(w: World) returns (c: Collected)
    ensures c == Collect(w, 0)
  {
    var buffered: seq<StreamEvent> := [];
    var k := 0;
    assert [] + Collect(w, 0).buffered == Collect(w, 0).buffered;
    while k < |w.events|
      invariant k <= |w.events|
      invariant Collect(w, 0) == Prepend(buffered, Collect(w, k))
    {
      PrependTwice(buffered, [w.events[k]], Collect(w, k + 1));
      var event := w.events[k];
      if event.Failed? {
        assert buffered + [] == buffered;
        return Collected(buffered, Some(event.failure), false);
      }
      buffered := buffered + [event];
      if TripsAt(w, k) {
        return Collected(buffered, Some(w.partial.(cls := ErrorClass.Aborted)), true);
      }
      k := k + 1;
    }
    assert buffered + [] == buffered;
    return Collected(buffered, None, false);
  }

  // ---------------------------------------------------------------------------
  // The verdict on a failed attempt
  // ---------------------------------------------------------------------------

  /** `stall`: the member produced nothing in time. `trip`: the repetition guard cut it off. */
  datatype Judged = Judged(cls: ErrorClass, failure: Failure, stall: bool, trip: bool, expired: bool)

  function Judge(w: World, c: Collected): Judged {
    var f := FailureOf(c);
    var trip := c.degenerate && !w.callerAborted;
    var expired := w.budgetAborted && !w.callerAborted && !trip;  // a trip restarts the budget
    var silent := !ProducedTokens(c.buffered);
    if f.cls.Aborted? && w.stalled && silent && !w.callerAborted then
      Judged(Environmental, Failure("llm stall", Environmental, None, None, None), true, trip, expired)
    else if f.cls.Aborted? && expired then
      Judged(Environmental,
             Failure("llm request wall-clock budget exhausted", Environmental, w.expiredStatus, None, None),
             silent, trip, expired)
    else Judged(f.cls, f, false, trip, expired)
  }

  /** The failure that is surfaced, and its class, once a trip is read as a failure of the sample. */
  function Retryable(j: Judged): Judged {
    if j.trip then j.(cls := Environmental, failure := Failure("degenerate output", Environmental, None, None, None))
    else j
  }

  predicate Spent(u: Usage) {
    u.totalTokens > 0 || u.input > 0 || u.output > 0 || u.cacheRead > 0 || u.cacheWrite > 0 || u.cost > 0.0
  }

  /** An abort that reached the wire, with a hook to estimate it. */
  predicate AbortedOnWire(cfg: Config, w: World, j: Judged) {
    && j.cls.Aborted?
    && (w.callerAborted || j.trip)
    && !w.abortedAtStart && !w.neverAdmitted && cfg.abortedHook
  }

  /** The usage a failed attempt is billed for. */
  function FailureBill(cfg: Config, attempt: nat, w: World, j: Judged, f: Failure): seq<Billed> {
    if AbortedOnWire(cfg, w, j) then [Estimated(attempt)]
    else if f.usage.Some? && Spent(f.usage.value) && cfg.committedHook then [Reported(attempt, f.usage.value)]
    else []
  }

  function DoneBill(cfg: Config, attempt: nat, reply: Reply): seq<Billed> {
    if reply.usage.Some? && cfg.committedHook then [Reported(attempt, reply.usage.value)] else []
  }

  // ---------------------------------------------------------------------------
  // The loop
  // ---------------------------------------------------------------------------

  const UNRESOLVED: MF.Served := MF.Served("", None, false, false, false, false)

  /** The member that serves the attempt, if a resolver is below. */
  function ServedBy(cfg: Config, env: MF.Env, pass: MF.Pass): MF.Served {
    if cfg.members == [] then UNRESOLVED else MF.Dispatch(cfg.members, env, pass).served
  }

  function PassAfter(cfg: Config, env: MF.Env, pass: MF.Pass): MF.Pass {
    if cfg.members == [] then pass else MF.Dispatch(cfg.members, env, pass).pass
  }

  function Exclude(pass: MF.Pass, key: string): MF.Pass {
    pass.(excluded := pass.excluded + {key})
  }

  function FailGroup(pass: MF.Pass, group: Option<string>, w: World): MF.Pass {
    if group.None? || w.callerAborted then pass else pass.(failedGroups := pass.failedGroups + {group.value})
  }

  predicate ListedStatus(cfg: Config, served: MF.Served, f: Failure) {
    && f.status.Some? && served.group.Some?
    && served.group.value in cfg.groupStatuses && f.status.value in cfg.groupStatuses[served.group.value]
  }

  /** The marks a failure leaves on the request before the loop decides. */
  function Marked(cfg: Config, s: State, w: World, served: MF.Served, j: Judged): MF.Pass {
    var excluded := if j.stall && cfg.members != [] then Exclude(s.pass, served.key) else s.pass;
    var stalled := if j.stall then FailGroup(excluded, served.group, w) else excluded;
    if (j.cls.Environmental? || j.cls.Content?) && !j.trip && ListedStatus(cfg, served, j.failure)
    then FailGroup(stalled, served.group, w) else stalled
  }

  function Surface(s: State, f: Failure, cls: ErrorClass): State {
    s.(out := [StreamEvent.Failed(f.(tag := Some(cls)))], ending := Surfaced)
  }

  function Again(s: State): State {
    s.(attempt := s.attempt + 1)
  }

  /** Leave the member for another. */
  function FallOver(s: State, key: string): State {
    Again(s.(fallovers := s.fallovers + [key]))
  }

  function OnEnvironmental(cfg: Config, s: State, w: World, served: MF.Served, j: Judged): State {
    var spent := j.expired || w.pastDeadline;
    var out := s.trips > MAX_DEGENERATE_TRIPS;
    var t := if !j.trip && (served.exhausted || spent) then s.(pass := FailGroup(s.pass, served.group, w)) else s;
    if (j.stall || spent || out) && !w.callerAborted && cfg.members != [] && served.falloverAvailable then
      FallOver(t.(pass := Exclude(t.pass, served.key), trips := if out then 0 else t.trips), served.key)
    else if out || spent then Surface(t, j.failure, j.cls)
    else if w.sleep.CallerCut? then Surface(t, j.failure, ErrorClass.Aborted)
    else Again(t)
  }

  function Refused(s: State, key: string, cfg: Config): State {
    if cfg.members == [] then s else s.(pass := s.pass.(refused := s.pass.refused + {key}))
  }

  const WITHHELD: seq<StreamEvent> := [Start, Done(Reply("NO_REPLY", Some(Usage(0, 0, 0, 0, 0, 0.0)), false, true))]

  function OnRefusal(cfg: Config, s: State, w: World, served: MF.Served, j: Judged): State {
    var t := Refused(s, served.key, cfg);
    var canReissue := !j.expired && !w.pastDeadline;
    var implicit := cfg.refusalFallover && served.refusalFalloverAvailable && canReissue;
    var decision := if w.rule.Some? then w.rule.value else if implicit then Fallover else GiveUp;
    if decision.Redo? && canReissue then Again(t.(pass := t.pass.(refused := {}, attempts := map[])))
    else if decision.Fallover? && canReissue then FallOver(t, served.key)
    else if decision.Withhold? then t.(out := WITHHELD, ending := Withheld)
    else Surface(t, j.failure, Refusal)
  }

  function OnContent(cfg: Config, s: State, w: World, served: MF.Served, j: Judged): State {
    if !w.callerAborted && cfg.members != [] && served.falloverAvailable then
      FallOver(s.(pass := Exclude(s.pass, served.key)), served.key)
    else Surface(s, j.failure, j.cls)
  }

  function OnFailure(cfg: Config, s: State, w: World, served: MF.Served, c: Collected): State {
    var j := Judge(w, c);
    var billed := s.(
      pass := Marked(cfg, s, w, served, j),
      trips := if j.trip then s.trips + 1 else s.trips,
      allTrips := if j.trip then s.allTrips + 1 else s.allTrips,
      billed := s.billed + FailureBill(cfg, s.attempt, w, j, FailureOf(c)));
    var r := Retryable(j);
    match r.cls
    case Environmental => OnEnvironmental(cfg, billed, w, served, r)
    case Refusal => OnRefusal(cfg, billed, w, served, r)
    case Content => OnContent(cfg, billed, w, served, r)
    case Aborted => Surface(billed, r.failure, r.cls)
  }

  function OnDone(cfg: Config, s: State, w: World, buffered: seq<StreamEvent>): State
    requires buffered != [] && buffered[|buffered| - 1].Done?
  {
    var reply := buffered[|buffered| - 1].reply;
    var t := s.(billed := s.billed + DoneBill(cfg, s.attempt, reply));
    if reply.truncated && cfg.truncationHook && s.reselects < MAX_BUDGET_RESELECTS && w.reselect
    then Again(t.(reselects := t.reselects + 1))
    else t.(out := buffered, ending := Delivered)
  }

  function OverCost(text: string): Failure {
    Failure(text, Content, None, None, None)
  }

  /** One attempt. */
  function Attempt(cfg: Config, s: State, w: World): State {
    if s.attempt > 0 && w.overCost.Some? then Surface(s, OverCost(w.overCost.value), Content)
    else
      var served := ServedBy(cfg, w.env, s.pass);
      var sent := s.(pass := PassAfter(cfg, w.env, s.pass));
      var c := Collect(w, 0);
      if Complete(c) then OnDone(cfg, sent, w, c.buffered) else OnFailure(cfg, sent, w, served, c)
  }

  const IDLE: State := State(0, MF.NEW_PASS, 0, 0, [], [], Pending, [], 0)

  function First(cfg: Config): State {
    if cfg.preflight.Some? then Surface(IDLE, OverCost(cfg.preflight.value), Content) else IDLE
  }

  /** The request after its first attempts met `worlds`. */
  function Run(cfg: Config, worlds: seq<World>): State {
    if worlds == [] then First(cfg) else
      var before := Run(cfg, worlds[..|worlds| - 1]);
      if before.ending.Pending? then Attempt(cfg, before, worlds[|worlds| - 1]) else before
  }

  // ---------------------------------------------------------------------------
  // The loop, as it updates the request's state
  // ---------------------------------------------------------------------------

  /** A request under way: its attempt state is shared with the resolver. */
  class Request {
    const cfg: Config
    const state: MF.RequestAttemptState
    var attempt: nat
    var trips: nat
    var reselects: nat
    var out: seq<StreamEvent>
    var ending: Ending
    ghost var billed: seq<Billed>
    ghost var fallovers: seq<string>
    ghost var allTrips: nat

    ghost function Now(): State
      reads this, state
    {
      State(attempt, state.Now(), trips, reselects, billed, out, ending, fallovers, allTrips)
    }

    constructor (cfg: Config)
      ensures this.cfg == cfg && fresh(state) && Now() == First(cfg)
    {
      this.cfg := cfg;
      state := new MF.RequestAttemptState();
      attempt, trips, reselects, ending := 0, 0, 0, Pending;
      out := [];
      billed, fallovers, allTrips := [], [], 0;
      new;
      if cfg.preflight.Some? {
        out := [StreamEvent.Failed(OverCost(cfg.preflight.value).(tag := Some(Content)))];
        ending := Surfaced;
      }
    }

    /** Hand the attempt to the resolver. */
    method Send(w: World) returns (served: MF.Served)
      modifies state
      ensures served == ServedBy(cfg, w.env, old(state.Now()))
      ensures state.Now() == PassAfter(cfg, w.env, old(state.Now()))
    {
      if cfg.members == [] {
        return UNRESOLVED;
      }
      var _ := state.Resolve(cfg.members, w.env);
      return state.served.value;
    }

    method Finish(failure: Failure, cls: ErrorClass)
      modifies this
      ensures Now() == Surface(old(Now()), failure, cls)
    {
      out := [StreamEvent.Failed(failure.(tag := Some(cls)))];
      ending := Surfaced;
    }

    method Leave(key: string)
      modifies this
      ensures Now() == FallOver(old(Now()), key)
    {
      fallovers := fallovers + [key];
      attempt := attempt + 1;
    }

    method MarkGroup(group: Option<string>, w: World)
      modifies state
      ensures state.Now() == FailGroup(old(state.Now()), group, w)
    {
      if group.Some? && !w.callerAborted {
        state.failedGroups := state.failedGroups + {group.value};
      }
    }

    method HandleEnvironmental(w: World, served: MF.Served, j: Judged)
      modifies this, state
      ensures Now() == OnEnvironmental(cfg, old(Now()), w, served, j)
    {
      var spent := j.expired || w.pastDeadline;
      var degenerateOut := trips > MAX_DEGENERATE_TRIPS;
      if !j.trip && (served.exhausted || spent) {
        MarkGroup(served.group, w);
      }
      if (j.stall || spent || degenerateOut) && !w.callerAborted && cfg.members != [] && served.falloverAvailable {
        state.excluded := state.excluded + {served.key};
        if degenerateOut {
          trips := 0;
        }
        Leave(served.key);
      } else if degenerateOut || spent {
        Finish(j.failure, j.cls);
      } else if w.sleep.CallerCut? {
        Finish(j.failure, ErrorClass.Aborted);
      } else {
        attempt := attempt + 1;
      }
    }

    method HandleRefusal(w: World, served: MF.Served, j: Judged)
      modifies this, state
      ensures Now() == OnRefusal(cfg, old(Now()), w, served, j)
    {
      if cfg.members != [] {
        state.refused := state.refused + {served.key};
      }
      var canReissue := !j.expired && !w.pastDeadline;
      var implicit := cfg.refusalFallover && served.refusalFalloverAvailable && canReissue;
      var decision := if w.rule.Some? then w.rule.value else if implicit then Fallover else GiveUp;
      if decision.Redo? && canReissue {
        state.refused := {};
        state.attempts := map[];
        attempt := attempt + 1;
      } else if decision.Fallover? && canReissue {
        Leave(served.key);
      } else if decision.Withhold? {
        out, ending := WITHHELD, Withheld;
      } else {
        Finish(j.failure, Refusal);
      }
    }

    /** The marks of a failed attempt: the member, its group, the trip count and the bill. */
    method Mark(w: World, served: MF.Served, j: Judged, failure: Failure)
      modifies this, state
      ensures Now() == old(Now()).(
        pass := Marked(cfg, old(Now()), w, served, j),
        trips := if j.trip then old(trips) + 1 else old(trips),
        allTrips := if j.trip then old(allTrips) + 1 else old(allTrips),
        billed := old(billed) + FailureBill(cfg, old(attempt), w, j, failure))
    {
      if j.trip {
        trips := trips + 1;
        allTrips := allTrips + 1;
      }
      if j.stall {
        if cfg.members != [] {
          state.excluded := state.excluded + {served.key};
        }
        MarkGroup(served.group, w);
      }
      if (j.cls.Environmental? || j.cls.Content?) && !j.trip && ListedStatus(cfg, served, j.failure) {
        MarkGroup(served.group, w);
      }
      billed := billed + FailureBill(cfg, attempt, w, j, failure);
    }

    method HandleFailure(w: World, served: MF.Served, c: Collected)
      modifies this, state
      ensures Now() == OnFailure(cfg, old(Now()), w, served, c)
    {
      hide Judge, Marked, FailureBill, OnEnvironmental, OnRefusal;
      var j := Judge(w, c);
      Mark(w, served, j, FailureOf(c));
      var r := Retryable(j);
      if r.cls.Environmental? {
        HandleEnvironmental(w, served, r);
      } else if r.cls.Refusal? {
        HandleRefusal(w, served, r);
      } else if r.cls.Content? && !w.callerAborted && cfg.members != [] && served.falloverAvailable {
        state.excluded := state.excluded + {served.key};
        Leave(served.key);
      } else {
        Finish(r.failure, r.cls);
      }
    }

    method HandleDone(w: World, buffered: seq<StreamEvent>)
      requires buffered != [] && buffered[|buffered| - 1].Done?
      modifies this
      ensures Now() == OnDone(cfg, old(Now()), w, buffered)
    {
      var reply := buffered[|buffered| - 1].reply;
      billed := billed + DoneBill(cfg, attempt, reply);
      if reply.truncated && cfg.truncationHook && reselects < MAX_BUDGET_RESELECTS && w.reselect {
        reselects := reselects + 1;
        attempt := attempt + 1;
      } else {
        out, ending := buffered, Delivered;
      }
    }

    method Try(w: World)
      modifies this, state
      ensures Now() == Attempt(cfg, old(Now()), w)
    {
      hide OnFailure, OnDone, Collect, ServedBy, PassAfter;
      if attempt > 0 && w.overCost.Some? {
        Finish(OverCost(w.overCost.value), Content);
        return;
      }
      var served := Send(w);
      var c := CollectStream(w);
      if Complete(c) {
        HandleDone(w, c.buffered);
      } else {
        HandleFailure(w, served, c);
      }
    }

    /** The attempts, one after the other, until the request ends. */
    method Drive(worlds: seq<World>)
      requires Now() == First(cfg)
      modifies this, state
      ensures Now() == Run(cfg, worlds)
    {
      hide Attempt;
      var k := 0;
      while k < |worlds| && ending.Pending?
        invariant k <= |worlds| && Now() == Run(cfg, worlds[..k])
      {
        assert worlds[..k + 1][..k] == worlds[..k];
        Try(worlds[k]);
        k := k + 1;
      }
      EndedStays(cfg, worlds, k);
    }
  }

  lemma {:induction false} EndedStays(cfg: Config, worlds: seq<World>, k: nat)
    requires k <= |worlds| && (k == |worlds| || !Run(cfg, worlds[..k]).ending.Pending?)
    ensures Run(cfg, worlds) == Run(cfg, worlds[..k])
    decreases |worlds|
  {
    hide Attempt;
    if k == |worlds| {
      assert worlds[..k] == worlds;
    } else {
      assert worlds[..|worlds| - 1][..k] == worlds[..k];
      EndedStays(cfg, worlds[..|worlds| - 1], k);
    }
  }
}
