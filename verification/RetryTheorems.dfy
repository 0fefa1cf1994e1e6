/** What a model request shows its consumer, what it is billed, and how often it moves on. */
module RetryTheorems {
  import opened Transcript
  import MF = ModelFallback
  import opened RequestRetry

  // ---------------------------------------------------------------------------
  // The commit of a whole attempt
  // ---------------------------------------------------------------------------

  /** The stream ran to its end: no error, no trip. */
  ghost predicate RanThrough(w: World) {
    forall k :: 0 <= k < |w.events| ==> !w.events[k].Failed? && !TripsAt(w, k)
  }

  lemma {:induction false} CollectsAll(w: World, k: nat)
    requires k <= |w.events| && Collect(w, k).failure.None?
    ensures Collect(w, k).buffered == w.events[k..]
    ensures forall i | k <= i < |w.events| :: !w.events[i].Failed? && !TripsAt(w, i)
    decreases |w.events| - k
  {
    if k < |w.events| {
      CollectsAll(w, k + 1);
      assert w.events[k..] == [w.events[k]] + w.events[k + 1..];
    }
  }

  /** The attempt at which the request ended was the last one made. */
  ghost predicate LastWorld(s: State, worlds: seq<World>) {
    if s.ending.Pending? then s.attempt == |worlds| else s.attempt <= |worlds|
  }

  ghost predicate Commits(s: State, worlds: seq<World>) {
    match s.ending
    case Pending => s.out == []
    case Delivered =>
      && s.attempt < |worlds|
      && s.out == worlds[s.attempt].events
      && RanThrough(worlds[s.attempt])
      && s.out != [] && s.out[|s.out| - 1].Done?
    case Surfaced => |s.out| == 1 && s.out[0].Failed? && s.out[0].failure.tag.Some?
    case Withheld => s.out == WITHHELD && s.attempt < |worlds| && worlds[s.attempt].rule == Some(Withhold)
  }

  /** What the environmental, refusal and content branches leave. */
  lemma FailureCommits(cfg: Config, s: State, w: World, served: MF.Served, c: Collected)
    requires s.ending.Pending? && s.out == []
    ensures var r := OnFailure(cfg, s, w, served, c);
      && (r.ending.Pending? ==> r.out == [] && r.attempt == s.attempt + 1)
      && !r.ending.Delivered?
      && (r.ending.Surfaced? ==> |r.out| == 1 && r.out[0].Failed? && r.out[0].failure.tag.Some?)
      && (r.ending.Withheld? ==> r.out == WITHHELD && w.rule == Some(Withhold))
      && (!r.ending.Pending? ==> r.attempt == s.attempt)
  {
    hide Judge, Marked, FailureBill, Collect;
  }

  lemma AttemptCommits(cfg: Config, s: State, w: World)
    requires s.ending.Pending? && s.out == []
    ensures var r := Attempt(cfg, s, w);
      && (r.ending.Pending? ==> r.out == [] && r.attempt == s.attempt + 1)
      && (!r.ending.Pending? ==> r.attempt == s.attempt)
      && (r.ending.Delivered? ==> r.out == w.events && RanThrough(w) && r.out != [] && r.out[|r.out| - 1].Done?)
      && (r.ending.Surfaced? ==> |r.out| == 1 && r.out[0].Failed? && r.out[0].failure.tag.Some?)
      && (r.ending.Withheld? ==> r.out == WITHHELD && w.rule == Some(Withhold))
  {
    hide OnFailure, ServedBy, PassAfter;
    var served := ServedBy(cfg, w.env, s.pass);
    var sent := s.(pass := PassAfter(cfg, w.env, s.pass));
    var c := Collect(w, 0);
    FailureCommits(cfg, sent, w, served, c);
    if c.failure.None? { CollectsAll(w, 0); }
  }

  /**
   * However its attempts went, a request shows its consumer nothing while it is pending, and then one of
   * three things: every event of its last attempt, which ran through to `done`; one error tagged
   * with its class; or the stand-in of a rule that withholds the reply. No event of any other attempt.
   */
  lemma {:induction false} RequestCommitsWhole(cfg: Config, worlds: seq<World>)
    ensures Commits(Run(cfg, worlds), worlds) && LastWorld(Run(cfg, worlds), worlds)
  {
    hide Attempt;
    if worlds != [] {
      var init := worlds[..|worlds| - 1];
      var before := Run(cfg, init);
      RequestCommitsWhole(cfg, init);
      if before.ending.Pending? {
        AttemptCommits(cfg, before, worlds[|worlds| - 1]);
      } else if before.attempt < |init| {
        assert worlds[before.attempt] == init[before.attempt];
      }
    }
  }

  // ---------------------------------------------------------------------------
  // Billing
  // ---------------------------------------------------------------------------

  /** The usage the attempt's own stream reported when it settled. */
  function SettledUsage(w: World): Option<Usage> {
    var c := Collect(w, 0);
    if Complete(c) then c.buffered[|c.buffered| - 1].reply.usage else FailureOf(c).usage
  }

  /** The attempt was issued: no cost check stopped it. */
  predicate Issued(w: World, attempt: nat) {
    attempt == 0 || w.overCost.None?
  }

  /** The attempt was issued and reported usage that is not zero. */
  predicate Owed(w: World, attempt: nat) {
    Issued(w, attempt) && SettledUsage(w).Some? && Spent(SettledUsage(w).value)
  }

  ghost predicate Rising(billed: seq<Billed>, below: nat) {
    && (forall i, j :: 0 <= i < j < |billed| ==> billed[i].attempt < billed[j].attempt)
    && (forall i :: 0 <= i < |billed| ==> billed[i].attempt < below)
  }

  ghost predicate HasBill(billed: seq<Billed>, attempt: nat) {
    exists i :: 0 <= i < |billed| && billed[i].attempt == attempt
  }

  /** A reported bill is the attempt's own usage; an estimate stands for an abort or a trip. */
  ghost predicate TrueBill(b: Billed, w: World) {
    match b
    case Reported(_, usage) => SettledUsage(w) == Some(usage)
    case Estimated(_) => w.callerAborted || Collect(w, 0).degenerate
  }

  /** What one attempt adds to the bills. */
  function AttemptBill(cfg: Config, s: State, w: World): seq<Billed> {
    if !Issued(w, s.attempt) then []
    else
      var c := Collect(w, 0);
      if Complete(c) then DoneBill(cfg, s.attempt, c.buffered[|c.buffered| - 1].reply)
      else FailureBill(cfg, s.attempt, w, Judge(w, c), FailureOf(c))
  }

  lemma BillOf(cfg: Config, s: State, w: World)
    ensures Attempt(cfg, s, w).billed == s.billed + AttemptBill(cfg, s, w)
  {
    hide Judge, Marked, FailureBill, DoneBill, Collect, ServedBy, PassAfter;
  }

  lemma OneTrueBill(cfg: Config, s: State, w: World)
    ensures var bill := AttemptBill(cfg, s, w);
      && |bill| <= 1
      && (bill != [] ==> bill[0].attempt == s.attempt && TrueBill(bill[0], w))
      && (cfg.committedHook && Owed(w, s.attempt) ==> |bill| == 1)
  {
    hide Collect;
    var c := Collect(w, 0);
    assert c.failure.None? ==> FailureOf(c) == EMPTY_STREAM;
  }

  ghost predicate AllBilled(billed: seq<Billed>, worlds: seq<World>, n: nat) {
    n <= |worlds| && forall k | 0 <= k < n :: Owed(worlds[k], k) ==> HasBill(billed, k)
  }

  ghost predicate AllTrue(billed: seq<Billed>, worlds: seq<World>) {
    forall i | 0 <= i < |billed| :: billed[i].attempt < |worlds| && TrueBill(billed[i], worlds[billed[i].attempt])
  }

  /** How many attempts were made before the request ended. */
  function Made(cfg: Config, worlds: seq<World>): (r: nat)
    ensures r <= |worlds|
  {
    if worlds == [] then 0 else
      var init := worlds[..|worlds| - 1];
      Made(cfg, init) + (if Run(cfg, init).ending.Pending? then 1 else 0)
  }

  lemma {:induction false} PendingMadeAll(cfg: Config, worlds: seq<World>)
    requires Run(cfg, worlds).ending.Pending?
    ensures Made(cfg, worlds) == |worlds| == Run(cfg, worlds).attempt
  {
    hide Attempt;
    RequestCommitsWhole(cfg, worlds);
    if worlds != [] { PendingMadeAll(cfg, worlds[..|worlds| - 1]); }
  }

  lemma BillAdded(billed: seq<Billed>, bill: seq<Billed>, worlds: seq<World>, w: World, n: nat)
    requires Rising(billed, n) && AllTrue(billed, worlds) && n == |worlds|
    requires |bill| <= 1 && (bill != [] ==> bill[0].attempt == n && TrueBill(bill[0], w))
    ensures Rising(billed + bill, n + 1) && AllTrue(billed + bill, worlds + [w])
  {
    hide TrueBill;
    var all := billed + bill;
    forall i | 0 <= i < |all| ensures all[i].attempt < n + 1 && TrueBill(all[i], (worlds + [w])[all[i].attempt]) {
      if i < |billed| { assert all[i] == billed[i]; } else { assert all[i] == bill[0]; }
    }
  }

  lemma BillsKept(billed: seq<Billed>, bill: seq<Billed>, worlds: seq<World>, w: World, n: nat)
    requires AllBilled(billed, worlds, n) && n == |worlds|
    requires Owed(w, n) ==> |bill| == 1 && bill[0].attempt == n
    ensures AllBilled(billed + bill, worlds + [w], n + 1)
  {
    hide Owed;
    var all := billed + bill;
    forall k | 0 <= k < n + 1 && Owed((worlds + [w])[k], k) ensures HasBill(all, k) {
      if k < n {
        assert (worlds + [w])[k] == worlds[k];
        var i :| 0 <= i < |billed| && billed[i].attempt == k;
        assert all[i].attempt == k;
      } else {
        assert all[|billed|].attempt == k;
      }
    }
  }

  lemma MoreWorlds(billed: seq<Billed>, worlds: seq<World>, w: World, n: nat)
    requires n <= |worlds|
    ensures AllTrue(billed, worlds) ==> AllTrue(billed, worlds + [w])
    ensures AllBilled(billed, worlds, n) ==> AllBilled(billed, worlds + [w], n)
  {
    hide TrueBill, Owed, HasBill;
    assert forall k | 0 <= k < |worlds| :: (worlds + [w])[k] == worlds[k];
  }

  /**
   * Each attempt is billed through at most one hook, once, for the usage its own stream reported or as an
   * estimate of an aborted stream; and where the usage hook is wired, no attempt that was issued and
   * reported usage goes unbilled, whether it was delivered, retried, or lost.
   */
  lemma {:induction false} BillsAreRight(cfg: Config, worlds: seq<World>)
    ensures var s := Run(cfg, worlds);
      && Rising(s.billed, Made(cfg, worlds))
      && AllTrue(s.billed, worlds)
      && (cfg.committedHook ==> AllBilled(s.billed, worlds, Made(cfg, worlds)))
  {
    hide Attempt, Owed, TrueBill, AttemptBill;
    if worlds != [] {
      var init, w := worlds[..|worlds| - 1], worlds[|worlds| - 1];
      var before, n := Run(cfg, init), Made(cfg, init);
      BillsAreRight(cfg, init);
      assert init + [w] == worlds;
      if before.ending.Pending? {
        PendingMadeAll(cfg, init);
        BillOf(cfg, before, w);
        OneTrueBill(cfg, before, w);
        var bill := AttemptBill(cfg, before, w);
        BillAdded(before.billed, bill, init, w, n);
        if cfg.committedHook { BillsKept(before.billed, bill, init, w, n); }
      } else {
        MoreWorlds(before.billed, init, w, n);
      }
    }
  }

  // ---------------------------------------------------------------------------
  // Fallovers
  // ---------------------------------------------------------------------------

  /** No refusal rule decides anything. */
  ghost predicate NoRules(worlds: seq<World>) {
    forall k :: 0 <= k < |worlds| ==> worlds[k].rule.None?
  }

  function RuledOut(pass: MF.Pass): set<string> {
    pass.refused + pass.excluded
  }

  /** Members left for another, each once, and each ruled out since. */
  ghost predicate LeftOnce(cfg: Config, s: State) {
    && (forall i, j :: 0 <= i < j < |s.fallovers| ==> s.fallovers[i] != s.fallovers[j])
    && (forall i :: 0 <= i < |s.fallovers| ==>
          s.fallovers[i] in RuledOut(s.pass) && s.fallovers[i] in MF.Keys(cfg.members))
  }

  /** Grown: nothing ruled out comes back; `left` is the key that was left, if the request moved on. */
  ghost predicate Moved(s: State, r: State, key: string) {
    && RuledOut(s.pass) <= RuledOut(r.pass)
    && (r.fallovers == s.fallovers || (r.fallovers == s.fallovers + [key] && key in RuledOut(r.pass)))
  }

  lemma DispatchRulesNothing(cfg: Config, env: MF.Env, pass: MF.Pass)
    ensures RuledOut(PassAfter(cfg, env, pass)) == RuledOut(pass)
  {
    hide MF.Choose;
  }

  lemma FailureMoves(cfg: Config, s: State, w: World, served: MF.Served, c: Collected)
    requires w.rule.None? && (cfg.members == [] ==> served == UNRESOLVED)
    ensures var r := OnFailure(cfg, s, w, served, c);
      && Moved(s, r, served.key)
      && (r.fallovers != s.fallovers ==>
            cfg.members != [] && (served.falloverAvailable || served.refusalFalloverAvailable))
  {
    hide Judge, FailureBill, Collect, ListedStatus;
  }

  lemma LeftMore(cfg: Config, s: State, r: State, key: string)
    requires LeftOnce(cfg, s) && Moved(s, r, key)
    requires r.fallovers != s.fallovers ==> key !in RuledOut(s.pass) && key in MF.Keys(cfg.members)
    ensures LeftOnce(cfg, r)
  {
    hide RuledOut;
    var k := |s.fallovers|;
    assert forall i | 0 <= i < k :: r.fallovers[i] == s.fallovers[i];
    assert r.fallovers != s.fallovers ==> r.fallovers[k] == key && |r.fallovers| == k + 1;
  }

  lemma AttemptLeavesOnce(cfg: Config, s: State, w: World)
    requires w.rule.None? && LeftOnce(cfg, s)
    ensures LeftOnce(cfg, Attempt(cfg, s, w))
  {
    hide OnFailure, Collect, MF.Choose, MF.Keys, RuledOut, LeftOnce, DoneBill;
    var served := ServedBy(cfg, w.env, s.pass);
    var sent := s.(pass := PassAfter(cfg, w.env, s.pass));
    var c, r := Collect(w, 0), Attempt(cfg, s, w);
    DispatchRulesNothing(cfg, w.env, s.pass);
    FailureMoves(cfg, sent, w, served, c);
    if cfg.members != [] {
      MF.FalloverNeedsOpenServed(cfg.members, w.env, s.pass);
      ServedIsOpen(served, s.pass);
    }
    StillLeft(cfg, s, sent);
    StillLeft(cfg, s, r);
    if r.fallovers != s.fallovers || RuledOut(r.pass) != RuledOut(s.pass) {
      LeftMore(cfg, sent, r, served.key);
    }
  }

  lemma ServedIsOpen(served: MF.Served, pass: MF.Pass)
    ensures served.key !in RuledOut(pass) <==> served.key !in pass.refused && served.key !in pass.excluded
  {
  }

  lemma StillLeft(cfg: Config, s: State, r: State)
    ensures r.fallovers == s.fallovers && RuledOut(r.pass) == RuledOut(s.pass) && LeftOnce(cfg, s) ==> LeftOnce(cfg, r)
  {
  }

  lemma {:induction false} DistinctFit(s: seq<string>, keys: set<string>)
    requires forall i, j :: 0 <= i < j < |s| ==> s[i] != s[j]
    requires forall i :: 0 <= i < |s| ==> s[i] in keys
    ensures |s| <= |keys|
  {
    if s != [] { DistinctFit(s[..|s| - 1], keys - {s[|s| - 1]}); }
  }

  /**
   * Without refusal rules a request leaves each member for another at most once: a member it leaves was open when
   * it was sent there and is ruled out from then on, so every fallover uses up a key of the chain.
   */
  lemma {:induction false} LeavesEachOnce(cfg: Config, worlds: seq<World>)
    requires NoRules(worlds)
    ensures var s := Run(cfg, worlds);
      && LeftOnce(cfg, s)
      && |s.fallovers| <= |MF.Keys(cfg.members) * RuledOut(s.pass)|
  {
    hide Attempt;
    if worlds != [] {
      var init := worlds[..|worlds| - 1];
      assert NoRules(init);
      LeavesEachOnce(cfg, init);
      if Run(cfg, init).ending.Pending? {
        AttemptLeavesOnce(cfg, Run(cfg, init), worlds[|worlds| - 1]);
      }
    }
    DistinctFit(Run(cfg, worlds).fallovers, MF.Keys(cfg.members) * RuledOut(Run(cfg, worlds).pass));
  }

  // ---------------------------------------------------------------------------
  // Repetition trips and truncated turns
  // ---------------------------------------------------------------------------

  /** The trips of the member being tried, and of those left before it. */
  ghost predicate TripsBounded(s: State) {
    && s.allTrips <= (MAX_DEGENERATE_TRIPS + 1) * |s.fallovers| + s.trips
    && s.trips <= (if s.ending.Pending? then MAX_DEGENERATE_TRIPS else MAX_DEGENERATE_TRIPS + 1)
    && s.reselects <= MAX_BUDGET_RESELECTS
  }

  lemma EnvironmentalTrips(cfg: Config, s: State, w: World, served: MF.Served, j: Judged)
    requires s.ending.Pending? && s.reselects <= MAX_BUDGET_RESELECTS && s.trips <= MAX_DEGENERATE_TRIPS + 1
    requires s.allTrips <= (MAX_DEGENERATE_TRIPS + 1) * |s.fallovers| + s.trips
    ensures TripsBounded(OnEnvironmental(cfg, s, w, served, j))
  {
    hide FailGroup, Exclude;
  }

  lemma OtherTrips(cfg: Config, s: State, w: World, served: MF.Served, j: Judged)
    requires s.ending.Pending? && TripsBounded(s)
    ensures TripsBounded(OnRefusal(cfg, s, w, served, j))
    ensures TripsBounded(OnContent(cfg, s, w, served, j))
    ensures TripsBounded(Surface(s, j.failure, j.cls))
  {
    hide Exclude;
  }

  lemma FailureTrips(cfg: Config, s: State, w: World, served: MF.Served, c: Collected)
    requires s.ending.Pending? && TripsBounded(s)
    ensures TripsBounded(OnFailure(cfg, s, w, served, c))
  {
    hide Judge, Marked, FailureBill, OnEnvironmental, OnRefusal, OnContent, Surface;
    var j := Judge(w, c);
    var billed := s.(
      pass := Marked(cfg, s, w, served, j),
      trips := if j.trip then s.trips + 1 else s.trips,
      allTrips := if j.trip then s.allTrips + 1 else s.allTrips,
      billed := s.billed + FailureBill(cfg, s.attempt, w, j, FailureOf(c)));
    EnvironmentalTrips(cfg, billed, w, served, Retryable(j));
    if !j.trip { OtherTrips(cfg, billed, w, served, Retryable(j)); }
  }

  lemma AttemptTrips(cfg: Config, s: State, w: World)
    requires s.ending.Pending? && TripsBounded(s)
    ensures TripsBounded(Attempt(cfg, s, w))
  {
    hide Collect, ServedBy, PassAfter, DoneBill, OnFailure;
    FailureTrips(cfg, s.(pass := PassAfter(cfg, w.env, s.pass)), w, ServedBy(cfg, w.env, s.pass), Collect(w, 0));
  }

  /**
   * Three repetition trips are tolerated between two fallovers that follow trips; the fourth leaves the member or
   * ends the request. A truncated turn is re-driven at most sixteen times.
   */
  lemma {:induction false} TripsAreBounded(cfg: Config, worlds: seq<World>)
    ensures TripsBounded(Run(cfg, worlds))
  {
    hide Attempt;
    if worlds != [] {
      var before := Run(cfg, worlds[..|worlds| - 1]);
      TripsAreBounded(cfg, worlds[..|worlds| - 1]);
      if before.ending.Pending? { AttemptTrips(cfg, before, worlds[|worlds| - 1]); }
    }
  }

  /** So without refusal rules the degenerate attempts of a request are bounded by its chain. */
  lemma TripsFitChain(cfg: Config, worlds: seq<World>)
    requires NoRules(worlds)
    ensures Run(cfg, worlds).allTrips <= (MAX_DEGENERATE_TRIPS + 1) * (|MF.Keys(cfg.members)| + 1)
  {
    hide Run;
    var s, keys := Run(cfg, worlds), MF.Keys(cfg.members);
    TripsAreBounded(cfg, worlds);
    LeavesEachOnce(cfg, worlds);
    DistinctFit(s.fallovers, keys);
  }

  // ---------------------------------------------------------------------------
  // Passes
  // ---------------------------------------------------------------------------

  /** An attempt leaves the counts as its dispatch did, or cleared, or was not sent at all. */
  lemma AttemptCounts(cfg: Config, s: State, w: World)
    requires cfg.members != []
    ensures var r := Attempt(cfg, s, w).pass;
      || r == s.pass
      || r.attempts == MF.Dispatch(cfg.members, w.env, s.pass).pass.attempts
      || r.attempts == map[]
  {
    hide MF.Dispatch, Collect, OnFailure, DoneBill;
    var sent := s.(pass := PassAfter(cfg, w.env, s.pass));
    FailureCounts(cfg, sent, w, ServedBy(cfg, w.env, s.pass), Collect(w, 0));
  }

  lemma MarkedCounts(cfg: Config, s: State, w: World, served: MF.Served, j: Judged)
    ensures Marked(cfg, s, w, served, j).attempts == s.pass.attempts
  {
    hide ListedStatus;
  }

  lemma FailureCounts(cfg: Config, s: State, w: World, served: MF.Served, c: Collected)
    ensures var r := OnFailure(cfg, s, w, served, c).pass; r.attempts == s.pass.attempts || r.attempts == map[]
  {
    hide Judge, Marked, FailureBill;
    MarkedCounts(cfg, s, w, served, Judge(w, c));
  }

  lemma PassNext(members: seq<MF.Member>, steps: seq<MF.PassStep>, step: MF.PassStep)
    requires members != []
    ensures MF.PassOf(members, steps + [step]) == MF.Stepped(members, MF.PassOf(members, steps), step)
  {
    assert (steps + [step])[..|steps|] == steps;
  }

  /**
   * The pass of a request is one that the passes' steps reach, whatever its attempts met: so no member got more
   * attempts in it than the quota, and the desperate ones.
   */
  lemma {:induction false} RequestPass(cfg: Config, worlds: seq<World>, quota: nat) returns (steps: seq<MF.PassStep>)
    requires |cfg.members| > 1 && forall k | 0 <= k < |worlds| :: worlds[k].env.quota == quota
    ensures Run(cfg, worlds).pass == MF.PassOf(cfg.members, steps) && MF.QuotaIs(steps, quota)
    ensures forall key ::
      MF.Used(Run(cfg, worlds).pass, key) <= (if quota > 1 then quota else 1) + MF.Desperate(cfg.members, steps, key)
  {
    hide MF.Stepped, MF.Desperate, Attempt;
    if worlds == [] {
      steps := [];
    } else {
      var init, w := worlds[..|worlds| - 1], worlds[|worlds| - 1];
      var before := Run(cfg, init);
      steps := RequestPass(cfg, init, quota);
      var r := Run(cfg, worlds).pass;
      if before.ending.Pending? && r != before.pass {
        AttemptCounts(cfg, before, w);
        steps := SentSteps(cfg, steps, w.env, r);
      }
    }
    forall key
      ensures MF.Used(MF.PassOf(cfg.members, steps), key)
        <= (if quota > 1 then quota else 1) + MF.Desperate(cfg.members, steps, key)
    {
      MF.WithinQuota(cfg.members, quota, steps, key);
    }
  }

  lemma SentSteps(cfg: Config, steps: seq<MF.PassStep>, env: MF.Env, r: MF.Pass) returns (more: seq<MF.PassStep>)
    requires cfg.members != []
    requires r.attempts == map[] ||
      r.attempts == MF.Dispatch(cfg.members, env, MF.PassOf(cfg.members, steps)).pass.attempts
    requires MF.QuotaIs(steps, env.quota)
    ensures MF.PassOf(cfg.members, more) == r && MF.QuotaIs(more, env.quota)
  {
    hide MF.PassOf, MF.Dispatch;
    var mark := MF.Mark(r.failedGroups, r.refused, r.excluded);
    var sent := steps + [MF.Send(env)];
    PassNext(cfg.members, steps, MF.Send(env));
    PassNext(cfg.members, sent, MF.Redo);
    PassNext(cfg.members, sent, mark);
    PassNext(cfg.members, sent + [MF.Redo], mark);
    more := if r.attempts == map[] then sent + [MF.Redo] + [mark] else sent + [mark];
  }
}
