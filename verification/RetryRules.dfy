/** When a request goes on after an attempt, where to, and how it ends otherwise. */
module RetryRules {
  import opened Transcript
  import MF = ModelFallback
  import opened RequestRetry
  import opened RetryTheorems

  // ---------------------------------------------------------------------------
  // What an attempt met
  // ---------------------------------------------------------------------------

  /** The stream ends at event `k`: the first error, or the delta the repetition guard trips on. */
  ghost predicate Stops(w: World, k: nat) {
    && k < |w.events| && (w.events[k].Failed? || TripsAt(w, k))
    && forall j | 0 <= j < k :: !w.events[j].Failed? && !TripsAt(w, j)
  }

  lemma {:induction false} CollectsTo(w: World, i: nat, k: nat)
    requires i <= k && Stops(w, k)
    ensures var c := Collect(w, i);
      && (w.events[k].Failed? ==> c == Collected(w.events[i..k], Some(w.events[k].failure), false))
      && (!w.events[k].Failed? ==>
            c == Collected(w.events[i..k + 1], Some(w.partial.(cls := ErrorClass.Aborted)), true))
    decreases k - i
  {
    if i < k {
      CollectsTo(w, i + 1, k);
      assert w.events[i..k] == [w.events[i]] + w.events[i + 1..k];
      assert w.events[i..k + 1] == [w.events[i]] + w.events[i + 1..k + 1];
    }
  }

  lemma {:induction false} CollectsOn(w: World, i: nat)
    requires i <= |w.events| && RanThrough(w)
    ensures Collect(w, i) == Collected(w.events[i..], None, false)
    decreases |w.events| - i
  {
    if i < |w.events| {
      CollectsOn(w, i + 1);
      assert w.events[i..] == [w.events[i]] + w.events[i + 1..];
    }
  }

  /** Nothing but openers before event `k`. */
  ghost predicate SilentTo(w: World, k: nat)
    requires k <= |w.events|
  {
    forall j | 0 <= j < k :: w.events[j].Start?
  }

  /**
   * What the stream of a failed attempt comes down to: a repetition trip is environmental unless the caller aborted;
   * an abort is environmental when the member was silent past its deadline, or when the budget ran out; everything
   * else is the failure it was. What is made environmental reports no usage, and a status only if the budget ran out.
   */
  lemma FailureMeans(w: World, k: nat)
    requires Stops(w, k)
    ensures var j := Retryable(Judge(w, Collect(w, 0)));
      var trip := !w.events[k].Failed?;
      && (j.trip <==> trip && !w.callerAborted)
      && (j.expired <==> w.budgetAborted && !w.callerAborted && !trip)
      && (trip ==> if w.callerAborted then j.cls.Aborted? && j.failure == w.partial.(cls := ErrorClass.Aborted)
                   else j.cls.Environmental? && j.failure.usage.None? && j.failure.status.None?)
      && (!trip ==>
            var f := w.events[k].failure;
            var cut := w.stalled && SilentTo(w, k) && !w.callerAborted;
            var made := f.cls.Aborted? && (cut || j.expired);
            && j.cls == (if made then Environmental else f.cls)
            && (if made then j.failure.usage.None? && j.failure.status == (if cut then None else w.expiredStatus)
                else j.failure == f)
            && (j.stall <==> f.cls.Aborted? && (cut || (j.expired && SilentTo(w, k)))))
  {
    CollectsTo(w, 0, k);
    var c := Collect(w, 0);
    if w.events[k].Failed? {
      assert c.buffered == w.events[..k];
      assert ProducedTokens(c.buffered) <==> !SilentTo(w, k);
    } else {
      assert c.buffered[k] == w.events[k] && ProducedTokens(c.buffered);
    }
  }

  lemma EndlessMeans(w: World)
    requires RanThrough(w) && !Complete(Collect(w, 0))
    ensures var j := Retryable(Judge(w, Collect(w, 0)));
      && j.cls == Environmental && j.failure == EMPTY_STREAM && !j.trip && !j.stall
      && (j.expired <==> w.budgetAborted && !w.callerAborted)
  {
    CollectsOn(w, 0);
  }

  /** An attempt is complete exactly when its stream ran through to `done`. */
  lemma CompleteMeans(w: World)
    ensures Complete(Collect(w, 0)) <==>
      RanThrough(w) && w.events != [] && w.events[|w.events| - 1].Done?
  {
    if RanThrough(w) {
      CollectsOn(w, 0);
      assert w.events[0..] == w.events;
    } else if Complete(Collect(w, 0)) {
      CollectsAll(w, 0);
    }
  }

  // ---------------------------------------------------------------------------
  // Whether the request goes on
  // ---------------------------------------------------------------------------

  /** The attempt is made: the first, or one that the cost check lets through. */
  ghost predicate Made(s: State, w: World) {
    s.ending.Pending? && (s.attempt > 0 ==> w.overCost.None?)
  }

  /** Another member of the chain may take the request over. */
  ghost predicate Movable(cfg: Config, s: State, w: World) {
    !w.callerAborted && cfg.members != [] && ServedBy(cfg, w.env, s.pass).falloverAvailable
  }

  /** The request goes on, with the same member or another. */
  ghost predicate Stays(s: State, r: State) {
    r.ending.Pending? && r.attempt == s.attempt + 1 && r.out == s.out && r.fallovers == s.fallovers
  }

  ghost predicate Moves(s: State, r: State, key: string) {
    r.ending.Pending? && r.attempt == s.attempt + 1 && r.out == s.out && r.fallovers == s.fallovers + [key]
  }

  ghost predicate Gives(s: State, r: State, f: Failure, tag: ErrorClass) {
    && r.ending.Surfaced? && r.attempt == s.attempt && r.fallovers == s.fallovers
    && r.out == [StreamEvent.Failed(f.(tag := Some(tag)))]
  }

  lemma CostStops(cfg: Config, s: State, w: World)
    requires s.ending.Pending? && s.attempt > 0 && w.overCost.Some?
    ensures Gives(s, Attempt(cfg, s, w), OverCost(w.overCost.value), Content)
  {
  }

  /** The state an attempt's failure is judged in. */
  lemma AttemptFails(cfg: Config, s: State, w: World)
    requires Made(s, w) && !Complete(Collect(w, 0))
    ensures Attempt(cfg, s, w) ==
      OnFailure(cfg, s.(pass := PassAfter(cfg, w.env, s.pass)), w, ServedBy(cfg, w.env, s.pass), Collect(w, 0))
  {
  }

  /**
   * After an environmental failure the request moves to another member exactly when this one stalled, time is up or
   * it repeated itself too often, and another can take over; otherwise it stays, and retries, unless one of the last
   * two holds or the caller cuts the wait.
   */
  lemma EnvironmentalRule(cfg: Config, s: State, w: World)
    requires Made(s, w) && !Complete(Collect(w, 0)) && Retryable(Judge(w, Collect(w, 0))).cls.Environmental?
    ensures var r, j := Attempt(cfg, s, w), Retryable(Judge(w, Collect(w, 0)));
      var late := j.expired || w.pastDeadline;
      var out := s.trips + (if j.trip then 1 else 0) > MAX_DEGENERATE_TRIPS;
      var moves := (j.stall || late || out) && Movable(cfg, s, w);
      && (moves ==> Moves(s, r, ServedBy(cfg, w.env, s.pass).key))
      && (!moves && !late && !out && !w.sleep.CallerCut? ==> Stays(s, r))
      && (!moves && (late || out) ==> Gives(s, r, j.failure, Environmental))
      && (!moves && !late && !out && w.sleep.CallerCut? ==> Gives(s, r, j.failure, ErrorClass.Aborted))
  {
    hide Judge, Marked, FailureBill, Collect, Attempt;
    AttemptFails(cfg, s, w);
  }

  /** After a content failure the request moves on exactly when another member can take over. */
  lemma ContentRule(cfg: Config, s: State, w: World)
    requires Made(s, w) && !Complete(Collect(w, 0)) && Retryable(Judge(w, Collect(w, 0))).cls.Content?
    ensures var r, j := Attempt(cfg, s, w), Retryable(Judge(w, Collect(w, 0)));
      if Movable(cfg, s, w) then Moves(s, r, ServedBy(cfg, w.env, s.pass).key) else Gives(s, r, j.failure, Content)
  {
    hide Judge, Marked, FailureBill, Collect, Attempt;
    AttemptFails(cfg, s, w);
  }

  /**
   * After a refusal the request follows its rule while there is time: starts over, moves on, or is withheld; without
   * a rule it moves on exactly when refusal fallover is on and another member can take it.
   */
  lemma RefusalRule(cfg: Config, s: State, w: World)
    requires Made(s, w) && !Complete(Collect(w, 0)) && Retryable(Judge(w, Collect(w, 0))).cls.Refusal?
    ensures var r, j := Attempt(cfg, s, w), Retryable(Judge(w, Collect(w, 0)));
      var served := ServedBy(cfg, w.env, s.pass);
      var inTime := !j.expired && !w.pastDeadline;
      var moves := inTime &&
        if w.rule.Some? then w.rule.value.Fallover? else cfg.refusalFallover && served.refusalFalloverAvailable;
      && (moves ==> Moves(s, r, served.key))
      && (inTime && w.rule == Some(Redo) ==> Stays(s, r) && r.pass.refused == {} && r.pass.attempts == map[])
      && (w.rule == Some(Withhold) ==> r.ending.Withheld? && r.out == WITHHELD && r.fallovers == s.fallovers)
      && (!moves && !(inTime && w.rule == Some(Redo)) && w.rule != Some(Withhold) ==> Gives(s, r, j.failure, Refusal))
  {
    hide Judge, Marked, FailureBill, Collect, Attempt;
    AttemptFails(cfg, s, w);
  }

  /** An abort is never retried. */
  lemma AbortRule(cfg: Config, s: State, w: World)
    requires Made(s, w) && !Complete(Collect(w, 0)) && Retryable(Judge(w, Collect(w, 0))).cls.Aborted?
    ensures Gives(s, Attempt(cfg, s, w), Retryable(Judge(w, Collect(w, 0))).failure, ErrorClass.Aborted)
  {
    hide Judge, Marked, FailureBill, Collect, Attempt;
    AttemptFails(cfg, s, w);
  }

  /** A complete stream is delivered, unless it was truncated and is driven again. */
  lemma DoneRule(cfg: Config, s: State, w: World)
    requires Made(s, w) && RanThrough(w) && w.events != [] && w.events[|w.events| - 1].Done?
    ensures var r := Attempt(cfg, s, w);
      var again := w.events[|w.events| - 1].reply.truncated && cfg.truncationHook && w.reselect
                   && s.reselects < MAX_BUDGET_RESELECTS;
      && (again ==> Stays(s, r) && r.reselects == s.reselects + 1)
      && (!again ==> r.ending.Delivered? && r.out == w.events && r.fallovers == s.fallovers)
  {
    hide Collect, ServedBy, PassAfter, DoneBill;
    CompleteMeans(w);
    CollectsAll(w, 0);
    assert w.events[0..] == w.events;
  }

  // ---------------------------------------------------------------------------
  // What a failed attempt marks
  // ---------------------------------------------------------------------------

  /** The failure fails the whole group of its member. */
  ghost predicate FailsGroup(cfg: Config, w: World, served: MF.Served) {
    var j := Retryable(Judge(w, Collect(w, 0)));
    var late := j.expired || w.pastDeadline;
    && !w.callerAborted
    && (|| j.stall
        || ((j.cls.Environmental? || j.cls.Content?) && !j.trip && ListedStatus(cfg, served, j.failure))
        || (j.cls.Environmental? && !j.trip && (served.exhausted || late)))
  }

  /** The failure rules its member out. */
  ghost predicate RulesOut(cfg: Config, s: State, w: World) {
    var j := Retryable(Judge(w, Collect(w, 0)));
    var late := j.expired || w.pastDeadline;
    var out := s.trips + (if j.trip then 1 else 0) > MAX_DEGENERATE_TRIPS;
    && cfg.members != []
    && (j.stall || (Movable(cfg, s, w) && (j.cls.Content? || (j.cls.Environmental? && (late || out)))))
  }

  /** A failed attempt rules its member out exactly for a stall, or to move on from it. */
  lemma ExcludedRule(cfg: Config, s: State, w: World)
    requires Made(s, w) && !Complete(Collect(w, 0))
    ensures var served, sent := ServedBy(cfg, w.env, s.pass), PassAfter(cfg, w.env, s.pass);
      Attempt(cfg, s, w).pass.excluded == sent.excluded + (if RulesOut(cfg, s, w) then {served.key} else {})
  {
    hide Judge, FailureBill, Collect, Attempt, ListedStatus, ServedBy, PassAfter;
    AttemptFails(cfg, s, w);
    TripIsEnvironmental(w);
  }

  /**
   * It fails the member's group exactly for a stall, a status the group lists, or an environmental failure of the
   * member's last try.
   */
  lemma GroupRule(cfg: Config, s: State, w: World)
    requires Made(s, w) && !Complete(Collect(w, 0))
    ensures var served, sent := ServedBy(cfg, w.env, s.pass), PassAfter(cfg, w.env, s.pass);
      Attempt(cfg, s, w).pass.failedGroups ==
        sent.failedGroups + (if FailsGroup(cfg, w, served) && served.group.Some? then {served.group.value} else {})
  {
    hide Judge, FailureBill, Collect, Attempt, ListedStatus, ServedBy, PassAfter;
    AttemptFails(cfg, s, w);
    TripIsEnvironmental(w);
  }

  /** The member has refused exactly after a refusal that does not start the request over; that forgets them all. */
  lemma RefusedRule(cfg: Config, s: State, w: World)
    requires Made(s, w) && !Complete(Collect(w, 0))
    ensures var j := Retryable(Judge(w, Collect(w, 0)));
      var served, sent := ServedBy(cfg, w.env, s.pass), PassAfter(cfg, w.env, s.pass);
      var over := j.cls.Refusal? && !j.expired && !w.pastDeadline && w.rule == Some(Redo);
      Attempt(cfg, s, w).pass.refused ==
        if over then {} else sent.refused + (if j.cls.Refusal? && cfg.members != [] then {served.key} else {})
  {
    hide Judge, FailureBill, Collect, Attempt, ListedStatus, ServedBy, PassAfter;
    AttemptFails(cfg, s, w);
  }

  lemma {:induction false} TripHasTokens(w: World, k: nat)
    requires k <= |w.events| && Collect(w, k).degenerate
    ensures exists i | 0 <= i < |Collect(w, k).buffered| :: !Collect(w, k).buffered[i].Start?
    decreases |w.events| - k
  {
    var c := Collect(w, k);
    if TripsAt(w, k) {
      assert c.buffered[0].Delta?;
    } else {
      TripHasTokens(w, k + 1);
      var rest := Collect(w, k + 1).buffered;
      var i :| 0 <= i < |rest| && !rest[i].Start?;
      assert c.buffered[i + 1] == rest[i];
    }
  }

  lemma TripIsEnvironmental(w: World)
    ensures var j := Judge(w, Collect(w, 0)); Retryable(j).trip == j.trip && (j.trip ==> j.cls.Aborted? && !j.stall)
  {
    hide Collect;
    if Collect(w, 0).degenerate { TripHasTokens(w, 0); }
  }

  // ---------------------------------------------------------------------------
  // Before the first attempt, and the bill
  // ---------------------------------------------------------------------------

  /** A request whose cost check fails beforehand is never sent: it surfaces at once. */
  lemma PreflightRule(cfg: Config)
    ensures Run(cfg, []) ==
      if cfg.preflight.None? then IDLE
      else IDLE.(out := [StreamEvent.Failed(OverCost(cfg.preflight.value).(tag := Some(Content)))], ending := Surfaced)
  {
  }

  /** The provider charges for the attempt although its stream was cut: the caller aborted it, or the guard did. */
  ghost predicate CutOnWire(cfg: Config, w: World) {
    && cfg.abortedHook && !w.abortedAtStart && !w.neverAdmitted
    && Judge(w, Collect(w, 0)).cls.Aborted?
    && (w.callerAborted || Judge(w, Collect(w, 0)).trip)
  }

  predicate AnyUse(u: Usage) {
    !(u.totalTokens == 0 && u.input == 0 && u.output == 0 && u.cacheRead == 0 && u.cacheWrite == 0 && u.cost <= 0.0)
  }

  /**
   * A failed attempt cut on the wire is billed as an estimate; any other for the usage its failure reports, if that is
   * not all zero; each through its hook.
   */
  lemma BillRule(cfg: Config, s: State, w: World)
    requires Made(s, w) && !Complete(Collect(w, 0))
    ensures var usage := FailureOf(Collect(w, 0)).usage;
      Attempt(cfg, s, w).billed == s.billed
        + if CutOnWire(cfg, w) then [Estimated(s.attempt)]
          else if cfg.committedHook && usage.Some? && AnyUse(usage.value) then [Reported(s.attempt, usage.value)]
          else []
  {
    hide Judge, Collect, Attempt, ServedBy, PassAfter, Marked;
    AttemptFails(cfg, s, w);
  }
}
