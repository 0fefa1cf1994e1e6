/** How far a session run can go: one contract redo per delivered message, and a bounded number of nudges. */
module RedoBound {
  import opened Transcript
  import opened Chronology
  import opened Forks
  import opened ForkSafety
  import opened Derivation
  import opened Runners

  /** The messages that delivered something. */
  function Deliveries(ms: seq<Message>): nat {
    if ms == [] then 0 else Deliveries(ms[..|ms| - 1]) + (if IsDelivery(ms[|ms| - 1]) then 1 else 0)
  }

  ghost predicate NoDelivery(ms: seq<Message>) {
    forall i :: 0 <= i < |ms| ==> !IsDelivery(ms[i])
  }

  lemma {:induction false} FailurePointShape(ms: seq<Message>)
    ensures var p := FailurePoint(ms);
      && (p > 0 ==> IsDelivery(ms[p - 1]))
      && NoDelivery(ms[p..])
  {
    if ms != [] && !IsDelivery(ms[|ms| - 1]) {
      var init := ms[..|ms| - 1];
      FailurePointShape(init);
      var p := FailurePoint(init);
      assert ms[p..] == init[p..] + [ms[|ms| - 1]];
    }
  }

  lemma {:induction false} DeliveriesConcat(a: seq<Message>, b: seq<Message>)
    ensures Deliveries(a + b) == Deliveries(a) + Deliveries(b)
    ensures FailurePoint(a + b) == if FailurePoint(b) > 0 then |a| + FailurePoint(b) else FailurePoint(a)
  {
    if b == [] {
      assert a + b == a;
    } else {
      assert (a + b)[..|a + b| - 1] == a + b[..|b| - 1];
      DeliveriesConcat(a, b[..|b| - 1]);
    }
  }

  lemma {:induction false} NoneDelivered(ms: seq<Message>)
    ensures NoDelivery(ms) <==> Deliveries(ms) == 0
    ensures NoDelivery(ms) <==> FailurePoint(ms) == 0
  {
    if ms != [] {
      var init := ms[..|ms| - 1];
      NoneDelivered(init);
      assert ms == init + [ms[|ms| - 1]];
      if NoDelivery(init) && !IsDelivery(ms[|ms| - 1]) {
        assert NoDelivery(ms);
      } else if !NoDelivery(init) {
        var i :| 0 <= i < |init| && IsDelivery(init[i]);
        assert IsDelivery(ms[i]);
      }
    }
  }

  /** A delivered message lies before the cut of a contract redo. */
  lemma DeliveryIsKept(ms: seq<Message>, r: nat)
    requires WellFormed(ms) && r < |ms| && IsDelivery(ms[r])
    ensures r < PointFor(ms, None).index
  {
    var o, c := Owner(ms, r), PointFor(ms, None).index;
    FloorIsClean(ms);
    EffectEndShape(ms, Floor(ms), |ms|);
    assert Answers(ms[o], ms[r]);
    var a :| 0 <= a < |ms[o].calls| && ms[o].calls[a].id == ms[r].callId && ms[o].calls[a].name == ms[r].toolName;
    ResultsComplete(ms, r);
    assert HasEffect(ResultsOf(ms), ms[o].calls[a]);
    assert o < c;
    CleanCutSplits(ms, c, r);
  }

  /** What a contract redo puts after its cut: the interjections of the discarded span. */
  lemma ExtraIsInterjections(ms: seq<Message>)
    requires ForkErrorOf(ms, PointFor(ms, None)).None?
    ensures var extra := Extra(ms, PointFor(ms, None));
      forall k :: 0 <= k < |extra| ==> extra[k].Interjection?
  {
    var point := PointFor(ms, None);
    var again := Redelivered(ms[point.index..], ms[..point.index] + []);
    RedeliveredShape(ms[point.index..], ms[..point.index] + []);
    assert Extra(ms, point) == again;
    forall k | 0 <= k < |again| ensures again[k].Interjection? {
      assert again[k] in again;
    }
  }

  /** A contract redo discards no delivered message, and leaves the failure point where it was. */
  lemma ContractForkKeepsFailurePoint(ms: seq<Message>)
    requires WellFormed(ms) && ForkErrorOf(ms, PointFor(ms, None)).None?
    ensures FailurePoint(KeptList(ms, PointFor(ms, None))) == FailurePoint(ms)
    ensures Deliveries(KeptList(ms, PointFor(ms, None))) == Deliveries(ms)
  {
    hide CutIndex, GatedBy, SiblingEffect, WellFormed;
    var point := PointFor(ms, None);
    var c, extra := point.index, Extra(ms, point);
    ExtraIsInterjections(ms);
    assert NoDelivery(ms[c..]) by {
      forall i | 0 <= i < |ms[c..]| ensures !IsDelivery(ms[c..][i]) {
        if IsDelivery(ms[c + i]) { DeliveryIsKept(ms, c + i); }
      }
    }
    NoneDelivered(ms[c..]);
    assert NoDelivery(extra);
    NoneDelivered(extra);
    DeliveriesConcat(ms[..c], ms[c..]);
    DeliveriesConcat(ms[..c], extra);
    assert ms[..c] + ms[c..] == ms;
  }

  // ---------------------------------------------------------------------------
  // The bound
  // ---------------------------------------------------------------------------

  /** Every turn the agent takes leaves a well-formed transcript. */
  ghost predicate Faithful(cfg: Config, r: Run, turns: seq<seq<Message>>) {
    turns != [] ==>
      var before := turns[..|turns| - 1];
      Faithful(cfg, r, before) && WellFormed(Say(Trace(cfg, r, before), turns[|turns| - 1]).session.live)
  }

  /** Distinct failure points already redone, and whether the current one still may be. */
  function Claims(r: Run): nat {
    |r.contractRedone| + (if FailurePoint(r.session.live) in r.contractRedone then 0 else 1)
  }

  ghost predicate Bounded(cfg: Config, r: Run, base: nat) {
    var live := r.session.live;
    && (forall x :: x in r.contractRedone ==> x <= FailurePoint(live))
    && base <= Deliveries(live)
    && r.redos <= |r.contractRedone|
    && Claims(r) <= 1 + Deliveries(live) - base
    && r.retries <= cfg.maxRetries
    && r.nudges <= cfg.maxRetries * r.redos + r.retries
  }

  lemma SayBounded(cfg: Config, r: Run, base: nat, ms: seq<Message>)
    requires Bounded(cfg, r, base)
    ensures Bounded(cfg, Say(r, ms), base)
    ensures FailurePoint(r.session.live) <= FailurePoint(Say(r, ms).session.live)
  {
    DeliveriesConcat(r.session.live, ms);
    NoneDelivered(ms);
    FailurePointShape(r.session.live);
  }

  lemma NudgeBudget(m: nat, redos: nat)
    ensures m * (redos + 1) == m * redos + m
  {}

  lemma RedoBounded(cfg: Config, r: Run, base: nat)
    requires Bounded(cfg, r, base) && WellFormed(r.session.live) && r.retries == cfg.maxRetries
    requires FailurePoint(r.session.live) !in r.contractRedone
    ensures Bounded(cfg, RedoContract(r), base)
    ensures FailurePoint(r.session.live) == FailurePoint(RedoContract(r).session.live)
  {
    hide FailurePoint, Deliveries, PointFor, ForkErrorOf, KeptList, NextNo, Extra, SettledRow, WellFormed;
    var live := r.session.live;
    if ForkErrorOf(live, PointFor(live, None)).None? {
      ContractForkKeepsFailurePoint(live);
      NudgeBudget(cfg.maxRetries, r.redos);
    }
  }

  lemma ForceBounded(cfg: Config, r: Run, base: nat)
    requires Bounded(cfg, r, base) && r.retries < cfg.maxRetries
    ensures Bounded(cfg, ForceCompletion(r), base)
    ensures FailurePoint(r.session.live) <= FailurePoint(ForceCompletion(r).session.live)
  {
    hide FailurePoint, Deliveries, NudgeVariantFor, SettledRow;
    var live := r.session.live;
    var counted := r.(retries := r.retries + 1, nudges := r.nudges + 1);
    assert Bounded(cfg, counted, base);
    if live != [] && live[|live| - 1].Assistant? {
      var v := NudgeVariantFor(live);
      var told := counted.(prompts := r.prompts + 1, rows := r.rows + [SettledRow(r)],
                           natural := r.retries + 1, variant := Nudged(v));
      assert Bounded(cfg, told, base);
      SayBounded(cfg, told, base, [NudgePrompt(r.retries + 1, v)]);
    }
  }

  /** One request keeps the bounds, and never moves the failure point back. */
  lemma TurnBounded(cfg: Config, r: Run, base: nat, turn: seq<Message>)
    requires Bounded(cfg, r, base) && WellFormed(Say(r, turn).session.live)
    ensures Bounded(cfg, Turn(cfg, r, turn), base)
    ensures FailurePoint(r.session.live) <= FailurePoint(Turn(cfg, r, turn).session.live)
  {
    if r.status.Running? {
      var heard := Say(r, turn);
      SayBounded(cfg, r, base, turn);
      var live := heard.session.live;
      if TerminallyValid(live) || WasAborted(live) {
        assert Turn(cfg, r, turn) == Finish(heard);
      } else if heard.retries < cfg.maxRetries {
        ForceBounded(cfg, heard, base);
      } else if cfg.contractRedo && FailurePoint(live) !in heard.contractRedone {
        RedoBounded(cfg, heard, base);
      } else {
        assert Turn(cfg, r, turn) == Finish(heard);
      }
    }
  }

  /** The failure point never moves back over a run, and the bounds hold throughout. */
  lemma {:induction false} TraceBounded(cfg: Config, first: Run, base: nat, turns: seq<seq<Message>>)
    requires Bounded(cfg, first, base) && Faithful(cfg, first, turns)
    ensures Bounded(cfg, Trace(cfg, first, turns), base)
    ensures FailurePoint(first.session.live) <= FailurePoint(Trace(cfg, first, turns).session.live)
  {
    if turns != [] {
      var before := turns[..|turns| - 1];
      TraceBounded(cfg, first, base, before);
      TurnBounded(cfg, Trace(cfg, first, before), base, turns[|turns| - 1]);
    }
  }

  /**
   * A run makes at most one contract redo more than the messages it delivered, all of which are still in the
   * transcript it ends with, and at most `maxRetries` nudges for each of its spans.
   */
  lemma RunIsBounded(cfg: Config, s: Session, log: seq<Event>, kickoff: seq<Message>, turns: seq<seq<Message>>)
    requires Faithful(cfg, Begin(s, log, kickoff), turns)
    ensures var r := Trace(cfg, Begin(s, log, kickoff), turns);
      && Deliveries(s.live + kickoff) <= Deliveries(r.session.live)
      && r.redos <= 1 + Deliveries(r.session.live) - Deliveries(s.live + kickoff)
      && r.nudges <= cfg.maxRetries * (1 + r.redos)
  {
    hide Faithful, Trace;
    var first := Begin(s, log, kickoff);
    assert Bounded(cfg, first, Deliveries(s.live + kickoff));
    TraceBounded(cfg, first, Deliveries(s.live + kickoff), turns);
    NudgeBudget(cfg.maxRetries, Trace(cfg, first, turns).redos);
  }
}
