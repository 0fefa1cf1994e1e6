/** What lies between the boundaries of a session: which run is under way, and which messages its last attempt holds. */
module RunSpans {
  import opened Transcript
  import opened Chronology
  import opened Derivation

  // ---------------------------------------------------------------------------
  // Boundaries
  // ---------------------------------------------------------------------------

  predicate Starts(x: Item) {
    x.Said? && !x.excluded && IsRunStart(x.m)
  }

  predicate Records(x: Item) {
    x.Said? && !x.excluded && IsRecordTurn(x.m)
  }

  predicate Prompts(x: Item) {
    x.Said? && !x.excluded && IsNudge(x.m)
  }

  predicate Forks(x: Item) {
    x.Cut? && !x.excluded
  }

  predicate Redoes(x: Item) {
    Forks(x) && x.reason.ContractRedo?
  }

  /** An attempt ends before it. */
  predicate Boundary(x: Item) {
    Starts(x) || Records(x) || Prompts(x) || Redoes(x)
  }

  /** A run is under way, unless a record turn was the last to start. */
  ghost predicate UnderWay(items: seq<Item>) {
    forall i | 0 <= i < |items| && Records(items[i]) :: exists j | i < j < |items| :: Starts(items[j])
  }

  /** Item `i` is a message of the attempt under way: no boundary came after it, and no fork took it back. */
  ghost predicate InSpan(items: seq<Item>, i: nat) {
    && i < |items| && items[i].Said? && !items[i].excluded && !Prompts(items[i]) && !Records(items[i])
    && (forall j | i < j < |items| :: !Boundary(items[j]))
    && (forall j | i < j < |items| && Forks(items[j]) :: items[j].no != items[i].loc)
  }

  ghost function SpanTo(items: seq<Item>, n: nat): seq<Located>
    requires n <= |items|
  {
    if n == 0 then [] else
      SpanTo(items, n - 1) + (if InSpan(items, n - 1) then [Located(items[n - 1].m, items[n - 1].loc)] else [])
  }

  /** The messages of the attempt under way, in order. */
  ghost function SpanOf(items: seq<Item>): seq<Located> {
    SpanTo(items, |items|)
  }

  lemma UnderWayNext(items: seq<Item>, x: Item)
    ensures UnderWay(items + [x]) <==> Starts(x) || (!Records(x) && UnderWay(items))
  {
    var all := items + [x];
    assert all[|items|] == x && forall i | 0 <= i < |items| :: all[i] == items[i];
    if Starts(x) {
      assert Starts(all[|items|]);
    } else if Records(x) {
      assert Records(all[|items|]);
    } else if UnderWay(items) {
      forall i | 0 <= i < |all| && Records(all[i]) ensures exists j | i < j < |all| :: Starts(all[j]) {
        var j :| i < j < |items| && Starts(items[j]);
        assert Starts(all[j]);
      }
    } else {
      var i :| 0 <= i < |items| && Records(items[i]) && forall j | i < j < |items| :: !Starts(items[j]);
      assert Records(all[i]);
    }
  }

  /** What one more item does to the messages before it. */
  lemma {:induction false} SpanBefore(items: seq<Item>, x: Item, n: nat)
    requires n <= |items|
    ensures SpanTo(items + [x], n) ==
      if Boundary(x) then []
      else if Forks(x) then WithoutBranch(SpanTo(items, n), x.no)
      else SpanTo(items, n)
  {
    if n > 0 {
      var all := items + [x];
      SpanBefore(items, x, n - 1);
      assert all[|items|] == x && all[n - 1] == items[n - 1];
      assert forall j | 0 <= j < |items| :: all[j] == items[j];
      assert InSpan(all, n - 1) <==>
        InSpan(items, n - 1) && !Boundary(x) && !(Forks(x) && x.no == items[n - 1].loc);
      var before := SpanTo(items, n - 1);
      assert before + [] == before && SpanTo(all, n - 1) + [] == SpanTo(all, n - 1);
      if InSpan(items, n - 1) && Forks(x) {
        var y := Located(items[n - 1].m, items[n - 1].loc);
        assert (before + [y])[..|before|] == before;
      }
    }
  }

  lemma SpanNext(items: seq<Item>, x: Item)
    ensures SpanOf(items + [x]) ==
      if Starts(x) then [Located(x.m, x.loc)]
      else if Boundary(x) then []
      else if Forks(x) then WithoutBranch(SpanOf(items), x.no)
      else if x.Said? && !x.excluded then SpanOf(items) + [Located(x.m, x.loc)]
      else SpanOf(items)
  {
    SpanBefore(items, x, |items|);
    assert (items + [x])[|items|] == x;
    assert InSpan(items + [x], |items|) <==> x.Said? && !x.excluded && !Prompts(x) && !Records(x);
  }

  /** The walk is in a run exactly when one is under way, and holds the messages of its last attempt. */
  lemma {:induction false} WalkReads(items: seq<Item>)
    ensures Walk(items).run.Some? <==> UnderWay(items)
    ensures Walk(items).run.Some? ==> Walk(items).run.value.span == SpanOf(items)
  {
    hide InSpan, UnderWay, SpanOf, CloseSpan, WithoutBranch;
    if items == [] {
      NothingRead();
    } else {
      var init, x := items[..|items| - 1], items[|items| - 1];
      WalkReads(init);
      UnderWayNext(init, x);
      SpanNext(init, x);
      assert items == init + [x];
    }
  }

  lemma NothingRead()
    ensures UnderWay([]) && SpanOf([]) == []
  {
  }

  // ---------------------------------------------------------------------------
  // Numbers and variants
  // ---------------------------------------------------------------------------

  /** The numbering starts over. */
  predicate Resets(x: Item) {
    Starts(x) || Forks(x)
  }

  predicate Anchors(x: Item) {
    Resets(x) || (Prompts(x) && NudgeAttemptOf(x.m).Some?)
  }

  /** The prompts without a number. */
  function Unnumbered(items: seq<Item>): nat {
    if items == [] then 0 else
      var x := items[|items| - 1];
      Unnumbered(items[..|items| - 1]) + (if Prompts(x) && NudgeAttemptOf(x.m).None? then 1 else 0)
  }

  /** `no` counts the prompts after item `i - 1`, the last that numbers or starts over, from its number. */
  ghost predicate CountedFrom(items: seq<Item>, i: nat, no: int)
    requires i <= |items|
  {
    && (forall j | i <= j < |items| :: !Anchors(items[j]))
    && (i > 0 ==> Anchors(items[i - 1]))
    && no == Unnumbered(items[i..])
             + if i > 0 && Prompts(items[i - 1]) then NudgeAttemptOf(items[i - 1].m).value else 0
  }

  ghost predicate NumberIs(items: seq<Item>, no: int) {
    exists i | 0 <= i <= |items| :: CountedFrom(items, i, no)
  }

  /** The variant is that of the last prompt, unless the numbering started over after it. */
  ghost predicate VariantIs(items: seq<Item>, v: AttemptVariant) {
    match v
    case Original => forall i | 0 <= i < |items| && Prompts(items[i]) :: exists j | i < j < |items| :: Resets(items[j])
    case Nudged(w) =>
      exists i | 0 <= i < |items| && Prompts(items[i]) && NudgeVariantOf(items[i].m) == w ::
        forall j | i < j < |items| :: !Prompts(items[j]) && !Resets(items[j])
  }

  lemma NumberNext(items: seq<Item>, x: Item, no: int)
    requires NumberIs(items, no)
    ensures NumberIs(items + [x],
      if Resets(x) then 0
      else if Prompts(x) then if NudgeAttemptOf(x.m).Some? then NudgeAttemptOf(x.m).value else no + 1
      else no)
  {
    var all := items + [x];
    assert all[|items|] == x && forall j | 0 <= j < |items| :: all[j] == items[j];
    if Anchors(x) {
      assert all[|all|..] == [];
      assert CountedFrom(all, |all|, if Resets(x) then 0 else NudgeAttemptOf(x.m).value);
    } else {
      var i :| 0 <= i <= |items| && CountedFrom(items, i, no);
      assert all[i..][..|all[i..]| - 1] == items[i..] && all[i..][|all[i..]| - 1] == x;
      assert CountedFrom(all, i, if Prompts(x) then no + 1 else no);
    }
  }

  lemma VariantNext(items: seq<Item>, x: Item, v: AttemptVariant)
    requires VariantIs(items, v)
    ensures VariantIs(items + [x],
      if Resets(x) then Original else if Prompts(x) then Nudged(NudgeVariantOf(x.m)) else v)
  {
    var all := items + [x];
    assert all[|items|] == x && forall j | 0 <= j < |items| :: all[j] == items[j];
    if Resets(x) {
      assert Resets(all[|items|]) && !Prompts(x);
    } else if Prompts(x) {
      assert Prompts(all[|items|]);
    } else if v.Nudged? {
      var i :| 0 <= i < |items| && Prompts(items[i]) && NudgeVariantOf(items[i].m) == v.v
        && forall j | i < j < |items| :: !Prompts(items[j]) && !Resets(items[j]);
      assert Prompts(all[i]);
    } else {
      forall i | 0 <= i < |all| && Prompts(all[i]) ensures exists j | i < j < |all| :: Resets(all[j]) {
        var j :| i < j < |items| && Resets(items[j]);
        assert Resets(all[j]);
      }
    }
  }

  /** The contract redos made while a run was under way. */
  ghost function RedosIn(items: seq<Item>): nat {
    if items == [] then 0 else
      var init, x := items[..|items| - 1], items[|items| - 1];
      RedosIn(init) + (if Redoes(x) && UnderWay(init) then 1 else 0)
  }

  ghost function PromptsIn(items: seq<Item>): nat {
    if items == [] then 0 else
      var init, x := items[..|items| - 1], items[|items| - 1];
      PromptsIn(init) + (if Prompts(x) && UnderWay(init) then 1 else 0)
  }

  /** The walk's counters: redos, prompts, and the number and variant of the attempt under way. */
  lemma {:induction false} WalkCounts(items: seq<Item>)
    ensures var p := Walk(items);
      && p.redoNo == p.redos == RedosIn(items) && p.nudges == PromptsIn(items)
      && (p.run.Some? ==> NumberIs(items, p.run.value.natural) && VariantIs(items, p.run.value.variant))
  {
    hide UnderWay, NumberIs, VariantIs, CloseSpan, WithoutBranch;
    if items == [] {
      NothingCounted();
    } else {
      var init, x := items[..|items| - 1], items[|items| - 1];
      WalkCounts(init);
      WalkReads(init);
      var p := Walk(init);
      assert items == init + [x];
      if p.run.Some? {
        NumberNext(init, x, p.run.value.natural);
        VariantNext(init, x, p.run.value.variant);
      } else if Starts(x) {
        StartCounts(init, x);
      }
    }
  }

  lemma NothingCounted()
    ensures NumberIs([], 0) && VariantIs([], Original)
  {
    assert CountedFrom([], 0, 0);
  }

  lemma StartCounts(items: seq<Item>, x: Item)
    requires Starts(x)
    ensures NumberIs(items + [x], 0) && VariantIs(items + [x], Original)
  {
    var all := items + [x];
    assert all[|items|] == x && all[|all|..] == [];
    assert CountedFrom(all, |all|, 0);
    assert Resets(all[|items|]) && !Prompts(x);
  }

  // ---------------------------------------------------------------------------
  // Deliveries
  // ---------------------------------------------------------------------------

  predicate Posts(x: Item, id: string) {
    x.Said? && !x.excluded && exists k | 0 <= k < |ModelCalls(x.m)| :: ModelCalls(x.m)[k].id == id
                                                                       && IsPosting(ModelCalls(x.m)[k].name)
  }

  predicate Answers(x: Item, id: string) {
    x.Said? && !x.excluded && x.m.ToolResult? && !x.m.isError && x.m.callId == id
  }

  /** Item `i` made the posting call in the run under way. */
  ghost predicate PostedBy(items: seq<Item>, i: int, id: string) {
    0 <= i < |items| && Posts(items[i], id) && forall j | i < j < |items| :: !Starts(items[j])
  }

  ghost predicate PostedIn(items: seq<Item>, id: string) {
    exists i :: PostedBy(items, i, id)
  }

  /** The answer to the call came without an error. */
  ghost predicate DeliveredBy(items: seq<Item>, i: int, j: int, id: string) {
    PostedBy(items, i, id) && i < j < |items| && Answers(items[j], id)
  }

  ghost predicate DeliveredIn(items: seq<Item>) {
    exists i, j, id :: DeliveredBy(items, i, j, id)
  }

  lemma PostedNext(items: seq<Item>, x: Item, id: string)
    ensures PostedIn(items + [x], id) <==> Posts(x, id) || (!Starts(x) && PostedIn(items, id))
  {
    var all := items + [x];
    assert all[|items|] == x && forall j | 0 <= j < |items| :: all[j] == items[j];
    if Posts(x, id) { assert PostedBy(all, |items|, id); }
    if i :| PostedBy(items, i, id) && !Starts(x) { assert PostedBy(all, i, id); }
    if i :| PostedBy(all, i, id) && i < |items| { assert PostedBy(items, i, id); }
  }

  lemma PostsAre(x: Item, id: string)
    ensures Posts(x, id) <==> x.Said? && !x.excluded && IsModelMessage(x.m) && id in PostingIds(x.m.calls)
  {
    if x.Said? && IsModelMessage(x.m) {
      assert ModelCalls(x.m) == x.m.calls;
      assert id in PostingIds(x.m.calls) <==>
        exists k | 0 <= k < |x.m.calls| :: x.m.calls[k].id == id && IsPosting(x.m.calls[k].name);
    }
  }

  lemma DeliveredNext(items: seq<Item>, x: Item)
    ensures DeliveredIn(items + [x]) <==>
      !Starts(x) && (DeliveredIn(items) || exists id :: Answers(x, id) && PostedIn(items, id))
  {
    hide Posts, Answers, Starts;
    var all := items + [x];
    assert all[|items|] == x && forall j | 0 <= j < |items| :: all[j] == items[j];
    if DeliveredIn(all) {
      var i, j, id :| DeliveredBy(all, i, j, id);
      assert PostedBy(items, i, id);
      if j < |items| { assert DeliveredBy(items, i, j, id); }
    }
    if !Starts(x) {
      if DeliveredIn(items) {
        var i, j, id :| DeliveredBy(items, i, j, id);
        assert DeliveredBy(all, i, j, id);
      }
      if id :| Answers(x, id) && PostedIn(items, id) {
        var i :| PostedBy(items, i, id);
        assert DeliveredBy(all, i, |items|, id);
      }
    }
  }

  /** One step of the walk, as far as deliveries go. */
  lemma NextDelivers(p: Progress, x: Item)
    requires Next(p, x).run.Some? && (p.run.Some? || Starts(x))
    ensures var run := Next(p, x).run.value;
      && (forall id :: id in run.postingCalls <==> Posts(x, id) || (!Starts(x) && id in p.run.value.postingCalls))
      && (run.delivered <==>
            !Starts(x) && (p.run.value.delivered || exists id :: Answers(x, id) && id in p.run.value.postingCalls))
  {
    hide CloseSpan, WithoutBranch, Posts, PostingIds;
    forall id ensures Posts(x, id) <==> x.Said? && !x.excluded && IsModelMessage(x.m) && id in PostingIds(x.m.calls) {
      PostsAre(x, id);
    }
    if x.Said? && x.m.ToolResult? && !x.m.isError && !x.excluded { assert Answers(x, x.m.callId); }
  }

  /**
   * The run under way has delivered exactly when, since it started, a posting call of a model message was answered
   * without an error after it.
   */
  lemma {:induction false} WalkDelivers(items: seq<Item>)
    requires UnderWay(items)
    ensures Walk(items).run.Some?
    ensures forall id :: id in Walk(items).run.value.postingCalls <==> PostedIn(items, id)
    ensures Walk(items).run.value.delivered <==> DeliveredIn(items)
  {
    hide UnderWay, PostedIn, DeliveredIn, Next, Posts, Answers;
    WalkReads(items);
    if items == [] {
      NothingDelivered();
    } else {
      var init, x := items[..|items| - 1], items[|items| - 1];
      assert items == init + [x];
      UnderWayNext(init, x);
      WalkReads(init);
      if UnderWay(init) { WalkDelivers(init); }
      NextDelivers(Walk(init), x);
      DeliveredNext(init, x);
      forall id ensures PostedIn(items, id) <==> Posts(x, id) || (!Starts(x) && PostedIn(init, id)) {
        PostedNext(init, x, id);
      }
    }
  }

  lemma NothingDelivered()
    ensures !DeliveredIn([]) && forall id :: !PostedIn([], id)
  {
  }
}
