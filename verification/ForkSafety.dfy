/** No fork discards a delivered effect, orphans a result, or loses an interjection. */
module ForkSafety {
  import opened Transcript
  import opened Chronology
  import opened Forks

  // ---------------------------------------------------------------------------
  // Well-formed transcripts
  // ---------------------------------------------------------------------------

  /** The message a tool result at `i` directly follows, other results aside. */
  function Owner(ms: seq<Message>, i: nat): (o: nat)
    requires i < |ms|
    ensures o <= i
  {
    if i > 0 && ms[i].ToolResult? then Owner(ms, i - 1) else i
  }

  ghost predicate UniqueCalls(ms: seq<Message>) {
    forall i, a, j, b |
      0 <= i < |ms| && 0 <= a < |Calls(ms[i])| && 0 <= j < |ms| && 0 <= b < |Calls(ms[j])|
      && Calls(ms[i])[a].id == Calls(ms[j])[b].id :: i == j && a == b
  }

  ghost predicate UniqueResults(ms: seq<Message>) {
    forall i, j :: 0 <= i < j < |ms| && ms[i].ToolResult? && ms[j].ToolResult? ==> ms[i].callId != ms[j].callId
  }

  ghost predicate Answers(m: Message, r: Message) {
    && m.Assistant? && r.ToolResult?
    && HarnessMade(m) == HarnessMade(r)
    && exists a :: 0 <= a < |m.calls| && m.calls[a].id == r.callId && m.calls[a].name == r.toolName
  }

  /** Call ids are unique, and every result answers a call of the message it directly follows. */
  ghost predicate WellFormed(ms: seq<Message>) {
    && UniqueCalls(ms)
    && UniqueResults(ms)
    && forall i :: 0 <= i < |ms| && ms[i].ToolResult? ==> Answers(ms[Owner(ms, i)], ms[i])
  }

  lemma {:induction false} OwnerSpan(ms: seq<Message>, i: nat)
    requires i < |ms|
    ensures forall k :: Owner(ms, i) < k <= i ==> ms[k].ToolResult?
  {
    if i > 0 && ms[i].ToolResult? { OwnerSpan(ms, i - 1); }
  }

  lemma {:induction false} OwnerOfPrefix(ms: seq<Message>, c: nat, i: nat)
    requires i < c <= |ms|
    ensures Owner(ms[..c], i) == Owner(ms, i)
  {
    if i > 0 && ms[i].ToolResult? { OwnerOfPrefix(ms, c, i - 1); }
  }

  lemma {:induction false} ResultsAreResults(ms: seq<Message>)
    ensures forall id :: id in ResultsOf(ms) ==>
      var o := ResultsOf(ms)[id];
      o.index < |ms| && ms[o.index].ToolResult? && ms[o.index].callId == id && ms[o.index].isError == o.isError
  {
    if ms != [] { ResultsAreResults(ms[..|ms| - 1]); }
  }

  lemma {:induction false} ResultsComplete(ms: seq<Message>, i: nat)
    requires i < |ms| && ms[i].ToolResult? && UniqueResults(ms)
    ensures ms[i].callId in ResultsOf(ms) && ResultsOf(ms)[ms[i].callId] == Outcome(i, ms[i].isError)
  {
    var n := |ms| - 1;
    if i < n {
      ResultsComplete(ms[..n], i);
      if ms[n].ToolResult? { assert ms[i].callId != ms[n].callId; }
    }
  }

  /** The cut does not fall between a message and its results. */
  ghost predicate CleanCut(ms: seq<Message>, c: nat) {
    c <= |ms| && (c < |ms| ==> !ms[c].ToolResult?)
  }

  lemma CleanCutSplits(ms: seq<Message>, c: nat, r: nat)
    requires CleanCut(ms, c) && r < |ms|
    ensures r < c <==> Owner(ms, r) < c
  {
    OwnerSpan(ms, r);
  }

  /** A result answers the one call with its id. */
  lemma OwnerOfCall(ms: seq<Message>, i: nat, a: nat, r: nat)
    requires WellFormed(ms) && i < |ms| && a < |Calls(ms[i])|
    requires r < |ms| && ms[r].ToolResult? && ms[r].callId == Calls(ms[i])[a].id
    ensures Owner(ms, r) == i && i < r
  {
    var o := Owner(ms, r);
    var b :| 0 <= b < |ms[o].calls| && ms[o].calls[b].id == ms[r].callId;
    assert Calls(ms[o])[b].id == Calls(ms[i])[a].id;
  }

  // ---------------------------------------------------------------------------
  // Where the fork point falls
  // ---------------------------------------------------------------------------

  lemma {:induction false} GroupEndShape(calls: seq<ToolCall>, results: map<string, Outcome>, i: nat)
    ensures var end := GroupEnd(calls, results, i);
      && (forall k :: 0 <= k < |calls| && calls[k].id in results ==> results[calls[k].id].index <= end)
      && (end == i || exists k :: 0 <= k < |calls| && calls[k].id in results && results[calls[k].id].index == end)
  {
    if calls != [] {
      var init := calls[..|calls| - 1];
      GroupEndShape(init, results, i);
      var end := GroupEnd(init, results, i);
      if end != i {
        var k :| 0 <= k < |init| && init[k].id in results && results[init[k].id].index == end;
        assert calls[k] == init[k];
      }
      assert forall k :: 0 <= k < |init| ==> init[k] == calls[k];
    }
  }

  lemma GroupHolds(ms: seq<Message>, i: nat, r: nat)
    requires WellFormed(ms) && i < |ms| && ms[i].Assistant?
    requires r < |ms| && ms[r].ToolResult? && Owner(ms, r) == i
    ensures r <= GroupEnd(ms[i].calls, ResultsOf(ms), i)
  {
    var calls := ms[i].calls;
    GroupEndShape(calls, ResultsOf(ms), i);
    ResultsComplete(ms, r);
    var a :| 0 <= a < |calls| && calls[a].id == ms[r].callId;
    assert calls[a].id in ResultsOf(ms);
  }

  /** The end of a group is a clean cut, still inside its own results. */
  lemma GroupEndIsClean(ms: seq<Message>, i: nat)
    requires WellFormed(ms) && i < |ms| && ms[i].Assistant?
    ensures var end := GroupEnd(ms[i].calls, ResultsOf(ms), i);
      end < |ms| && CleanCut(ms, end + 1) && Owner(ms, end) == i
  {
    hide WellFormed, ResultsOf, GroupEnd;
    var results, calls := ResultsOf(ms), ms[i].calls;
    var end := GroupEnd(calls, results, i);
    GroupEndShape(calls, results, i);
    ResultsAreResults(ms);
    if end != i {
      var k :| 0 <= k < |calls| && calls[k].id in results && results[calls[k].id].index == end;
      OwnerOfCall(ms, i, k, end);
    }
    if end + 1 < |ms| && ms[end + 1].ToolResult? { GroupHolds(ms, i, end + 1); }
  }

  lemma {:induction false} RunStartPlace(ms: seq<Message>)
    ensures var k := AfterRunStart(ms);
      k > 0 ==> IsRunStart(ms[k - 1])
  {
    if ms != [] && !IsRunStart(ms[|ms| - 1]) { RunStartPlace(ms[..|ms| - 1]); }
  }

  lemma {:induction false} PastHarnessShape(ms: seq<Message>, k: nat)
    requires k <= |ms|
    ensures var f := PastHarness(ms, k);
      && (forall i :: k <= i < f ==> HarnessMade(ms[i]))
      && (f < |ms| ==> !HarnessMade(ms[f]))
    decreases |ms| - k
  {
    if k < |ms| && HarnessMade(ms[k]) { PastHarnessShape(ms, k + 1); }
  }

  lemma OwnerNotBefore(ms: seq<Message>, k: nat, r: nat)
    requires WellFormed(ms) && k <= r < |ms| && ms[r].ToolResult?
    requires k > 0 ==> IsRunStart(ms[k - 1])
    ensures k <= Owner(ms, r) < r && HarnessMade(ms[Owner(ms, r)]) == HarnessMade(ms[r])
  {
    OwnerSpan(ms, r);
    assert Answers(ms[Owner(ms, r)], ms[r]);
  }

  lemma FloorIsClean(ms: seq<Message>)
    requires WellFormed(ms)
    ensures CleanCut(ms, Floor(ms))
  {
    var k, f := AfterRunStart(ms), Floor(ms);
    RunStartPlace(ms);
    PastHarnessShape(ms, k);
    if f < |ms| && ms[f].ToolResult? { OwnerNotBefore(ms, k, f); }
  }

  /** The cut clears every effectful group before `limit`. */
  lemma {:induction false} EffectEndShape(ms: seq<Message>, floor: nat, limit: nat)
    requires WellFormed(ms) && floor <= |ms| && limit <= |ms| && CleanCut(ms, floor)
    ensures var c := EffectEnd(ms, ResultsOf(ms), floor, limit);
      && CleanCut(ms, c)
      && (forall i :: floor <= i < limit && ms[i].Assistant? && SomeEffect(ResultsOf(ms), ms[i].calls) ==> i < c)
      && (c == floor || (0 < c && Owner(ms, c - 1) < limit))
    decreases limit
  {
    hide WellFormed, ResultsOf, GroupEnd, HasEffect, SomeEffect;
    if limit > floor {
      EffectEndShape(ms, floor, limit - 1);
      if ms[limit - 1].Assistant? { GroupEndIsClean(ms, limit - 1); }
    }
  }

  /** With a gated call at `g`, the cut never passes it, unless the whole run starts after it. */
  lemma CutBeforeGate(ms: seq<Message>, floor: nat, g: nat)
    requires WellFormed(ms) && floor <= |ms| && CleanCut(ms, floor) && g < |ms| && ms[g].Assistant?
    ensures var c := EffectEnd(ms, ResultsOf(ms), floor, g);
      c == floor || c <= g
  {
    EffectEndShape(ms, floor, g);
    var c := EffectEnd(ms, ResultsOf(ms), floor, g);
    if c != floor && c > g { OwnerSpan(ms, c - 1); }
  }

  lemma PointIsClean(ms: seq<Message>, gated: Option<string>)
    requires WellFormed(ms)
    ensures PointFor(ms, gated).index >= 0 && CleanCut(ms, PointFor(ms, gated).index)
  {
    FloorIsClean(ms);
    var at := GatedBy(ms, gated);
    EffectEndShape(ms, Floor(ms), if at.Some? then at.value else |ms|);
  }

  // ---------------------------------------------------------------------------
  // No later than it must be
  // ---------------------------------------------------------------------------

  lemma {:induction false} LastRunStart(ms: seq<Message>)
    ensures forall i :: AfterRunStart(ms) <= i < |ms| ==> !IsRunStart(ms[i])
  {
    if ms != [] && !IsRunStart(ms[|ms| - 1]) { LastRunStart(ms[..|ms| - 1]); }
  }

  /** The last run begins at `start`, and the harness wrote its first messages, up to `floor`. */
  ghost predicate RunBegins(ms: seq<Message>, start: nat, floor: nat)
    requires start <= floor <= |ms|
  {
    && (start > 0 ==> IsRunStart(ms[start - 1]))
    && (forall i :: start <= i < |ms| ==> !IsRunStart(ms[i]))
    && (forall i :: start <= i < floor ==> HarnessMade(ms[i]))
    && (floor < |ms| ==> !HarnessMade(ms[floor]))
  }

  /** The floor is past the last run start and exactly the harness-made messages that follow it. */
  lemma FloorIsRight(ms: seq<Message>)
    ensures exists start | 0 <= start <= Floor(ms) :: RunBegins(ms, start, Floor(ms))
  {
    var start := AfterRunStart(ms);
    RunStartPlace(ms);
    LastRunStart(ms);
    PastHarnessShape(ms, start);
    assert RunBegins(ms, start, Floor(ms));
  }

  /** A post took effect unless an error says that it did not, `no_reply` never does, and another tool as it says. */
  lemma EffectMeans(ms: seq<Message>, call: ToolCall)
    requires UniqueResults(ms)
    ensures HasEffect(ResultsOf(ms), call) <==>
      match call.name
      case NoReply => false
      case OtherTool(_) => !call.refined.RedoSafe?
      case _ => forall r | 0 <= r < |ms| && ms[r].ToolResult? && ms[r].callId == call.id :: !ms[r].isError
  {
    ResultsAreResults(ms);
    forall r | 0 <= r < |ms| && ms[r].ToolResult? && ms[r].callId == call.id
      ensures call.id in ResultsOf(ms) && ResultsOf(ms)[call.id].isError == ms[r].isError
    {
      ResultsComplete(ms, r);
    }
  }

  /** Past the floor the cut ends the group of a message that took effect. */
  lemma {:induction false} EffectEndEnds(ms: seq<Message>, floor: nat, limit: nat)
    requires WellFormed(ms) && floor <= |ms| && limit <= |ms|
    ensures var c := EffectEnd(ms, ResultsOf(ms), floor, limit);
      c == floor || exists i | floor <= i < limit && ms[i].Assistant? && SomeEffect(ResultsOf(ms), ms[i].calls) ::
        0 < c <= |ms| && Owner(ms, c - 1) == i
    decreases limit
  {
    hide WellFormed, ResultsOf, GroupEnd, HasEffect, SomeEffect;
    if limit > floor {
      EffectEndEnds(ms, floor, limit - 1);
      if ms[limit - 1].Assistant? { GroupEndIsClean(ms, limit - 1); }
    }
  }

  /** A cut at `c` would discard a call of message `i` that took effect, or a result of that message's calls. */
  ghost predicate WouldLose(ms: seq<Message>, gated: Option<string>, c: nat, i: nat)
    requires i < |ms|
  {
    && (exists a :: 0 <= a < |Calls(ms[i])|
          && HasEffect(ResultsOf(ms), Calls(ms[i])[a]) && Some(Calls(ms[i])[a].id) != gated)
    && (c <= i || exists r :: c <= r < |ms| && ms[r].ToolResult? && Owner(ms, r) == i)
  }

  lemma NotTheGated(ms: seq<Message>, gated: Option<string>, i: nat, a: nat)
    requires UniqueCalls(ms) && i < |ms| && a < |Calls(ms[i])|
    requires GatedBy(ms, gated).Some? ==> i < GatedBy(ms, gated).value
    ensures Some(Calls(ms[i])[a].id) != gated
  {
    if gated.Some? && Calls(ms[i])[a].id == gated.value {
      assert HoldsId(ms[i], gated.value);
      OneHolder(ms, i, GatedBy(ms, gated).value, gated.value);
    }
  }

  lemma OneHolder(ms: seq<Message>, i: nat, j: nat, id: string)
    requires UniqueCalls(ms) && i < |ms| && j < |ms| && HoldsId(ms[i], id) && HoldsId(ms[j], id)
    ensures i == j
  {
    var a :| 0 <= a < |Calls(ms[i])| && Calls(ms[i])[a].id == id;
    var b :| 0 <= b < |Calls(ms[j])| && Calls(ms[j])[b].id == id;
  }

  /**
   * The fork point is the earliest that keeps what took effect: it is not before the floor, and every cut from the
   * floor up to it would lose something of a message that took effect, up to the gated call's.
   */
  lemma PointIsLeast(ms: seq<Message>, gated: Option<string>, c: nat)
    requires WellFormed(ms) && Floor(ms) <= c < PointFor(ms, gated).index
    ensures exists i | Floor(ms) <= i < |ms| && (GatedBy(ms, gated).Some? ==> i <= GatedBy(ms, gated).value) ::
      WouldLose(ms, gated, c, i)
  {
    hide WellFormed, EffectEnd, ResultsOf, HasEffect, Floor, GatedIndex;
    var at, point := GatedBy(ms, gated), PointFor(ms, gated);
    if point.edit.Some? {
      var k :| 0 <= k < |Calls(ms[at.value])| && Calls(ms[at.value])[k].id != gated.value
        && HasEffect(ResultsOf(ms), Calls(ms[at.value])[k]);
      assert WouldLose(ms, gated, c, at.value);
    } else {
      var limit := if at.Some? then at.value else |ms|;
      EffectEndEnds(ms, Floor(ms), limit);
      var i :| Floor(ms) <= i < limit && ms[i].Assistant? && SomeEffect(ResultsOf(ms), ms[i].calls)
        && 0 < point.index <= |ms| && Owner(ms, point.index - 1) == i;
      var a :| 0 <= a < |ms[i].calls| && HasEffect(ResultsOf(ms), ms[i].calls[a]);
      UniqueOf(ms);
      NotTheGated(ms, gated, i, a);
      OwnerSpan(ms, point.index - 1);
      if c > i { assert ms[point.index - 1].ToolResult?; }
      assert WouldLose(ms, gated, c, i);
    }
  }

  lemma UniqueOf(ms: seq<Message>)
    requires WellFormed(ms)
    ensures UniqueCalls(ms)
  {
  }

  /** The message of a gated call is edited exactly when it is in the run and another call of it took effect. */
  lemma EditExactlyWhen(ms: seq<Message>, gated: Option<string>)
    requires WellFormed(ms)
    ensures var at, point := GatedBy(ms, gated), PointFor(ms, gated);
      && (point.edit.Some? <==>
            && at.Some? && at.value >= Floor(ms)
            && exists k :: 0 <= k < |Calls(ms[at.value])| && Calls(ms[at.value])[k].id != gated.value
                 && HasEffect(ResultsOf(ms), Calls(ms[at.value])[k]))
      && (point.edit.Some? ==> point == ForkPoint(at.value, Some(SiblingEdit(at.value, [gated.value]))))
  {
    hide WellFormed, EffectEnd, ResultsOf, HasEffect, Floor;
    var at := GatedBy(ms, gated);
    FloorIsClean(ms);
    if at.Some? { CutBeforeGate(ms, Floor(ms), at.value); }
  }

  /** A fork at its fork point is refused exactly when that leaves nothing to discard. */
  lemma RefusedOnlyAtEnd(ms: seq<Message>, gated: Option<string>)
    requires WellFormed(ms)
    ensures ForkErrorOf(ms, PointFor(ms, gated)) ==
      if PointFor(ms, gated).index == |ms| then Some(NothingToDiscard) else None
  {
    hide WellFormed, EffectEnd, ResultsOf, HasEffect, Floor;
    PointIsClean(ms, gated);
    EditExactlyWhen(ms, gated);
  }

  // ---------------------------------------------------------------------------
  // What the fork keeps
  // ---------------------------------------------------------------------------

  lemma {:induction false} WithoutCallsShape(calls: seq<ToolCall>, remove: seq<string>)
    ensures forall c :: c in WithoutCalls(calls, remove) <==> c in calls && c.id !in remove
  {
    if calls != [] { WithoutCallsShape(calls[1..], remove); }
  }

  ghost predicate DistinctIds(calls: seq<ToolCall>) {
    forall a, b | 0 <= a < b < |calls| :: calls[a].id != calls[b].id
  }

  lemma {:induction false} WithoutCallsUnique(calls: seq<ToolCall>, remove: seq<string>)
    requires DistinctIds(calls)
    ensures DistinctIds(WithoutCalls(calls, remove))
  {
    if calls != [] {
      var c, tail := calls[0], calls[1..];
      assert DistinctIds(tail);
      WithoutCallsUnique(tail, remove);
      WithoutCallsShape(tail, remove);
      var rest := WithoutCalls(tail, remove);
      forall b | 0 <= b < |rest| ensures c.id != rest[b].id {
        assert rest[b] in tail;
        var j :| 0 <= j < |tail| && tail[j] == rest[b];
        assert calls[j + 1] == tail[j];
      }
    }
  }

  lemma {:induction false} ResultsForShape(ms: seq<Message>, ids: set<string>)
    ensures forall m :: m in ResultsFor(ms, ids) <==> m in ms && m.ToolResult? && m.callId in ids
  {
    if ms != [] {
      ResultsForShape(ms[..|ms| - 1], ids);
      assert ms == ms[..|ms| - 1] + [ms[|ms| - 1]];
    }
  }

  lemma {:induction false} RedeliveredShape(span: seq<Message>, kept: seq<Message>)
    ensures forall m :: m in Redelivered(span, kept) ==> m in span && m.Interjection?
  {
    if span != [] { RedeliveredShape(span[1..], kept); }
  }

  /** The call and every result of it are in `kept`. */
  ghost predicate Keeps(kept: seq<Message>, ms: seq<Message>, call: ToolCall) {
    && (exists k :: 0 <= k < |kept| && call in Calls(kept[k]))
    && (forall r :: 0 <= r < |ms| && ms[r].ToolResult? && ms[r].callId == call.id ==> ms[r] in kept)
  }

  /** Every call but the gated one that took effect is kept, with its result. */
  ghost predicate Safe(ms: seq<Message>, gated: Option<string>, kept: seq<Message>) {
    forall i, a :: 0 <= i < |ms| && 0 <= a < |Calls(ms[i])|
      && HasEffect(ResultsOf(ms), Calls(ms[i])[a]) && Some(Calls(ms[i])[a].id) != gated
      ==> Keeps(kept, ms, Calls(ms[i])[a])
  }

  /** A call that took effect sits in the current run, after the gated call's message. */
  ghost predicate LateEffect(ms: seq<Message>, gated: Option<string>) {
    exists i, a :: 0 <= i < |ms| && 0 <= a < |Calls(ms[i])|
      && Floor(ms) <= i && GatedBy(ms, gated).Some? && i > GatedBy(ms, gated).value
      && HasEffect(ResultsOf(ms), Calls(ms[i])[a])
  }

  /** Whatever lies before a clean cut stays, call and result. */
  lemma PrefixKeeps(ms: seq<Message>, c: nat, extra: seq<Message>, i: nat, a: nat)
    requires WellFormed(ms) && CleanCut(ms, c) && i < c && a < |Calls(ms[i])|
    ensures Keeps(ms[..c] + extra, ms, Calls(ms[i])[a])
  {
    var kept := ms[..c] + extra;
    assert kept[i] == ms[i];
    forall r | 0 <= r < |ms| && ms[r].ToolResult? && ms[r].callId == Calls(ms[i])[a].id
      ensures ms[r] in kept
    {
      OwnerOfCall(ms, i, a, r);
      CleanCutSplits(ms, c, r);
      assert kept[r] == ms[r];
    }
  }

  /** The siblings of an edited message stay, call and result. */
  lemma EditKeeps(ms: seq<Message>, point: ForkPoint, a: nat)
    requires WellFormed(ms) && ForkErrorOf(ms, point).None? && point.edit.Some?
    requires a < |Calls(ms[point.index])| && Calls(ms[point.index])[a].id !in point.edit.value.remove
    ensures Keeps(KeptList(ms, point), ms, Calls(ms[point.index])[a])
  {
    var g := point.index;
    var call := Calls(ms[g])[a];
    var calls := WithoutCalls(ms[g].calls, point.edit.value.remove);
    var results := ResultsFor(ms[g + 1..], IdsOf(calls));
    var kept := KeptList(ms, point);
    WithoutCallsShape(ms[g].calls, point.edit.value.remove);
    ResultsForShape(ms[g + 1..], IdsOf(calls));
    assert kept[g] == Edited(ms, point)[0] && call in Calls(kept[g]);
    var k :| 0 <= k < |calls| && calls[k] == call;
    assert call.id in IdsOf(calls);
    forall r | 0 <= r < |ms| && ms[r].ToolResult? && ms[r].callId == call.id ensures ms[r] in kept {
      OwnerOfCall(ms, g, a, r);
      assert ms[g + 1..][r - g - 1] == ms[r];
      assert ms[r] in results;
      assert ms[r] in Edited(ms, point);
    }
  }

  /** Where a kept call comes from. */
  lemma KeptCallOrigin(ms: seq<Message>, point: ForkPoint, k: nat, call: ToolCall)
    requires ForkErrorOf(ms, point).None? && k < |KeptList(ms, point)| && call in Calls(KeptList(ms, point)[k])
    ensures k <= point.index && call in Calls(ms[k])
    ensures k == point.index ==> point.edit.Some? && call.id !in point.edit.value.remove
  {
    var kept := KeptList(ms, point);
    if k >= point.index {
      var edited := Edited(ms, point);
      var again := Redelivered(ms[point.index..], ms[..point.index] + edited);
      RedeliveredShape(ms[point.index..], ms[..point.index] + edited);
      var j := k - point.index;
      assert kept[k] == if j < |edited| then edited[j] else again[j - |edited|];
      NoCalls(again);
      if j < |edited| {
        WithoutCallsShape(ms[point.index].calls, point.edit.value.remove);
        EditedResults(ms, point);
      }
    }
  }

  lemma NoCalls(ms: seq<Message>)
    requires forall m :: m in ms ==> m.Interjection?
    ensures forall k :: 0 <= k < |ms| ==> ms[k].Interjection? && Calls(ms[k]) == []
  {
    assert forall k :: 0 <= k < |ms| ==> ms[k] in ms;
  }

  lemma EditedResults(ms: seq<Message>, point: ForkPoint)
    requires ForkErrorOf(ms, point).None? && point.edit.Some?
    ensures var edited := Edited(ms, point);
      forall j :: 1 <= j < |edited| ==> edited[j] in ms[point.index + 1..] && edited[j].ToolResult?
  {
    var calls := WithoutCalls(ms[point.index].calls, point.edit.value.remove);
    ResultsForShape(ms[point.index + 1..], IdsOf(calls));
    var edited := Edited(ms, point);
    forall j | 1 <= j < |edited| ensures edited[j] in ms[point.index + 1..] && edited[j].ToolResult? {
      assert edited[j] == ResultsFor(ms[point.index + 1..], IdsOf(calls))[j - 1];
    }
  }

  /** Nothing at or after the cut but the edited message's own siblings is a kept call. */
  lemma NotKept(ms: seq<Message>, point: ForkPoint, i: nat, a: nat)
    requires WellFormed(ms) && ForkErrorOf(ms, point).None?
    requires point.index <= i < |ms| && a < |Calls(ms[i])| && (point.edit.Some? ==> i != point.index)
    ensures !Keeps(KeptList(ms, point), ms, Calls(ms[i])[a])
  {
    var call, kept := Calls(ms[i])[a], KeptList(ms, point);
    if k :| 0 <= k < |kept| && call in Calls(kept[k]) {
      KeptCallOrigin(ms, point, k, call);
      OneCallOnePlace(ms, i, a, k);
    }
  }

  lemma OneCallOnePlace(ms: seq<Message>, i: nat, a: nat, k: nat)
    requires UniqueCalls(ms) && i < |ms| && a < |Calls(ms[i])| && k < |ms| && Calls(ms[i])[a] in Calls(ms[k])
    ensures i == k
  {
    var b :| 0 <= b < |Calls(ms[k])| && Calls(ms[k])[b] == Calls(ms[i])[a];
  }

  lemma SafeUnlessLate(ms: seq<Message>, gated: Option<string>, i: nat, a: nat)
    requires WellFormed(ms) && ForkErrorOf(ms, PointFor(ms, gated)).None? && !LateEffect(ms, gated)
    requires i < |ms| && a < |Calls(ms[i])| && HasEffect(ResultsOf(ms), Calls(ms[i])[a])
    requires Some(Calls(ms[i])[a].id) != gated
    ensures Keeps(KeptList(ms, PointFor(ms, gated)), ms, Calls(ms[i])[a])
  {
    var point, at, floor := PointFor(ms, gated), GatedBy(ms, gated), Floor(ms);
    var limit := if at.Some? then at.value else |ms|;
    PointIsClean(ms, gated);
    FloorIsClean(ms);
    EffectEndShape(ms, floor, limit);
    assert SomeEffect(ResultsOf(ms), Calls(ms[i]));
    if i < point.index {
      PrefixKeeps(ms, point.index, Extra(ms, point), i, a);
    } else {
      assert at.Some? && i == at.value;
      assert SiblingEffect(ResultsOf(ms), ms[i], gated.value);
      EditKeeps(ms, point, a);
    }
  }

  /**
   * A fork at the fork point keeps every other call that took effect, with its result, exactly when no such
   * call sits in the run after the gated call's message (there is none without a gated call).
   */
  lemma ForkIsSafe(ms: seq<Message>, gated: Option<string>)
    requires WellFormed(ms) && ForkErrorOf(ms, PointFor(ms, gated)).None?
    ensures Safe(ms, gated, KeptList(ms, PointFor(ms, gated))) <==> !LateEffect(ms, gated)
  {
    var point := PointFor(ms, gated);
    if LateEffect(ms, gated) {
      var i, a :| 0 <= i < |ms| && 0 <= a < |Calls(ms[i])|
        && Floor(ms) <= i && GatedBy(ms, gated).Some? && i > GatedBy(ms, gated).value
        && HasEffect(ResultsOf(ms), Calls(ms[i])[a]);
      var g := GatedBy(ms, gated).value;
      FloorIsClean(ms);
      CutBeforeGate(ms, Floor(ms), g);
      assert !HoldsId(ms[i], gated.value);
      assert Calls(ms[i])[a].id != gated.value;
      NotKept(ms, point, i, a);
    } else {
      forall i, a | 0 <= i < |ms| && 0 <= a < |Calls(ms[i])|
        && HasEffect(ResultsOf(ms), Calls(ms[i])[a]) && Some(Calls(ms[i])[a].id) != gated
        ensures Keeps(KeptList(ms, point), ms, Calls(ms[i])[a])
      {
        SafeUnlessLate(ms, gated, i, a);
      }
    }
  }

  /** Without a gated call, as in every contract redo, nothing that took effect is ever lost. */
  lemma UngatedForkIsSafe(ms: seq<Message>)
    requires WellFormed(ms) && ForkErrorOf(ms, PointFor(ms, None)).None?
    ensures Safe(ms, None, KeptList(ms, PointFor(ms, None)))
  {
    hide Safe, WellFormed, PointFor, ForkErrorOf, KeptList, Floor, HasEffect;
    ForkIsSafe(ms, None);
  }

  const POST: Message := Assistant(Empty, [ToolCall("g", SendMessage, Irreversible)], Completed, None)
  const PAID: Message := Assistant(Empty, [ToolCall("x", OtherTool("pay"), Irreversible)], Completed, None)

  /** An agent that went on after the gated call, and did something irreversible there, loses it to the fork. */
  lemma PostsAreWellFormed()
    ensures WellFormed([Kickoff(0), POST, PAID])
  {
    var ms := [Kickoff(0), POST, PAID];
    assert POST.calls[0].id[0] == 'g' && PAID.calls[0].id[0] == 'x';
    assert UniqueResults(ms);
    forall i, a, j, b |
      0 <= i < |ms| && 0 <= a < |Calls(ms[i])| && 0 <= j < |ms| && 0 <= b < |Calls(ms[j])|
      && Calls(ms[i])[a].id == Calls(ms[j])[b].id
      ensures i == j && a == b
    {
      assert Calls(ms[i])[a].id[0] == if i == 1 then 'g' else 'x';
    }
  }

  lemma LateEffectIsLost()
    ensures var ms := [Kickoff(0), POST, PAID];
      && WellFormed(ms) && ForkErrorOf(ms, PointFor(ms, Some("g"))).None?
      && LateEffect(ms, Some("g")) && !Safe(ms, Some("g"), KeptList(ms, PointFor(ms, Some("g"))))
  {
    hide KeptList, Safe, WellFormed;
    var ms := [Kickoff(0), POST, PAID];
    PostsAreWellFormed();
    var two, one := ms[..2], ms[..1];
    assert ms[..|ms| - 1] == two && two[..|two| - 1] == one && one[..|one| - 1] == [];
    assert AfterRunStart(one) == AfterRunStart(two) == AfterRunStart(ms) == 1;
    assert ResultsOf(one) == map[];
    assert ResultsOf(ms) == ResultsOf(two) == ResultsOf(one);
    assert POST.calls[0].id == "g" && PAID.calls[0].id == "x" && "g"[0] != "x"[0];
    assert HoldsId(ms[1], "g") && !HoldsId(ms[2], "g");
    assert GatedBy(ms, Some("g")) == Some(1);
    assert CutIndex(ms, Some("g")) == 1;
    assert HasEffect(ResultsOf(ms), Calls(ms[2])[0]);
    ForkIsSafe(ms, Some("g"));
  }

  /** An edited message says nothing any more, and holds exactly its other calls; the rest of it stays. */
  lemma EditedMessageIs(ms: seq<Message>, gated: Option<string>)
    requires ForkErrorOf(ms, PointFor(ms, gated)).None? && PointFor(ms, gated).edit.Some?
    ensures var g := PointFor(ms, gated).index;
      && g < |KeptList(ms, PointFor(ms, gated))|
      && var m, edited := ms[g], KeptList(ms, PointFor(ms, gated))[g];
      && edited.Assistant? && edited == m.(prose := edited.prose, calls := edited.calls) && edited.prose.Empty?
      && (forall c :: c in edited.calls <==> c in m.calls && Some(c.id) != gated)
  {
    hide EffectEnd, Floor, ResultsOf, Redelivered, ResultsFor;
    var point := PointFor(ms, gated);
    WithoutCallsShape(ms[point.index].calls, point.edit.value.remove);
    assert KeptList(ms, point)[point.index] == Edited(ms, point)[0];
  }

  /** A gated call of the run is in no message the fork leaves. */
  lemma GatedIsGone(ms: seq<Message>, gated: string, k: nat)
    requires WellFormed(ms) && ForkErrorOf(ms, PointFor(ms, Some(gated))).None?
    requires var at := GatedBy(ms, Some(gated)); at.Some? && at.value >= Floor(ms)
    requires k < |KeptList(ms, PointFor(ms, Some(gated)))|
    ensures !HoldsId(KeptList(ms, PointFor(ms, Some(gated)))[k], gated)
  {
    hide KeptList, EffectEnd, ResultsOf, HasEffect, Floor;
    var point, g := PointFor(ms, Some(gated)), GatedBy(ms, Some(gated)).value;
    var kept := KeptList(ms, point);
    FloorIsClean(ms);
    CutBeforeGate(ms, Floor(ms), g);
    if HoldsId(kept[k], gated) {
      var b :| 0 <= b < |kept[k].calls| && kept[k].calls[b].id == gated;
      var call := kept[k].calls[b];
      KeptCallOrigin(ms, point, k, call);
      OneHolder(ms, k, g, gated);
    }
  }

  // ---------------------------------------------------------------------------
  // The list a fork leaves is well formed
  // ---------------------------------------------------------------------------

  lemma PrefixWellFormed(ms: seq<Message>, c: nat)
    requires WellFormed(ms) && c <= |ms|
    ensures WellFormed(ms[..c])
  {
    var p := ms[..c];
    assert forall i :: 0 <= i < c ==> p[i] == ms[i];
    forall i | 0 <= i < c && p[i].ToolResult? ensures Answers(p[Owner(p, i)], p[i]) {
      OwnerOfPrefix(ms, c, i);
    }
  }

  ghost predicate FreshCalls(ms: seq<Message>, m: Message) {
    && DistinctIds(Calls(m))
    && forall i, a, b | 0 <= i < |ms| && 0 <= a < |Calls(ms[i])| && 0 <= b < |Calls(m)| ::
         Calls(ms[i])[a].id != Calls(m)[b].id
  }

  /** A result may follow only the message whose call it answers, other results of it aside. */
  ghost predicate FreshResult(ms: seq<Message>, m: Message) {
    m.ToolResult? ==>
      && ms != [] && Answers(ms[Owner(ms, |ms| - 1)], m)
      && forall i | 0 <= i < |ms| && ms[i].ToolResult? :: ms[i].callId != m.callId
  }

  /** Appending one message keeps a transcript well formed. */
  lemma AppendWellFormed(ms: seq<Message>, m: Message)
    requires WellFormed(ms) && FreshCalls(ms, m) && FreshResult(ms, m)
    ensures WellFormed(ms + [m])
  {
    var l := ms + [m];
    var n := |ms|;
    assert l[..n] == ms;
    forall i | 0 <= i < |l| && l[i].ToolResult? ensures Answers(l[Owner(l, i)], l[i]) {
      OwnerOfPrefix(l, n, if i < n then i else n - 1);
    }
    AppendUnique(ms, m);
  }

  lemma AppendUnique(ms: seq<Message>, m: Message)
    requires UniqueCalls(ms) && FreshCalls(ms, m)
    ensures UniqueCalls(ms + [m])
  {
    hide Calls;
    var l := ms + [m];
    assert forall i | 0 <= i < |ms| :: l[i] == ms[i];
    assert l[|ms|] == m;
  }

  lemma {:induction false} InterjectionsWellFormed(ms: seq<Message>, tail: seq<Message>)
    requires WellFormed(ms) && forall k :: 0 <= k < |tail| ==> tail[k].Interjection?
    ensures WellFormed(ms + tail)
  {
    if tail == [] {
      assert ms + tail == ms;
    } else {
      var init, m := tail[..|tail| - 1], tail[|tail| - 1];
      InterjectionsWellFormed(ms, init);
      AppendWellFormed(ms + init, m);
      assert ms + tail == (ms + init) + [m];
    }
  }

  /** Every listed result in `rest` answers `m`, and none of them is in `before`. */
  ghost predicate AnswersAll(m: Message, before: seq<Message>, rest: seq<Message>, ids: set<string>) {
    forall r | 0 <= r < |rest| && rest[r].ToolResult? && rest[r].callId in ids ::
      && Answers(m, rest[r])
      && forall i | 0 <= i < |before| && before[i].ToolResult? :: before[i].callId != rest[r].callId
  }

  lemma NewResult(rest: seq<Message>, ids: set<string>, i: nat)
    requires rest != [] && UniqueResults(rest) && i < |ResultsFor(rest[..|rest| - 1], ids)|
    ensures rest[|rest| - 1].ToolResult? ==>
      var r := ResultsFor(rest[..|rest| - 1], ids)[i];
      r.ToolResult? ==> r.callId != rest[|rest| - 1].callId
  {
    var init := rest[..|rest| - 1];
    ResultsForShape(init, ids);
    var r := ResultsFor(init, ids)[i];
    assert r in init;
    var k :| 0 <= k < |init| && init[k] == r;
    assert rest[k] == init[k];
  }

  lemma AppendAnswer(before: seq<Message>, m: Message, some: seq<Message>, r: Message)
    requires var l := before + [m] + some;
      && WellFormed(l) && Owner(l, |l| - 1) == |before| && Answers(m, r)
      && forall i | 0 <= i < |l| && l[i].ToolResult? :: l[i].callId != r.callId
    ensures var l := before + [m] + (some + [r]);
      WellFormed(l) && Owner(l, |l| - 1) == |before|
  {
    hide WellFormed;
    var l := before + [m] + some;
    assert l[|before|] == m;
    AppendWellFormed(l, r);
    assert (l + [r])[..|l|] == l;
    OwnerOfPrefix(l + [r], |l|, |l| - 1);
    assert before + [m] + (some + [r]) == l + [r];
  }

  /** The results of an edited message follow it as they followed the original. */
  lemma {:induction false} SiblingsWellFormed(before: seq<Message>, m: Message, rest: seq<Message>, ids: set<string>)
    requires WellFormed(before + [m]) && m.Assistant? && UniqueResults(rest) && AnswersAll(m, before, rest, ids)
    ensures var l := before + [m] + ResultsFor(rest, ids);
      WellFormed(l) && Owner(l, |l| - 1) == |before|
  {
    hide WellFormed, Answers;
    var base := before + [m];
    if rest == [] {
      assert base + ResultsFor(rest, ids) == base;
    } else {
      var init, r := rest[..|rest| - 1], rest[|rest| - 1];
      assert UniqueResults(init);
      assert AnswersAll(m, before, init, ids);
      SiblingsWellFormed(before, m, init, ids);
      var some := ResultsFor(init, ids);
      if r.ToolResult? && r.callId in ids {
        var l := base + some;
        forall i | 0 <= i < |l| && l[i].ToolResult? ensures l[i].callId != r.callId {
          if i > |before| {
            NewResult(rest, ids, i - |base|);
          }
        }
        AppendAnswer(before, m, some, r);
      } else {
        assert ResultsFor(rest, ids) == some;
      }
    }
  }

  lemma EditFollows(ms: seq<Message>, g: nat, remove: seq<string>)
    requires WellFormed(ms) && g < |ms| && ms[g].Assistant?
    ensures var m := ms[g].(prose := Empty, calls := WithoutCalls(ms[g].calls, remove));
      WellFormed(ms[..g] + [m])
  {
    var m := ms[g].(prose := Empty, calls := WithoutCalls(ms[g].calls, remove));
    WithoutCallsShape(ms[g].calls, remove);
    CallsOfOne(ms, g);
    WithoutCallsUnique(ms[g].calls, remove);
    PrefixWellFormed(ms, g);
    forall i, a, b | 0 <= i < g && 0 <= a < |Calls(ms[..g][i])| && 0 <= b < |Calls(m)|
      ensures Calls(ms[..g][i])[a].id != Calls(m)[b].id
    {
      assert Calls(m)[b] in Calls(m);
      var k :| 0 <= k < |Calls(ms[g])| && Calls(ms[g])[k] == Calls(m)[b];
    }
    AppendWellFormed(ms[..g], m);
  }

  lemma EditedWellFormed(ms: seq<Message>, point: ForkPoint)
    requires WellFormed(ms) && ForkErrorOf(ms, point).None? && point.edit.Some?
    ensures WellFormed(ms[..point.index] + Edited(ms, point))
  {
    hide WellFormed, AnswersAll, UniqueResults;
    var g := point.index;
    var calls := WithoutCalls(ms[g].calls, point.edit.value.remove);
    var m := ms[g].(prose := Empty, calls := calls);
    var rest, ids := ms[g + 1..], IdsOf(calls);
    WithoutCallsShape(ms[g].calls, point.edit.value.remove);
    EditFollows(ms, g, point.edit.value.remove);
    SpanAnswers(ms, g, calls);
    SiblingsWellFormed(ms[..g], m, rest, ids);
    assert ms[..g] + Edited(ms, point) == ms[..g] + [m] + ResultsFor(rest, ids);
  }

  lemma SpanAnswers(ms: seq<Message>, g: nat, calls: seq<ToolCall>)
    requires WellFormed(ms) && g < |ms| && ms[g].Assistant? && forall c :: c in calls ==> c in ms[g].calls
    ensures UniqueResults(ms[g + 1..])
    ensures AnswersAll(ms[g].(prose := Empty, calls := calls), ms[..g], ms[g + 1..], IdsOf(calls))
  {
    var rest, ids := ms[g + 1..], IdsOf(calls);
    assert forall r | 0 <= r < |rest| :: rest[r] == ms[g + 1 + r];
    forall r | 0 <= r < |rest| && rest[r].ToolResult? && rest[r].callId in ids
      ensures Answers(ms[g].(prose := Empty, calls := calls), rest[r])
    {
      KeptAnswer(ms, g, calls, g + 1 + r);
    }
  }

  lemma CallsOfOne(ms: seq<Message>, g: nat)
    requires UniqueCalls(ms) && g < |ms| && ms[g].Assistant?
    ensures DistinctIds(ms[g].calls)
  {
    var calls := ms[g].calls;
    forall a, b | 0 <= a < b < |calls| ensures calls[a].id != calls[b].id {
      assert Calls(ms[g])[a] == calls[a] && Calls(ms[g])[b] == calls[b];
    }
  }

  lemma KeptAnswer(ms: seq<Message>, g: nat, calls: seq<ToolCall>, r: nat)
    requires WellFormed(ms) && g < r < |ms| && ms[g].Assistant? && ms[r].ToolResult?
    requires ms[r].callId in IdsOf(calls) && forall c :: c in calls ==> c in ms[g].calls
    ensures Answers(ms[g].(prose := Empty, calls := calls), ms[r])
  {
    var k :| 0 <= k < |calls| && calls[k].id == ms[r].callId;
    assert calls[k] in calls;
    var a :| 0 <= a < |Calls(ms[g])| && Calls(ms[g])[a] == calls[k];
    OwnerOfCall(ms, g, a, r);
    var b :| 0 <= b < |ms[g].calls| && ms[g].calls[b].id == ms[r].callId && ms[g].calls[b].name == ms[r].toolName;
    assert Calls(ms[g])[b] == Calls(ms[g])[a];
  }

  /** Kept calls and results stay paired: a fork at the fork point leaves a well-formed transcript. */
  lemma ForkKeepsShape(ms: seq<Message>, gated: Option<string>)
    requires WellFormed(ms) && ForkErrorOf(ms, PointFor(ms, gated)).None?
    ensures WellFormed(KeptList(ms, PointFor(ms, gated)))
  {
    hide WellFormed, CutIndex, SiblingEffect, GatedBy, Redelivered;
    var point := PointFor(ms, gated);
    var base := ms[..point.index] + Edited(ms, point);
    if point.edit.Some? {
      EditedWellFormed(ms, point);
    } else {
      PrefixWellFormed(ms, point.index);
      assert base == ms[..point.index];
    }
    var again := Redelivered(ms[point.index..], base);
    RedeliveredShape(ms[point.index..], base);
    forall k | 0 <= k < |again| ensures again[k].Interjection? {
      assert again[k] in again;
    }
    InterjectionsWellFormed(base, again);
    assert KeptList(ms, point) == base + again;
  }

  /** A kept call keeps every result it had. */
  lemma KeptCallsKeepResults(ms: seq<Message>, gated: Option<string>, k: nat, a: nat)
    requires WellFormed(ms) && ForkErrorOf(ms, PointFor(ms, gated)).None?
    requires k < |KeptList(ms, PointFor(ms, gated))| && a < |Calls(KeptList(ms, PointFor(ms, gated))[k])|
    ensures Keeps(KeptList(ms, PointFor(ms, gated)), ms, Calls(KeptList(ms, PointFor(ms, gated))[k])[a])
  {
    var point := PointFor(ms, gated);
    var call := Calls(KeptList(ms, point)[k])[a];
    PointIsClean(ms, gated);
    KeptCallOrigin(ms, point, k, call);
    var b :| 0 <= b < |Calls(ms[k])| && Calls(ms[k])[b] == call;
    if k < point.index {
      PrefixKeeps(ms, point.index, Extra(ms, point), k, b);
    } else {
      EditKeeps(ms, point, b);
    }
  }

  // ---------------------------------------------------------------------------
  // Interjections
  // ---------------------------------------------------------------------------

  function Interjections(ms: seq<Message>): seq<Message> {
    if ms == [] then [] else
      (if ms[0].Interjection? then [ms[0]] else []) + Interjections(ms[1..])
  }

  lemma Regroup(a: seq<Message>, b: seq<Message>, c: seq<Message>)
    ensures a + (b + c) == (a + b) + c
  {
  }

  lemma {:induction false} InterjectionsConcat(a: seq<Message>, b: seq<Message>)
    ensures Interjections(a + b) == Interjections(a) + Interjections(b)
  {
    if a == [] {
      assert a + b == b;
    } else {
      InterjectionsConcat(a[1..], b);
      var first := if a[0].Interjection? then [a[0]] else [];
      assert (a + b)[1..] == a[1..] + b && (a + b)[0] == a[0];
      Regroup(first, Interjections(a[1..]), Interjections(b));
    }
  }

  lemma {:induction false} NoInterjections(ms: seq<Message>)
    requires forall k :: 0 <= k < |ms| ==> !ms[k].Interjection?
    ensures Interjections(ms) == []
  {
    if ms != [] { NoInterjections(ms[1..]); }
  }

  ghost predicate NoneKept(span: seq<Message>, kept: seq<Message>) {
    forall k | 0 <= k < |span| && span[k].Interjection? :: span[k] !in kept
  }

  lemma NoneKeptStep(span: seq<Message>, kept: seq<Message>)
    requires span != []
    ensures NoneKept(span, kept) <==> (span[0].Interjection? ==> span[0] !in kept) && NoneKept(span[1..], kept)
  {
    assert span == [span[0]] + span[1..];
    if NoneKept(span, kept) {
      forall k | 0 <= k < |span[1..]| && span[1..][k].Interjection? ensures span[1..][k] !in kept {
        assert span[1..][k] == span[k + 1];
      }
    }
  }

  /** Redelivery drops nothing exactly when no interjection of the span is already kept. */
  lemma {:induction false} RedeliveredAll(span: seq<Message>, kept: seq<Message>)
    ensures Interjections(Redelivered(span, kept)) == Redelivered(span, kept)
    ensures |Redelivered(span, kept)| <= |Interjections(span)|
    ensures Redelivered(span, kept) == Interjections(span) <==> NoneKept(span, kept)
  {
    if span != [] {
      var again, all := Redelivered(span[1..], kept), Interjections(span[1..]);
      RedeliveredAll(span[1..], kept);
      NoneKeptStep(span, kept);
      if span[0].Interjection? {
        if span[0] in kept {
          assert Redelivered(span, kept) == again;
        } else {
          assert ([span[0]] + again)[1..] == again;
          SameTail([span[0]], again, all);
        }
      } else {
        assert Redelivered(span, kept) == again && Interjections(span) == all;
      }
    }
  }

  lemma InterjectionsOfFork(ms: seq<Message>, point: ForkPoint)
    requires ForkErrorOf(ms, point).None?
    ensures var base := ms[..point.index] + Edited(ms, point);
      && Interjections(KeptList(ms, point)) == Interjections(ms[..point.index]) + Redelivered(ms[point.index..], base)
      && Interjections(ms) == Interjections(ms[..point.index]) + Interjections(ms[point.index..])
  {
    hide Redelivered, Interjections;
    var prefix, span, edited := ms[..point.index], ms[point.index..], Edited(ms, point);
    var again := Redelivered(span, prefix + edited);
    if point.edit.Some? { EditedResults(ms, point); }
    NoInterjections(edited);
    RedeliveredAll(span, prefix + edited);
    InterjectionsConcat(prefix, edited);
    InterjectionsConcat(prefix + edited, again);
    InterjectionsConcat(prefix, span);
    assert prefix + span == ms && (prefix + edited) + again == KeptList(ms, point);
    assert Interjections(prefix) + [] == Interjections(prefix);
  }

  /** No interjection of the span cut off at `c` also sits before the cut. */
  ghost predicate NoneRepeats(ms: seq<Message>, c: nat)
    requires c <= |ms|
  {
    forall i, j | 0 <= i < c <= j < |ms| && ms[j].Interjection? :: ms[i] != ms[j]
  }

  /**
   * A fork leaves the interjections of the live list as they were, in order, exactly when no interjection
   * of the discarded span also sits before the cut.
   */
  lemma InterjectionsSurvive(ms: seq<Message>, point: ForkPoint)
    requires ForkErrorOf(ms, point).None?
    ensures Interjections(KeptList(ms, point)) == Interjections(ms) <==> NoneRepeats(ms, point.index)
  {
    var prefix, span, edited := ms[..point.index], ms[point.index..], Edited(ms, point);
    if point.edit.Some? { EditedResults(ms, point); }
    InterjectionsOfFork(ms, point);
    RedeliveredAll(span, prefix + edited);
    SameTail(Interjections(prefix), Redelivered(span, prefix + edited), Interjections(span));
    NotBefore(ms, point.index, edited);
  }

  lemma SameTail(a: seq<Message>, b: seq<Message>, c: seq<Message>)
    ensures a + b == a + c <==> b == c
  {
    if a + b == a + c {
      assert b == (a + b)[|a|..] && c == (a + c)[|a|..];
    }
  }

  lemma NotBefore(ms: seq<Message>, c: nat, edited: seq<Message>)
    requires c <= |ms| && forall k :: 0 <= k < |edited| ==> !edited[k].Interjection?
    ensures NoneKept(ms[c..], ms[..c] + edited) <==> NoneRepeats(ms, c)
  {
    var span, base := ms[c..], ms[..c] + edited;
    if NoneKept(span, base) {
      forall i, j | 0 <= i < c <= j < |ms| && ms[j].Interjection? ensures ms[i] != ms[j] {
        assert span[j - c] == ms[j] && base[i] == ms[i];
      }
    }
    if NoneRepeats(ms, c) {
      forall k | 0 <= k < |span| && span[k].Interjection? ensures span[k] !in base {
        assert span[k] == ms[c + k];
      }
    }
  }

  /** An interjection that sits on both sides of the cut is delivered once less. */
  lemma RepeatIsDropped()
    ensures var ms, point := [Interjection(1), Interjection(1)], ForkPoint(1, None);
      ForkErrorOf(ms, point).None? && Interjections(KeptList(ms, point)) != Interjections(ms)
  {
    var ms, point := [Interjection(1), Interjection(1)], ForkPoint(1, None);
    assert ms[0] == ms[1];
    InterjectionsSurvive(ms, point);
  }

  ghost predicate NoTwins(ms: seq<Message>) {
    forall i, j :: 0 <= i < j < |ms| ==> ms[i] != ms[j]
  }

  lemma {:induction false} Delivered(ms: seq<Message>, k: nat)
    requires k < |ms| && ms[k].Interjection?
    ensures ms[k] in Interjections(ms)
  {
    if k > 0 { Delivered(ms[1..], k - 1); }
  }

  lemma TwinsAcross(a: seq<Message>, b: seq<Message>, m: Message)
    requires m in a && m in b
    ensures !NoTwins(a + b)
  {
    var i :| 0 <= i < |a| && a[i] == m;
    var j :| 0 <= j < |b| && b[j] == m;
    assert (a + b)[i] == (a + b)[|a| + j];
  }

  /** Interjections delivered once each survive every fork, so no run of forks ever drops one or makes a twin. */
  lemma DistinctSurvive(ms: seq<Message>, point: ForkPoint)
    requires ForkErrorOf(ms, point).None? && NoTwins(Interjections(ms))
    ensures Interjections(KeptList(ms, point)) == Interjections(ms)
  {
    var c := point.index;
    InterjectionsSurvive(ms, point);
    InterjectionsConcat(ms[..c], ms[c..]);
    assert ms == ms[..c] + ms[c..];
    forall i, j | 0 <= i < c <= j < |ms| && ms[j].Interjection? ensures ms[i] != ms[j] {
      if ms[i] == ms[j] {
        Delivered(ms[..c], i);
        Delivered(ms[c..], j - c);
        TwinsAcross(Interjections(ms[..c]), Interjections(ms[c..]), ms[i]);
        assert false;
      }
    }
  }
}
