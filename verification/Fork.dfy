/** Where a redo cuts the transcript, and what the cut leaves. */
module Forks {
  import opened Transcript
  import opened Chronology

  datatype Outcome = Outcome(index: nat, isError: bool)

  datatype SiblingEdit = SiblingEdit(messageIndex: nat, remove: seq<string>)

  datatype ForkPoint = ForkPoint(index: int, edit: Option<SiblingEdit>)

  datatype ForkError = NothingToDiscard | EditNotAtFork | EditTargetNotAssistant

  datatype ForkResult = Forked(branchNo: nat) | Refused(error: ForkError)

  // ---------------------------------------------------------------------------
  // The fork point
  // ---------------------------------------------------------------------------

  /** The last result of every call id. */
  function ResultsOf(ms: seq<Message>): map<string, Outcome> {
    if ms == [] then map[] else
      var n := |ms| - 1;
      var m := ms[n];
      if m.ToolResult? then ResultsOf(ms[..n])[m.callId := Outcome(n, m.isError)] else ResultsOf(ms[..n])
  }

  /** The call left something a redo must not discard. */
  predicate HasEffect(results: map<string, Outcome>, call: ToolCall) {
    && !ToolEffect(call).RedoSafe?
    && (IsPosting(call.name) ==> call.id !in results || !results[call.id].isError)
  }

  predicate SomeEffect(results: map<string, Outcome>, calls: seq<ToolCall>) {
    exists k :: 0 <= k < |calls| && HasEffect(results, calls[k])
  }

  /** One past the last run start of `ms`. */
  function AfterRunStart(ms: seq<Message>): (r: nat)
    ensures r <= |ms|
  {
    if ms == [] then 0 else if IsRunStart(ms[|ms| - 1]) then |ms| else AfterRunStart(ms[..|ms| - 1])
  }

  function PastHarness(ms: seq<Message>, k: nat): (r: nat)
    requires k <= |ms|
    ensures k <= r <= |ms|
    decreases |ms| - k
  {
    if k < |ms| && HarnessMade(ms[k]) then PastHarness(ms, k + 1) else k
  }

  function Floor(ms: seq<Message>): (r: nat)
    ensures r <= |ms|
  {
    PastHarness(ms, AfterRunStart(ms))
  }

  /** The last index of the message at `i` and the results of its calls. */
  function GroupEnd(calls: seq<ToolCall>, results: map<string, Outcome>, i: nat): (r: nat)
    ensures r >= i
  {
    if calls == [] then i else
      var end := GroupEnd(calls[..|calls| - 1], results, i);
      var id := calls[|calls| - 1].id;
      if id in results && results[id].index > end then results[id].index else end
  }

  /** The later of `floor` and one past the last effectful group before `limit`. */
  function EffectEnd(ms: seq<Message>, results: map<string, Outcome>, floor: nat, limit: nat): (r: nat)
    requires limit <= |ms|
    ensures r >= floor
    decreases limit
  {
    if limit <= floor then floor else
      var index := EffectEnd(ms, results, floor, limit - 1);
      var m := ms[limit - 1];
      if m.Assistant? && SomeEffect(results, m.calls) then
        var end := GroupEnd(m.calls, results, limit - 1) + 1;
        if end > index then end else index
      else index
  }

  predicate HoldsId(m: Message, id: string) {
    m.Assistant? && exists k :: 0 <= k < |m.calls| && m.calls[k].id == id
  }

  /** The last assistant message holding call `id`. */
  function GatedIndex(ms: seq<Message>, id: string): (r: Option<nat>)
    ensures r.Some? ==> r.value < |ms| && HoldsId(ms[r.value], id)
    ensures r.Some? ==> forall i :: r.value < i < |ms| ==> !HoldsId(ms[i], id)
    ensures r.None? ==> forall i :: 0 <= i < |ms| ==> !HoldsId(ms[i], id)
  {
    if ms == [] then None
    else if HoldsId(ms[|ms| - 1], id) then Some(|ms| - 1)
    else GatedIndex(ms[..|ms| - 1], id)
  }

  function GatedBy(ms: seq<Message>, gated: Option<string>): (r: Option<nat>)
    ensures r.Some? ==> r.value < |ms|
  {
    if gated.Some? then GatedIndex(ms, gated.value) else None
  }

  function CutIndex(ms: seq<Message>, gated: Option<string>): nat {
    var at := GatedBy(ms, gated);
    EffectEnd(ms, ResultsOf(ms), Floor(ms), if at.Some? then at.value else |ms|)
  }

  /** A call of `m` other than the gated one has an effect. */
  predicate SiblingEffect(results: map<string, Outcome>, m: Message, id: string) {
    exists k :: 0 <= k < |Calls(m)| && Calls(m)[k].id != id && HasEffect(results, Calls(m)[k])
  }

  function PointFor(ms: seq<Message>, gated: Option<string>): ForkPoint {
    var at := GatedBy(ms, gated);
    var index := CutIndex(ms, gated);
    if at.Some? && at.value >= index && SiblingEffect(ResultsOf(ms), ms[at.value], gated.value) then
      ForkPoint(at.value, Some(SiblingEdit(at.value, [gated.value])))
    else
      ForkPoint(index, None)
  }

  method CollectResults(ms: seq<Message>) returns (results: map<string, Outcome>)
    ensures results == ResultsOf(ms)
  {
    results := map[];
    var i := 0;
    while i < |ms|
      invariant i <= |ms| && results == ResultsOf(ms[..i])
    {
      assert ms[..i + 1][..i] == ms[..i];
      if ms[i].ToolResult? {
        results := results[ms[i].callId := Outcome(i, ms[i].isError)];
      }
      i := i + 1;
    }
    assert ms[..i] == ms;
  }

  method ForkFloor(ms: seq<Message>) returns (floor: nat)
    ensures floor == Floor(ms)
  {
    var i := |ms|;
    assert ms[..i] == ms;
    while i > 0 && !IsRunStart(ms[i - 1])
      invariant i <= |ms| && AfterRunStart(ms[..i]) == AfterRunStart(ms)
    {
      assert ms[..i][..i - 1] == ms[..i - 1];
      i := i - 1;
    }
    floor := i;
    while floor < |ms| && HarnessMade(ms[floor])
      invariant floor <= |ms| && PastHarness(ms, floor) == Floor(ms)
    {
      floor := floor + 1;
    }
  }

  method FindGated(ms: seq<Message>, id: string) returns (at: Option<nat>)
    ensures at == GatedIndex(ms, id)
  {
    var i := |ms|;
    assert ms[..i] == ms;
    while i > 0
      invariant i <= |ms| && GatedIndex(ms[..i], id) == GatedIndex(ms, id)
    {
      if HoldsId(ms[i - 1], id) {
        return Some(i - 1);
      }
      assert ms[..i][..i - 1] == ms[..i - 1];
      i := i - 1;
    }
    return None;
  }

  method LastOfGroup(calls: seq<ToolCall>, results: map<string, Outcome>, i: nat) returns (end: nat)
    ensures end == GroupEnd(calls, results, i)
  {
    end := i;
    var k := 0;
    while k < |calls|
      invariant k <= |calls| && end == GroupEnd(calls[..k], results, i)
    {
      assert calls[..k + 1][..k] == calls[..k];
      if calls[k].id in results && results[calls[k].id].index > end {
        end := results[calls[k].id].index;
      }
      k := k + 1;
    }
    assert calls[..k] == calls;
  }

  method FindForkPoint(ms: seq<Message>, gated: Option<string>) returns (point: ForkPoint)
    ensures point == PointFor(ms, gated)
  {
    var results := CollectResults(ms);
    var at: Option<nat> := None;
    if gated.Some? {
      at := FindGated(ms, gated.value);
    }
    var floor := ForkFloor(ms);
    var index := floor;
    var limit := if at.Some? then at.value else |ms|;
    var i := floor;
    while i < limit
      invariant floor <= i && (i <= limit || i == floor)
      invariant index == EffectEnd(ms, results, floor, if i <= limit then i else limit)
    {
      if ms[i].Assistant? && SomeEffect(results, ms[i].calls) {
        var end := LastOfGroup(ms[i].calls, results, i);
        index := if end + 1 > index then end + 1 else index;
      }
      i := i + 1;
    }
    if at.Some? && at.value >= index && SiblingEffect(results, ms[at.value], gated.value) {
      return ForkPoint(at.value, Some(SiblingEdit(at.value, [gated.value])));
    }
    return ForkPoint(index, None);
  }

  // ---------------------------------------------------------------------------
  // The fork
  // ---------------------------------------------------------------------------

  function ForkErrorOf(ms: seq<Message>, point: ForkPoint): Option<ForkError> {
    if point.index < 0 || point.index >= |ms| then Some(NothingToDiscard)
    else if point.edit.None? then None
    else if point.edit.value.messageIndex != point.index then Some(EditNotAtFork)
    else if !ms[point.index].Assistant? then Some(EditTargetNotAssistant)
    else None
  }

  function WithoutCalls(calls: seq<ToolCall>, remove: seq<string>): seq<ToolCall> {
    if calls == [] then [] else
      (if calls[0].id in remove then [] else [calls[0]]) + WithoutCalls(calls[1..], remove)
  }

  function IdsOf(calls: seq<ToolCall>): set<string> {
    set k | 0 <= k < |calls| :: calls[k].id
  }

  /** The results of the listed calls, in order. */
  function ResultsFor(ms: seq<Message>, ids: set<string>): seq<Message> {
    if ms == [] then [] else
      var m := ms[|ms| - 1];
      ResultsFor(ms[..|ms| - 1], ids) + (if m.ToolResult? && m.callId in ids then [m] else [])
  }

  function Redelivered(span: seq<Message>, kept: seq<Message>): seq<Message> {
    if span == [] then [] else
      (if span[0].Interjection? && span[0] !in kept then [span[0]] else []) + Redelivered(span[1..], kept)
  }

  /** What the sibling edit keeps of the message at the fork point, with its results. */
  function Edited(ms: seq<Message>, point: ForkPoint): seq<Message>
    requires ForkErrorOf(ms, point).None?
  {
    if point.edit.None? then [] else
      var calls := WithoutCalls(ms[point.index].calls, point.edit.value.remove);
      [ms[point.index].(prose := Empty, calls := calls)] + ResultsFor(ms[point.index + 1..], IdsOf(calls))
  }

  /** Appended after the cut: the edited message and its results, then the interjections of the span. */
  function Extra(ms: seq<Message>, point: ForkPoint): seq<Message>
    requires ForkErrorOf(ms, point).None?
  {
    var edited := Edited(ms, point);
    edited + Redelivered(ms[point.index..], ms[..point.index] + edited)
  }

  function KeptList(ms: seq<Message>, point: ForkPoint): seq<Message>
    requires ForkErrorOf(ms, point).None?
  {
    ms[..point.index] + Extra(ms, point)
  }

  /** The number the store gives the next branch. */
  function NextNo(bs: seq<Branch>): nat {
    if bs == [] then 1 else
      var before := NextNo(bs[..|bs| - 1]);
      if bs[|bs| - 1].no >= before then bs[|bs| - 1].no + 1 else before
  }

  /** The edited message at the fork point, and the results of the calls it keeps. */
  method EditSiblings(ms: seq<Message>, point: ForkPoint) returns (edited: seq<Message>)
    requires ForkErrorOf(ms, point).None? && point.edit.Some?
    ensures edited == Edited(ms, point)
  {
    var calls := WithoutCalls(ms[point.index].calls, point.edit.value.remove);
    var ids := IdsOf(calls);
    edited := [ms[point.index].(prose := Empty, calls := calls)];
    ghost var first := edited;
    var rest := ms[point.index + 1..];
    var k := 0;
    while k < |rest|
      invariant k <= |rest| && edited == first + ResultsFor(rest[..k], ids)
    {
      assert rest[..k + 1][..k] == rest[..k];
      if rest[k].ToolResult? && rest[k].callId in ids {
        edited := edited + [rest[k]];
      }
      k := k + 1;
    }
    assert rest[..k] == rest;
  }

  /** An agent's live transcript with the branches stored for its session. */
  class AgentSession {
    var messages: seq<Message>
    var branches: seq<Branch>
    ghost var log: seq<Event>  // everything that happened to the session

    ghost predicate Valid()
      reads this
    {
      Legal(log) && Play(log) == Session(messages, branches)
    }

    constructor ()
      ensures Valid() && messages == [] && branches == [] && log == []
    {
      messages, branches, log := [], [], [];
    }

    method Say(m: Message)
      requires Valid()
      modifies this
      ensures Valid() && messages == old(messages) + [m] && branches == old(branches) && log == old(log) + [Append(m)]
    {
      PlayAppend(log, Append(m));
      messages := messages + [m];
      log := log + [Append(m)];
    }

    method SayAll(ms: seq<Message>)
      requires Valid()
      modifies this
      ensures Valid() && messages == old(messages) + ms && branches == old(branches)
      ensures log == old(log) + Appends(ms)
    {
      var k := 0;
      assert old(log) + Appends([]) == old(log);
      while k < |ms|
        invariant k <= |ms| && Valid() && messages == old(messages) + ms[..k] && branches == old(branches)
        invariant log == old(log) + Appends(ms[..k])
      {
        Say(ms[k]);
        assert ms[..k + 1] == ms[..k] + [ms[k]];
        assert ms[..k + 1][..k] == ms[..k];
        k := k + 1;
      }
      assert ms[..k] == ms;
    }

    /** Discard the tail from the fork point, store it as a branch, and append what the fork keeps of it. */
    method ForkSession(point: ForkPoint, reason: BranchReason) returns (r: ForkResult)
      requires Valid()
      modifies this
      ensures Valid()
      ensures r.Refused? <==> ForkErrorOf(old(messages), point).Some?
      ensures r.Refused? ==>
        Some(r.error) == ForkErrorOf(old(messages), point)
        && messages == old(messages) && branches == old(branches) && log == old(log)
      ensures r.Forked? ==>
        && r.branchNo == NextNo(old(branches))
        && messages == KeptList(old(messages), point)
        && branches == old(branches) + [Branch(r.branchNo, point.index, reason, old(messages)[point.index..])]
        && log == old(log) + [Event.Fork(r.branchNo, point.index, reason)] + Appends(Extra(old(messages), point))
    {
      hide Legal, Play, Redelivered, ResultsFor, NextNo;
      var index := point.index;
      if index < 0 || index >= |messages| {
        return Refused(NothingToDiscard);
      }
      var discarded := messages[index..];
      var kept := messages[..index];
      if point.edit.Some? {
        if point.edit.value.messageIndex != index {
          return Refused(EditNotAtFork);
        }
        if !messages[index].Assistant? {
          return Refused(EditTargetNotAssistant);
        }
        var edited := EditSiblings(messages, point);
        kept := kept + edited;
      }
      assert kept == messages[..index] + Edited(messages, point);
      kept := kept + Redelivered(discarded, kept);
      assert kept == KeptList(messages, point);
      var no := NextNo(branches);
      LogFork(log, no, index, reason, Extra(messages, point), branches);
      log := log + [Event.Fork(no, index, reason)] + Appends(Extra(messages, point));
      branches := branches + [Branch(no, index, reason, discarded)];
      messages := kept;
      return Forked(no);
    }
  }

  lemma {:induction false} NextNoIsNew(bs: seq<Branch>)
    ensures NextNo(bs) > 0 && forall i :: 0 <= i < |bs| ==> bs[i].no < NextNo(bs)
  {
    if bs != [] { NextNoIsNew(bs[..|bs| - 1]); }
  }

  /** A fork and what it appends, as events of the session's history. */
  lemma LogFork(log: seq<Event>, no: nat, at: nat, reason: BranchReason, extra: seq<Message>, bs: seq<Branch>)
    requires Legal(log) && at <= |Play(log).live| && bs == Play(log).branches && no == NextNo(bs)
    ensures var longer := log + [Event.Fork(no, at, reason)] + Appends(extra);
      var live := Play(log).live;
      Legal(longer) && Play(longer) == Session(live[..at] + extra, bs + [Branch(no, at, reason, live[at..])])
  {
    NextNoIsNew(bs);
    PlayAppend(log, Event.Fork(no, at, reason));
    PlayAppends(log + [Event.Fork(no, at, reason)], extra);
  }
}
