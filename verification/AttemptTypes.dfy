/** What a derived attempt says of the messages it was derived from. */
module AttemptTypes {
  import opened Transcript
  import opened Chronology
  import opened Derivation
  import opened RunSpans

  // ---------------------------------------------------------------------------
  // The sends of a span
  // ---------------------------------------------------------------------------

  predicate Sending(name: ToolName) {
    IsPosting(name) || name.NoReply?
  }

  predicate Result(m: Message, id: string) {
    m.ToolResult? && m.callId == id
  }

  /** Call `k` of the model's message `i` posts or declines to, and `r` is the last result that answers it. */
  ghost predicate Answered(span: seq<Located>, i: int, k: int, r: int) {
    && 0 <= i < |span| && 0 <= r < |span| && 0 <= k < |ModelCalls(span[i].m)|
    && var call := ModelCalls(span[i].m)[k];
    && Sending(call.name) && Result(span[r].m, call.id)
    && forall q | r < q < |span| :: !Result(span[q].m, call.id)
  }

  /** Some send of the span was answered without an error. */
  ghost predicate SentSomething(span: seq<Located>) {
    exists i, k, r | Answered(span, i, k, r) :: !span[r].m.isError
  }

  /** No send after call `k` of message `i` was answered. */
  ghost predicate LastAnswered(span: seq<Located>, i: int, k: int, r: int) {
    Answered(span, i, k, r) && forall j, l, q | Answered(span, j, l, q) :: j < i || (j == i && l <= k)
  }

  /** The last send of the span that was answered failed. */
  ghost predicate LastSendFailed(span: seq<Located>) {
    exists i, k, r | LastAnswered(span, i, k, r) :: span[r].m.isError
  }

  function Precedence(f: Failure): nat {
    match f
    case InvalidToolCall => 0
    case TextualToolCall => 1
    case ContextMimicry => 2
    case SentButNotFinal => 3
    case TextOnly => 4
    case EmptyEnding => 5
  }

  /** The failure types of an attempt, from its ending and the sends before it. */
  ghost predicate Explains(types: seq<Failure>, ending: Message, span: seq<Located>)
    requires ending.Assistant?
  {
    var invalid, prose := !ValidEnding(ending), ending.prose;
    && (InvalidToolCall in types <==> invalid && LastSendFailed(span))
    && (TextualToolCall in types <==> invalid && prose.Words? && prose.toolCallMarkup)
    && (ContextMimicry in types <==> invalid && prose.Words? && prose.contextMarkup)
    && (SentButNotFinal in types <==> invalid && SentSomething(span))
    && (TextOnly in types <==> invalid && !prose.Empty?)
    && (EmptyEnding in types <==> invalid && prose.Empty? && !LastSendFailed(span) && !SentSomething(span))
    && (forall a, b | 0 <= a < b < |types| :: Precedence(types[a]) < Precedence(types[b]))
  }

  lemma {:induction false} ErrorsAreLast(span: seq<Located>, id: string)
    ensures id in ResultErrors(span) <==> exists r | 0 <= r < |span| :: Result(span[r].m, id)
    ensures id in ResultErrors(span) ==> exists r | 0 <= r < |span| ::
      && Result(span[r].m, id) && ResultErrors(span)[id] == span[r].m.isError
      && forall q | r < q < |span| :: !Result(span[q].m, id)
  {
    if span != [] {
      var n := |span| - 1;
      var init := span[..n];
      ErrorsAreLast(init, id);
      if Result(span[n].m, id) {
        assert span[n].m.ToolResult?;
      } else if id in ResultErrors(init) {
        var r :| 0 <= r < |init| && Result(init[r].m, id) && ResultErrors(init)[id] == init[r].m.isError
          && forall q | r < q < |init| :: !Result(init[q].m, id);
        assert Result(span[r].m, id);
        forall q | r < q < |span| ensures !Result(span[q].m, id) {
          if q < n { assert span[q] == init[q]; }
        }
      }
    }
  }

  /** A send whose call id is among the answered. */
  ghost predicate Sent(span: seq<Located>, errors: map<string, bool>, i: int, k: int) {
    && 0 <= i < |span| && 0 <= k < |ModelCalls(span[i].m)|
    && Sending(ModelCalls(span[i].m)[k].name) && ModelCalls(span[i].m)[k].id in errors
  }

  ghost predicate SentCall(calls: seq<ToolCall>, errors: map<string, bool>, k: int) {
    0 <= k < |calls| && Sending(calls[k].name) && calls[k].id in errors
  }

  ghost predicate NoneSent(calls: seq<ToolCall>, errors: map<string, bool>) {
    forall k :: !SentCall(calls, errors, k)
  }

  ghost predicate LastCall(calls: seq<ToolCall>, errors: map<string, bool>, k: int) {
    SentCall(calls, errors, k) && forall l | SentCall(calls, errors, l) :: l <= k
  }

  lemma OneMoreCall(calls: seq<ToolCall>, errors: map<string, bool>, n: nat)
    requires |calls| == n + 1
    ensures forall k: int ::
      SentCall(calls, errors, k) <==> SentCall(calls[..n], errors, k) || (k == n && SentCall(calls, errors, n))
  {
    forall k: int
      ensures SentCall(calls, errors, k) <==> SentCall(calls[..n], errors, k) || (k == n && SentCall(calls, errors, n))
    {
      if 0 <= k < n { assert calls[..n][k] == calls[k]; }
    }
  }

  lemma {:induction false} CallSendsHave(calls: seq<ToolCall>, errors: map<string, bool>, e: bool)
    ensures e in CallSends(calls, errors) <==> exists k | SentCall(calls, errors, k) :: errors[calls[k].id] == e
  {
    if calls != [] {
      var n := |calls| - 1;
      var before := CallSends(calls[..n], errors);
      CallSendsHave(calls[..n], errors, e);
      OneMoreCall(calls, errors, n);
      assert e in CallSends(calls, errors) <==> e in before || (SentCall(calls, errors, n) && errors[calls[n].id] == e);
      if k :| SentCall(calls[..n], errors, k) && errors[calls[..n][k].id] == e {
        assert SentCall(calls, errors, k) && calls[k] == calls[..n][k];
      }
    }
  }

  lemma {:induction false} CallSendsEnd(calls: seq<ToolCall>, errors: map<string, bool>)
    ensures var sends := CallSends(calls, errors);
      && (sends != [] <==> exists k :: SentCall(calls, errors, k))
      && (sends != [] ==> exists k | LastCall(calls, errors, k) :: errors[calls[k].id] == sends[|sends| - 1])
  {
    if calls != [] {
      var n := |calls| - 1;
      var init := calls[..n];
      CallSendsEnd(init, errors);
      OneMoreCall(calls, errors, n);
      var before, sends := CallSends(init, errors), CallSends(calls, errors);
      if SentCall(calls, errors, n) {
        assert sends == before + [errors[calls[n].id]];
        assert LastCall(calls, errors, n);
      } else {
        assert sends == before;
        if sends != [] {
          var k :| LastCall(init, errors, k) && errors[init[k].id] == sends[|sends| - 1];
          assert LastCall(calls, errors, k) && calls[k] == init[k];
        }
      }
    }
  }

  ghost predicate LastSent(span: seq<Located>, errors: map<string, bool>, i: int, k: int) {
    Sent(span, errors, i, k) && forall j, l | Sent(span, errors, j, l) :: j < i || (j == i && l <= k)
  }

  lemma SentSplit(span: seq<Located>, errors: map<string, bool>)
    requires span != []
    ensures var n := |span| - 1;
      && (forall i, k | Sent(span[..n], errors, i, k) :: Sent(span, errors, i, k) && span[..n][i] == span[i])
      && (forall i, k | Sent(span, errors, i, k) && i < n :: Sent(span[..n], errors, i, k))
      && (forall k :: Sent(span, errors, n, k) <==> SentCall(ModelCalls(span[n].m), errors, k))
  {
  }

  lemma {:induction false} SendsHave(span: seq<Located>, errors: map<string, bool>, e: bool)
    ensures e in Sends(span, errors) <==>
      exists i, k | Sent(span, errors, i, k) :: errors[ModelCalls(span[i].m)[k].id] == e
  {
    hide CallSends;
    if span != [] {
      var n := |span| - 1;
      var init, calls := span[..n], ModelCalls(span[n].m);
      SendsHave(init, errors, e);
      CallSendsHave(calls, errors, e);
      SentSplit(span, errors);
      hide SentCall;
      assert e in Sends(span, errors) <==> e in Sends(init, errors) || e in CallSends(calls, errors);
      if i, k :| Sent(span, errors, i, k) && errors[ModelCalls(span[i].m)[k].id] == e {
        if i < n { assert Sent(init, errors, i, k); } else { assert SentCall(calls, errors, k); }
      }
      if k :| SentCall(calls, errors, k) && errors[calls[k].id] == e {
        assert Sent(span, errors, n, k);
      }
    }
  }

  /** The last send that was answered came back as `e` says. */
  ghost predicate EndsWithAnswer(span: seq<Located>, errors: map<string, bool>, e: bool) {
    exists i, k | LastSent(span, errors, i, k) :: errors[ModelCalls(span[i].m)[k].id] == e
  }

  ghost predicate NoSends(span: seq<Located>, errors: map<string, bool>) {
    forall i, k :: !Sent(span, errors, i, k)
  }

  lemma {:induction false} SendsEnd(span: seq<Located>, errors: map<string, bool>)
    ensures var sends := Sends(span, errors);
      && (sends != [] ==> EndsWithAnswer(span, errors, sends[|sends| - 1]))
      && (sends == [] ==> NoSends(span, errors))
  {
    hide CallSends, EndsWithAnswer, NoSends, Sent, ModelCalls;
    if span == [] {
      NothingToSend(errors);
    } else {
      var n := |span| - 1;
      var init, calls := span[..n], ModelCalls(span[n].m);
      var before, here := Sends(init, errors), CallSends(calls, errors);
      SendsEnd(init, errors);
      if here != [] {
        EndsHere(span, errors);
        assert (before + here)[|before + here| - 1] == here[|here| - 1];
      } else {
        assert before + here == before;
        if before != [] { EndsEarlier(span, errors, before[|before| - 1]); } else { EndsNowhere(span, errors); }
      }
    }
  }

  lemma NothingToSend(errors: map<string, bool>)
    ensures NoSends([], errors)
  {
  }

  lemma EndsHere(span: seq<Located>, errors: map<string, bool>)
    requires span != []
    ensures var here := CallSends(ModelCalls(span[|span| - 1].m), errors);
      here != [] ==> EndsWithAnswer(span, errors, here[|here| - 1])
  {
    hide CallSends;
    var calls := ModelCalls(span[|span| - 1].m);
    var here := CallSends(calls, errors);
    CallSendsEnd(calls, errors);
    if here != [] {
      var k :| LastCall(calls, errors, k) && errors[calls[k].id] == here[|here| - 1];
      LastOfMessage(span, errors, k);
    }
  }

  lemma EndsEarlier(span: seq<Located>, errors: map<string, bool>, e: bool)
    requires span != [] && CallSends(ModelCalls(span[|span| - 1].m), errors) == []
    requires EndsWithAnswer(span[..|span| - 1], errors, e)
    ensures EndsWithAnswer(span, errors, e)
  {
    hide CallSends;
    var init, calls := span[..|span| - 1], ModelCalls(span[|span| - 1].m);
    CallSendsEnd(calls, errors);
    assert NoneSent(calls, errors);
    var i, k :| LastSent(init, errors, i, k) && errors[ModelCalls(init[i].m)[k].id] == e;
    LastEarlier(span, errors, i, k);
  }

  lemma EndsNowhere(span: seq<Located>, errors: map<string, bool>)
    requires span != [] && CallSends(ModelCalls(span[|span| - 1].m), errors) == []
    requires NoSends(span[..|span| - 1], errors)
    ensures NoSends(span, errors)
  {
    hide CallSends;
    CallSendsEnd(ModelCalls(span[|span| - 1].m), errors);
    assert NoneSent(ModelCalls(span[|span| - 1].m), errors);
    SentSplit(span, errors);
  }

  lemma LastOfMessage(span: seq<Located>, errors: map<string, bool>, k: int)
    requires span != [] && LastCall(ModelCalls(span[|span| - 1].m), errors, k)
    ensures LastSent(span, errors, |span| - 1, k)
  {
    SentSplit(span, errors);
    assert Sent(span, errors, |span| - 1, k);
  }

  lemma LastEarlier(span: seq<Located>, errors: map<string, bool>, i: int, k: int)
    requires span != [] && LastSent(span[..|span| - 1], errors, i, k)
    requires NoneSent(ModelCalls(span[|span| - 1].m), errors)
    ensures LastSent(span, errors, i, k) && span[i] == span[..|span| - 1][i]
  {
    SentSplit(span, errors);
  }

  /** A send is answered exactly when its id has a result, and by the last one. */
  lemma SentIsAnswered(span: seq<Located>, i: int, k: int)
    ensures Sent(span, ResultErrors(span), i, k) <==> exists r :: Answered(span, i, k, r)
    ensures forall r | Answered(span, i, k, r) ::
      ResultErrors(span)[ModelCalls(span[i].m)[k].id] == span[r].m.isError
  {
    if 0 <= i < |span| && 0 <= k < |ModelCalls(span[i].m)| {
      var id := ModelCalls(span[i].m)[k].id;
      ErrorsAreLast(span, id);
      if Sent(span, ResultErrors(span), i, k) {
        var r :| 0 <= r < |span| && Result(span[r].m, id) && ResultErrors(span)[id] == span[r].m.isError
          && forall q | r < q < |span| :: !Result(span[q].m, id);
        assert Answered(span, i, k, r);
      }
    }
  }

  lemma SendsMean(span: seq<Located>)
    ensures var sends := Sends(span, ResultErrors(span));
      && (false in sends <==> SentSomething(span))
      && (|sends| > 0 && sends[|sends| - 1] <==> LastSendFailed(span))
  {
    hide Sends, ResultErrors;
    SomethingSent(span);
    LastSend(span);
  }

  lemma SomethingSent(span: seq<Located>)
    ensures false in Sends(span, ResultErrors(span)) <==> SentSomething(span)
  {
    hide Sends, ResultErrors;
    var errors := ResultErrors(span);
    SendsHave(span, errors, false);
    if i, k :| Sent(span, errors, i, k) && !errors[ModelCalls(span[i].m)[k].id] {
      SentIsAnswered(span, i, k);
      var r :| Answered(span, i, k, r);
    }
    if i, k, r :| Answered(span, i, k, r) && !span[r].m.isError {
      SentIsAnswered(span, i, k);
    }
  }

  lemma OneAnswer(span: seq<Located>, i: int, k: int, q: int, r: int)
    requires Answered(span, i, k, q) && Answered(span, i, k, r)
    ensures q == r
  {
  }

  lemma LastAnswerIs(span: seq<Located>, e: bool)
    requires EndsWithAnswer(span, ResultErrors(span), e)
    ensures LastSendFailed(span) <==> e
  {
    hide ResultErrors;
    var errors := ResultErrors(span);
    var i, k :| LastSent(span, errors, i, k) && errors[ModelCalls(span[i].m)[k].id] == e;
    SentIsAnswered(span, i, k);
    var r :| Answered(span, i, k, r);
    LastIsLast(span, i, k, r);
    OneLast(span, i, k, r);
  }

  lemma OneLast(span: seq<Located>, i: int, k: int, r: int)
    requires LastAnswered(span, i, k, r)
    ensures LastSendFailed(span) <==> span[r].m.isError
  {
    if j, l, q :| LastAnswered(span, j, l, q) && span[q].m.isError {
      OneAnswer(span, i, k, q, r);
    }
  }

  lemma LastIsLast(span: seq<Located>, i: int, k: int, r: int)
    requires LastSent(span, ResultErrors(span), i, k) && Answered(span, i, k, r)
    ensures LastAnswered(span, i, k, r)
  {
    hide ResultErrors;
    forall j, l, q | Answered(span, j, l, q) ensures j < i || (j == i && l <= k) {
      SentIsAnswered(span, j, l);
    }
  }

  lemma LastSend(span: seq<Located>)
    ensures var sends := Sends(span, ResultErrors(span));
      |sends| > 0 && sends[|sends| - 1] <==> LastSendFailed(span)
  {
    hide Sends, ResultErrors, EndsWithAnswer;
    var errors := ResultErrors(span);
    var sends := Sends(span, errors);
    SendsEnd(span, errors);
    if sends != [] {
      LastAnswerIs(span, sends[|sends| - 1]);
    } else if j, l, q :| LastAnswered(span, j, l, q) {
      SentIsAnswered(span, j, l);
    }
  }

  // ---------------------------------------------------------------------------
  // Every derived attempt
  // ---------------------------------------------------------------------------

  lemma TypesExplain(ending: Message, span: seq<Located>)
    requires ending.Assistant?
    ensures Explains(FailuresOf(ending, Sends(span, ResultErrors(span))), ending, span)
  {
    hide Sends, ResultErrors, SentSomething, LastSendFailed, ValidEnding, FailuresOf;
    SendsMean(span);
    var sends := Sends(span, ResultErrors(span));
    TypesAre(ending, sends);
    TypesInOrder(ending, sends);
  }

  lemma TypesAre(ending: Message, sends: seq<bool>)
    requires ending.Assistant?
    ensures var types, invalid, prose := FailuresOf(ending, sends), !ValidEnding(ending), ending.prose;
      var failed, sent := |sends| > 0 && sends[|sends| - 1], false in sends;
      && (InvalidToolCall in types <==> invalid && failed)
      && (TextualToolCall in types <==> invalid && prose.Words? && prose.toolCallMarkup)
      && (ContextMimicry in types <==> invalid && prose.Words? && prose.contextMarkup)
      && (SentButNotFinal in types <==> invalid && sent)
      && (TextOnly in types <==> invalid && !prose.Empty?)
      && (EmptyEnding in types <==> invalid && prose.Empty? && !failed && !sent)
  {
    hide ValidEnding;
  }

  lemma TypesInOrder(ending: Message, sends: seq<bool>)
    requires ending.Assistant?
    ensures var types := FailuresOf(ending, sends);
      forall a, b | 0 <= a < b < |types| :: Precedence(types[a]) < Precedence(types[b])
  {
    hide ValidEnding;
  }

  ghost predicate CallsTool(m: Message, name: ToolName)
    requires m.Assistant?
  {
    exists c | c in m.calls :: c.name == name
  }

  lemma CallsToolMeans(m: Message, name: ToolName)
    requires m.Assistant?
    ensures CallsTool(m, name) <==> EndsWithTool(m, name)
  {
    if c :| c in m.calls && c.name == name {
      var k :| 0 <= k < |m.calls| && m.calls[k] == c;
      assert Calls(m)[k].name == name;
    }
    if k :| 0 <= k < |Calls(m)| && Calls(m)[k].name == name { assert Calls(m)[k] in m.calls; }
  }

  /** What an attempt closed on a span says of it. */
  ghost predicate Tells(a: Attempt, span: seq<Located>) {
    exists e | 0 <= e < |span| && IsModelMessage(span[e].m) ::
      var ending := span[e].m;
      && (forall j | e < j < |span| :: !IsModelMessage(span[j].m))
      && ending.stop.Completed?
      && a.branchNo == span[e].loc
      && (a.failures == [] <==>
            ending.prose.NoReplyText? || CallsTool(ending, SendMessage) || CallsTool(ending, NoReply))
      && Explains(a.failures, ending, span)
      && (a.silent <==>
            ending.prose.NoReplyText? || (CallsTool(ending, NoReply) && !CallsTool(ending, SendMessage)))
  }

  lemma {:induction false} LastModelAt(span: seq<Located>) returns (e: nat)
    requires LastModelMessage(span).Some?
    ensures e < |span| && span[e] == LastModelMessage(span).value
    ensures forall j | e < j < |span| :: !IsModelMessage(span[j].m)
  {
    var n := |span| - 1;
    e := n;
    if !IsModelMessage(span[n].m) { e := LastModelAt(span[..n]); }
  }

  lemma ClosedTells(span: seq<Located>, run: RunState, redoNo: nat)
    requires CloseSpan(span, run, redoNo).Ended?
    ensures Tells(CloseSpan(span, run, redoNo).attempt, span)
  {
    hide Sends, ResultErrors, Explains, CallsTool, EndsWithTool, FailuresOf;
    var e := LastModelAt(span);
    TypesExplain(span[e].m, span);
    CallsToolMeans(span[e].m, SendMessage);
    CallsToolMeans(span[e].m, NoReply);
    ValidMeansNone(span[e].m, Sends(span, ResultErrors(span)));
  }

  lemma ValidMeansNone(m: Message, sends: seq<bool>)
    requires m.Assistant?
    ensures FailuresOf(m, sends) == [] <==> ValidEnding(m)
  {
  }

  /** The last model message of the span is complete. */
  ghost predicate EndsComplete(span: seq<Located>) {
    exists e | 0 <= e < |span| && IsModelMessage(span[e].m) ::
      span[e].m.stop.Completed? && forall j | e < j < |span| :: !IsModelMessage(span[j].m)
  }

  /** An attempt ends after the first `n` items: a run is under way, and the session ends or a boundary follows. */
  ghost predicate Closes(items: seq<Item>, n: nat)
    requires n <= |items|
  {
    UnderWay(items[..n]) && (n == |items| || Boundary(items[n]))
  }

  /** Where attempts end with a complete message, below `n`. */
  ghost function Endings(items: seq<Item>, n: nat): seq<nat>
    requires n <= |items| + 1
  {
    if n == 0 then [] else
      Endings(items, n - 1) + (if Closes(items, n - 1) && EndsComplete(SpanOf(items[..n - 1])) then [n - 1] else [])
  }

  /** What the attempt that ends after the first `n` items is filed as. */
  ghost predicate FiledAt(items: seq<Item>, n: nat, a: Attempt) {
    && n <= |items|
    && var some := items[..n];
    a.redoNo == RedosIn(some) && NumberIs(some, a.attemptNo) && VariantIs(some, a.variant) && Tells(a, SpanOf(some))
  }

  ghost predicate AllFiled(items: seq<Item>, ns: seq<nat>, attempts: seq<Attempt>) {
    |attempts| == |ns| && forall k | 0 <= k < |ns| :: FiledAt(items, ns[k], attempts[k])
  }

  function Attempts(p: Progress): seq<Attempt> {
    AllAttempts(p.runs) + (if p.run.Some? then p.run.value.attempts else [])
  }

  /** Closing the attempt under way files one exactly when it ends with a complete message. */
  lemma CloseFiles(items: seq<Item>) returns (more: seq<Attempt>)
    requires Walk(items).run.Some?
    ensures var p := Walk(items); Close(p.run.value, p.redoNo).attempts == p.run.value.attempts + more
    ensures if EndsComplete(SpanOf(items)) then |more| == 1 && FiledAt(items, |items|, more[0]) else more == []
  {
    hide Walk, Tells, FailuresOf, Sends, ResultErrors, UnderWay, SpanOf, NumberIs, VariantIs, RedosIn;
    WalkReads(items);
    WalkCounts(items);
    assert items[..|items|] == items;
    var p := Walk(items);
    var run := p.run.value;
    more := [];
    EndingIs(run.span);
    if CloseSpan(run.span, run, p.redoNo).Ended? {
      ClosedTells(run.span, run, p.redoNo);
      more := [CloseSpan(run.span, run, p.redoNo).attempt];
    }
  }

  lemma {:induction false} EndingIs(span: seq<Located>)
    ensures EndsComplete(span) <==> LastModelMessage(span).Some? && LastModelMessage(span).value.m.stop.Completed?
  {
    if LastModelMessage(span).Some? {
      var e := LastModelAt(span);
      assert IsModelMessage(span[e].m);
    } else {
      NoModelMessage(span);
    }
  }

  lemma {:induction false} NoModelMessage(span: seq<Located>)
    requires LastModelMessage(span).None?
    ensures forall e | 0 <= e < |span| :: !IsModelMessage(span[e].m)
  {
    if span != [] { NoModelMessage(span[..|span| - 1]); }
  }

  lemma {:induction false} EndingsBefore(items: seq<Item>, x: Item, n: nat)
    requires n <= |items|
    ensures Endings(items + [x], n) == Endings(items, n)
  {
    if n > 0 {
      EndingsBefore(items, x, n - 1);
      assert (items + [x])[..n - 1] == items[..n - 1] && (items + [x])[n - 1] == items[n - 1];
    }
  }

  /** The rest of the walk's step leaves the attempts alone. */
  lemma CloseKeeps(run: RunState, redoNo: nat)
    ensures forall m | IsNudge(m) :: NudgeRun(run, m, redoNo).attempts == Close(run, redoNo).attempts
    ensures forall x :: Extend(run, x).attempts == run.attempts
  {
    hide Close, PostingIds;
  }

  lemma FinishAttempts(p: Progress, more: seq<Attempt>)
    requires p.run.Some? ==> Close(p.run.value, p.redoNo).attempts == p.run.value.attempts + more
    ensures AllAttempts(FinishRun(p).runs) == Attempts(p) + (if p.run.Some? then more else [])
  {
    hide Close;
    if p.run.Some? {
      var closed := p.runs + [Close(p.run.value, p.redoNo)];
      assert closed[..|closed| - 1] == p.runs;
    }
  }

  /** A boundary files the attempt it closes; no other item files any. */
  lemma NextFiles(p: Progress, x: Item, more: seq<Attempt>)
    requires p.run.Some? ==> Close(p.run.value, p.redoNo).attempts == p.run.value.attempts + more
    ensures Attempts(Next(p, x)) == Attempts(p) + (if p.run.Some? && Boundary(x) then more else [])
  {
    hide Close, NudgeRun, Extend, WithoutBranch, AllAttempts, FinishRun;
    FinishAttempts(p, more);
    if p.run.Some? { CloseKeeps(p.run.value, p.redoNo); }
    assert Attempts(p) + [] == Attempts(p);
    if x.Said? && !x.excluded && (Records(x) || Starts(x)) { Finished(p); }
  }

  lemma Finished(p: Progress)
    ensures FinishRun(p).run.None?
  {
  }

  lemma FiledOn(items: seq<Item>, x: Item, ns: seq<nat>, attempts: seq<Attempt>)
    requires AllFiled(items, ns, attempts)
    ensures AllFiled(items + [x], ns, attempts)
  {
    hide Tells, NumberIs, VariantIs;
    forall k | 0 <= k < |ns| ensures FiledAt(items + [x], ns[k], attempts[k]) {
      assert FiledAt(items, ns[k], attempts[k]);
      assert (items + [x])[..ns[k]] == items[..ns[k]];
    }
  }

  lemma {:induction false} WalkFiles(items: seq<Item>)
    ensures AllFiled(items, Endings(items, |items|), Attempts(Walk(items)))
  {
    hide Walk, Attempts, FiledAt, UnderWay, EndsComplete, SpanOf;
    if items == [] {
      NothingFiled();
    } else {
      var init, x := items[..|items| - 1], items[|items| - 1];
      assert items == init + [x] && items[..|init|] == init;
      WalkFiles(init);
      FiledOn(init, x, Endings(init, |init|), Attempts(Walk(init)));
      EndingsBefore(init, x, |init|);
      WalkReads(init);
      var more := [];
      if Walk(init).run.Some? {
        more := CloseFiles(init);
        if more != [] { FiledOn(init, x, [|init|], more); }
      }
      NextFiles(Walk(init), x, more);
      WalkStep(init, x);
      if more != [] && Boundary(x) { assert FiledAt(items, [|init|][0], more[0]); }
    }
  }

  lemma WalkStep(items: seq<Item>, x: Item)
    ensures Walk(items + [x]) == Next(Walk(items), x)
  {
    assert (items + [x])[..|items|] == items;
  }

  lemma NothingFiled()
    ensures Attempts(Walk([])) == []
  {
  }

  lemma EndingsEnd(items: seq<Item>)
    ensures Endings(items, |items| + 1) ==
      Endings(items, |items|) + (if UnderWay(items) && EndsComplete(SpanOf(items)) then [|items|] else [])
  {
    hide UnderWay, EndsComplete, SpanOf;
    assert items[..|items|] == items;
  }

  lemma FinishFiles(items: seq<Item>)
    ensures AllFiled(items, Endings(items, |items| + 1), AllAttempts(FinishRun(Walk(items)).runs))
  {
    hide Walk, FiledAt, UnderWay, EndsComplete, SpanOf, Close, Endings, FinishRun, Attempts;
    WalkFiles(items);
    WalkReads(items);
    EndingsEnd(items);
    var more := [];
    if Walk(items).run.Some? { more := CloseFiles(items); }
    FinishAttempts(Walk(items), more);
  }

  /**
   * A derivation files one attempt for each boundary of a run, and the end of the session, where the attempt under
   * way ends with a complete model message, in order, and no other. Each tells of the messages since the boundary
   * before, less those a fork took back: it has no failure type exactly for a valid ending, and each type it has, in
   * order of precedence, is in the messages. Its redo, number and variant are those of the redos and prompts before
   * it, before colliding numbers are changed.
   */
  lemma EveryAttemptTells(items: seq<Item>)
    ensures exists raw ::
      DerivedFrom(items).attempts == Renumbered(raw) && AllFiled(items, Endings(items, |items| + 1), raw)
  {
    hide AllFiled, Endings, Renumbered, FinishRun, Walk;
    FinishFiles(items);
    assert DerivedFrom(items).attempts == Renumbered(AllAttempts(FinishRun(Walk(items)).runs));
  }

  /** A run that ends in an aborted or failed message has no outcome; one that ends in a complete one does. */
  lemma IncompleteHasNoOutcome(run: RunState, redoNo: nat)
    ensures var last := LastModelMessage(run.span);
      && (last.Some? && !last.value.m.stop.Completed? ==> RunOutcome(Close(run, redoNo)) == None)
      && (last.Some? && last.value.m.stop.Completed? ==> RunOutcome(Close(run, redoNo)).Some?)
      && (last.None? ==> RunOutcome(Close(run, redoNo)) == RunOutcome(run))
  {
    hide FailuresOf, Sends, ResultErrors;
  }

  // ---------------------------------------------------------------------------
  // What does not count
  // ---------------------------------------------------------------------------

  function Sampled(items: seq<Item>): seq<Item> {
    if items == [] then [] else
      Sampled(items[..|items| - 1]) + (if items[|items| - 1].excluded then [] else [items[|items| - 1]])
  }

  lemma {:induction false} WalkSampled(items: seq<Item>)
    ensures Walk(Sampled(items)) == Walk(items)
  {
    hide NextCut, NextSaid;
    if items != [] {
      var init, x := items[..|items| - 1], items[|items| - 1];
      WalkSampled(init);
      var some := Sampled(init);
      if x.excluded {
        assert some + [] == some;
      } else {
        assert (some + [x])[..|some|] == some;
      }
    }
  }

  /** An excluded item leaves no trace in what is derived. */
  lemma ExcludedLeaveNoTrace(items: seq<Item>)
    ensures DerivedFrom(Sampled(items)) == DerivedFrom(items)
  {
    WalkSampled(items);
  }
}
