/** The send-contract events of a session: its attempts, the nudges and redos between them, and its outcome. */
module Derivation {
  import opened Transcript
  import opened Chronology

  /** In order of precedence. */
  datatype Failure = InvalidToolCall | TextualToolCall | ContextMimicry | SentButNotFinal | TextOnly | EmptyEnding

  datatype AttemptVariant = Original | Nudged(v: NudgeVariant)

  datatype Attempt = Attempt(
    branchNo: nat, redoNo: nat, attemptNo: int, variant: AttemptVariant, failures: seq<Failure>, silent: bool)

  datatype RunState = RunState(
    attempts: seq<Attempt>,
    span: seq<Located>,  // the messages since the last attempt boundary
    natural: int,
    variant: AttemptVariant,
    nudges: nat,
    contractRedos: nat,
    incompleteEnd: bool,
    delivered: bool,
    postingCalls: set<string>)

  datatype Outcome = Clean | Recovered | RedoRecovered | GaveUpNoReply | Exhausted

  datatype Derived = Derived(attempts: seq<Attempt>, outcome: Option<Outcome>, nudges: nat, redos: nat)

  datatype Closed = NoEnding | Incomplete | Ended(attempt: Attempt)

  /** `run` is `None` inside a record turn. */
  datatype Progress = Progress(runs: seq<RunState>, run: Option<RunState>, redoNo: nat, nudges: nat, redos: nat)

  const NEW_RUN: RunState := RunState([], [], 0, Original, 0, 0, false, false, {})

  const START: Progress := Progress([], Some(NEW_RUN), 0, 0, 0)

  predicate IsModelMessage(m: Message) {
    m.Assistant? && m.harness.None?
  }

  function ModelCalls(m: Message): seq<ToolCall> {
    if IsModelMessage(m) then m.calls else []
  }

  predicate EndsWithTool(m: Message, name: ToolName) {
    exists k :: 0 <= k < |Calls(m)| && Calls(m)[k].name == name
  }

  predicate ValidEnding(m: Message)
    requires m.Assistant?
  {
    m.prose.NoReplyText? || EndsWithTool(m, SendMessage) || EndsWithTool(m, NoReply)
  }

  predicate SilentEnding(m: Message)
    requires m.Assistant?
  {
    m.prose.NoReplyText? || (EndsWithTool(m, NoReply) && !EndsWithTool(m, SendMessage))
  }

  function LastModelMessage(span: seq<Located>): (r: Option<Located>)
    ensures r.Some? ==> IsModelMessage(r.value.m)
  {
    if span == [] then None
    else if IsModelMessage(span[|span| - 1].m) then Some(span[|span| - 1])
    else LastModelMessage(span[..|span| - 1])
  }

  function ResultErrors(span: seq<Located>): map<string, bool> {
    if span == [] then map[] else
      var m := span[|span| - 1].m;
      var before := ResultErrors(span[..|span| - 1]);
      if m.ToolResult? then before[m.callId := m.isError] else before
  }

  function CallSends(calls: seq<ToolCall>, errors: map<string, bool>): seq<bool> {
    if calls == [] then [] else
      var c := calls[|calls| - 1];
      CallSends(calls[..|calls| - 1], errors)
      + (if (IsPosting(c.name) || c.name.NoReply?) && c.id in errors then [errors[c.id]] else [])
  }

  /** Whether each answered posting or `no_reply` call of the span failed, in order. */
  function Sends(span: seq<Located>, errors: map<string, bool>): seq<bool> {
    if span == [] then [] else
      Sends(span[..|span| - 1], errors) + CallSends(ModelCalls(span[|span| - 1].m), errors)
  }

  function FailuresOf(ending: Message, sends: seq<bool>): seq<Failure>
    requires ending.Assistant?
  {
    if ValidEnding(ending) then [] else
      var types :=
        (if |sends| > 0 && sends[|sends| - 1] then [InvalidToolCall] else [])
        + (if ending.prose.Words? && ending.prose.toolCallMarkup then [TextualToolCall] else [])
        + (if ending.prose.Words? && ending.prose.contextMarkup then [ContextMimicry] else [])
        + (if false in sends then [SentButNotFinal] else [])
        + (if !ending.prose.Empty? then [TextOnly] else []);
      if types == [] then [EmptyEnding] else types
  }

  function CloseSpan(span: seq<Located>, run: RunState, redoNo: nat): Closed {
    var ending := LastModelMessage(span);
    if ending.None? then NoEnding
    else if !ending.value.m.stop.Completed? then Incomplete
    else
      var m := ending.value.m;
      Ended(Attempt(ending.value.loc, redoNo, run.natural, run.variant,
                    FailuresOf(m, Sends(span, ResultErrors(span))), ValidEnding(m) && SilentEnding(m)))
  }

  function Close(run: RunState, redoNo: nat): RunState {
    match CloseSpan(run.span, run, redoNo)
    case NoEnding => run.(span := [])
    case Incomplete => run.(span := [], incompleteEnd := true)
    case Ended(a) => run.(span := [], incompleteEnd := false, attempts := run.attempts + [a])
  }

  function FinishRun(p: Progress): Progress {
    if p.run.None? then p else p.(runs := p.runs + [Close(p.run.value, p.redoNo)], run := None)
  }

  function WithoutBranch(span: seq<Located>, no: nat): seq<Located> {
    if span == [] then [] else
      WithoutBranch(span[..|span| - 1], no) + (if span[|span| - 1].loc != no then [span[|span| - 1]] else [])
  }

  function PostingIds(calls: seq<ToolCall>): set<string> {
    set k | 0 <= k < |calls| && IsPosting(calls[k].name) :: calls[k].id
  }

  /** A message that belongs to the attempt in progress. */
  function Extend(run: RunState, x: Located): RunState {
    var m := x.m;
    var noted :=
      if IsModelMessage(m) then run.(postingCalls := run.postingCalls + PostingIds(m.calls))
      else if m.ToolResult? && !m.isError && m.callId in run.postingCalls then run.(delivered := true)
      else run;
    noted.(span := run.span + [x])
  }

  function NudgeRun(run: RunState, m: Message, redoNo: nat): RunState
    requires IsNudge(m)
  {
    var closed := Close(run, redoNo);
    var n := NudgeAttemptOf(m);
    closed.(nudges := closed.nudges + 1,
            natural := if n.Some? then n.value else closed.natural + 1,
            variant := Nudged(NudgeVariantOf(m)))
  }

  function NextCut(p: Progress, reason: BranchReason, no: nat): Progress {
    if p.run.None? then p
    else if reason.ContractRedo? then
      var closed := Close(p.run.value, p.redoNo);
      p.(run := Some(closed.(contractRedos := closed.contractRedos + 1, natural := 0, variant := Original)),
         redoNo := p.redoNo + 1,
         redos := p.redos + 1)
    else
      var run := p.run.value;
      p.(run := Some(run.(span := WithoutBranch(run.span, no), natural := 0, variant := Original)))
  }

  function NextSaid(p: Progress, x: Located): Progress {
    var m := x.m;
    if IsRecordTurn(m) then FinishRun(p)
    else if IsRunStart(m) then FinishRun(p).(run := Some(NEW_RUN.(span := [x])))
    else if p.run.None? then p
    else if IsNudge(m) then p.(run := Some(NudgeRun(p.run.value, m, p.redoNo)), nudges := p.nudges + 1)
    else p.(run := Some(Extend(p.run.value, x)))
  }

  function Next(p: Progress, item: Item): Progress {
    if item.excluded then p else
      match item
      case Cut(reason, no, _) => NextCut(p, reason, no)
      case Said(m, loc, _) => NextSaid(p, Located(m, loc))
  }

  function Walk(items: seq<Item>): Progress {
    if items == [] then START else Next(Walk(items[..|items| - 1]), items[|items| - 1])
  }

  function AllAttempts(runs: seq<RunState>): seq<Attempt> {
    if runs == [] then [] else AllAttempts(runs[..|runs| - 1]) + runs[|runs| - 1].attempts
  }

  predicate SameGroup(a: Attempt, b: Attempt) {
    a.branchNo == b.branchNo && a.redoNo == b.redoNo
  }

  /** Two attempts of the group of `a` carry the same number. */
  predicate Collides(all: seq<Attempt>, a: Attempt) {
    exists i, j ::
      0 <= i < j < |all| && SameGroup(all[i], a) && SameGroup(all[j], a) && all[i].attemptNo == all[j].attemptNo
  }

  function Earlier(all: seq<Attempt>, i: nat, a: Attempt): (r: nat)
    requires i <= |all|
    ensures r <= i
  {
    if i == 0 then 0 else Earlier(all, i - 1, a) + (if SameGroup(all[i - 1], a) then 1 else 0)
  }

  /** A colliding group is numbered again, in production order. */
  function Renumbered(all: seq<Attempt>): (r: seq<Attempt>)
    ensures |r| == |all|
  {
    seq(|all|, i requires 0 <= i < |all| =>
      if Collides(all, all[i]) then all[i].(attemptNo := Earlier(all, i, all[i])) else all[i])
  }

  function RunOutcome(run: RunState): Option<Outcome> {
    if run.incompleteEnd || run.attempts == [] then None else
      var last := run.attempts[|run.attempts| - 1];
      if last.failures != [] then Some(Exhausted)
      else if run.nudges == 0 && run.contractRedos == 0 then Some(Clean)
      else if last.silent && !run.delivered then Some(GaveUpNoReply)
      else if run.contractRedos > 0 then Some(RedoRecovered)
      else Some(Recovered)
  }

  function Severity(o: Outcome): nat {
    match o
    case Clean => 0
    case Recovered => 1
    case RedoRecovered => 2
    case GaveUpNoReply => 3
    case Exhausted => 4
  }

  function Worse(a: Option<Outcome>, b: Option<Outcome>): Option<Outcome> {
    if b.None? then a else if a.None? || Severity(b.value) > Severity(a.value) then b else a
  }

  function SessionOutcome(runs: seq<RunState>): Option<Outcome> {
    if runs == [] then None else Worse(SessionOutcome(runs[..|runs| - 1]), RunOutcome(runs[|runs| - 1]))
  }

  function DerivedFrom(items: seq<Item>): Derived {
    var p := FinishRun(Walk(items));
    Derived(Renumbered(AllAttempts(p.runs)), SessionOutcome(p.runs), p.nudges, p.redos)
  }

  /** The loop over the chronology. */
  method DeriveContractEvents(transcript: seq<Message>, branches: seq<Branch>) returns (d: Derived)
    ensures d == DerivedFrom(Chron(transcript, branches))
  {
    var items := ChronologyOf(transcript, branches);
    var p := START;
    var k := 0;
    while k < |items|
      invariant k <= |items| && p == Walk(items[..k])
    {
      assert items[..k + 1][..k] == items[..k];
      p := Next(p, items[k]);
      k := k + 1;
    }
    assert items[..k] == items;
    p := FinishRun(p);
    var all: seq<Attempt> := [];
    var outcome: Option<Outcome> := None;
    k := 0;
    while k < |p.runs|
      invariant k <= |p.runs| && all == AllAttempts(p.runs[..k]) && outcome == SessionOutcome(p.runs[..k])
    {
      assert p.runs[..k + 1][..k] == p.runs[..k];
      all := all + p.runs[k].attempts;
      outcome := Worse(outcome, RunOutcome(p.runs[k]));
      k := k + 1;
    }
    assert p.runs[..k] == p.runs;
    return Derived(Renumbered(all), outcome, p.nudges, p.redos);
  }

  // ---------------------------------------------------------------------------
  // Attempt numbers
  // ---------------------------------------------------------------------------

  lemma {:induction false} EarlierGrows(all: seq<Attempt>, i: nat, j: nat, a: Attempt)
    requires i < j <= |all| && SameGroup(all[i], a)
    ensures Earlier(all, i, a) < Earlier(all, j, a)
  {
    if i + 1 < j { EarlierGrows(all, i, j - 1, a); }
  }

  lemma SameEarlier(all: seq<Attempt>, i: nat, a: Attempt, b: Attempt)
    requires i <= |all| && SameGroup(a, b)
    ensures Earlier(all, i, a) == Earlier(all, i, b)
  {
  }

  /** Attempt numbers are unique per branch and redo, whatever the messages claimed. */
  lemma AttemptNumbersAreUnique(all: seq<Attempt>, i: nat, j: nat)
    requires i < j < |all| && SameGroup(all[i], all[j])
    ensures Renumbered(all)[i].attemptNo != Renumbered(all)[j].attemptNo
  {
    if Collides(all, all[i]) {
      EarlierGrows(all, i, j, all[i]);
      SameEarlier(all, j, all[i], all[j]);
    }
  }

  /** Numbers that are already unique stay. */
  lemma NoCollisionNoChange(all: seq<Attempt>)
    requires forall i, j | 0 <= i < j < |all| && SameGroup(all[i], all[j]) :: all[i].attemptNo != all[j].attemptNo
    ensures Renumbered(all) == all
  {
  }

  /** The next attempt of the group of attempt `j`. */
  ghost predicate NextOfGroup(all: seq<Attempt>, j: nat, i: nat) {
    j < i < |all| && SameGroup(all[j], all[i]) && forall k | j < k < i :: !SameGroup(all[k], all[i])
  }

  /** A group whose numbers collide is numbered from 0 in the order of production, one by one. */
  lemma RenumberedInOrder(all: seq<Attempt>, j: nat, i: nat)
    requires i < |all| && Collides(all, all[i])
    ensures (forall k | 0 <= k < i :: !SameGroup(all[k], all[i])) ==> Renumbered(all)[i].attemptNo == 0
    ensures NextOfGroup(all, j, i) ==> Renumbered(all)[i].attemptNo == Renumbered(all)[j].attemptNo + 1
  {
    hide Collides;
    NoneEarlier(all, 0, i, all[i]);
    if NextOfGroup(all, j, i) {
      NoneEarlier(all, j + 1, i, all[i]);
      SameEarlier(all, j, all[i], all[j]);
      CollidesToo(all, all[i], all[j]);
    }
  }

  lemma {:induction false} NoneEarlier(all: seq<Attempt>, j: nat, i: nat, a: Attempt)
    requires j <= i <= |all|
    ensures (forall k | j <= k < i :: !SameGroup(all[k], a)) ==> Earlier(all, i, a) == Earlier(all, j, a)
    decreases i
  {
    if j < i { NoneEarlier(all, j, i - 1, a); }
  }

  lemma CollidesToo(all: seq<Attempt>, a: Attempt, b: Attempt)
    requires SameGroup(a, b) && Collides(all, a)
    ensures Collides(all, b)
  {
    var i, j :| 0 <= i < j < |all| && SameGroup(all[i], a) && SameGroup(all[j], a)
      && all[i].attemptNo == all[j].attemptNo;
    assert SameGroup(all[i], b) && SameGroup(all[j], b);
  }

  // ---------------------------------------------------------------------------
  // The outcome of a session
  // ---------------------------------------------------------------------------

  ghost predicate SomeRun(runs: seq<RunState>, o: Outcome) {
    exists k | 0 <= k < |runs| :: RunOutcome(runs[k]) == Some(o)
  }

  lemma SomeRunSplit(runs: seq<RunState>, o: Outcome)
    requires runs != []
    ensures SomeRun(runs, o) <==> SomeRun(runs[..|runs| - 1], o) || RunOutcome(runs[|runs| - 1]) == Some(o)
  {
    var init := runs[..|runs| - 1];
    if k :| 0 <= k < |init| && RunOutcome(init[k]) == Some(o) { assert RunOutcome(runs[k]) == Some(o); }
    if k :| 0 <= k < |runs| && RunOutcome(runs[k]) == Some(o) {
      if k < |init| { assert RunOutcome(init[k]) == Some(o); }
    }
  }

  /** A session is as bad as its worst run: exhausted, no reply, redone, nudged, clean, in that order. */
  lemma {:induction false} OutcomeIsWorst(runs: seq<RunState>)
    ensures SessionOutcome(runs) ==
      if SomeRun(runs, Exhausted) then Some(Exhausted)
      else if SomeRun(runs, GaveUpNoReply) then Some(GaveUpNoReply)
      else if SomeRun(runs, RedoRecovered) then Some(RedoRecovered)
      else if SomeRun(runs, Recovered) then Some(Recovered)
      else if SomeRun(runs, Clean) then Some(Clean)
      else None
  {
    if runs != [] {
      hide RunOutcome, SomeRun;
      OutcomeIsWorst(runs[..|runs| - 1]);
      forall o ensures SomeRun(runs, o) <==> SomeRun(runs[..|runs| - 1], o) || RunOutcome(runs[|runs| - 1]) == Some(o) {
        SomeRunSplit(runs, o);
      }
    }
  }
}
