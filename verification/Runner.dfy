/** The loop that drives a session run: corrective nudges, one contract redo per failure point, and the end. */
module Runners {
  import opened Transcript
  import opened Chronology
  import opened Forks
  import opened Derivation

  /** `contractRedo`: the option is on and a redo handler is bound. */
  datatype Config = Config(maxRetries: nat, contractRedo: bool)

  datatype Status = Running | Finished(noReply: bool)

  /** What one settled attempt was to the runner; `silent`: it chose to send nothing. */
  datatype Row = Row(redoNo: nat, attemptNo: int, variant: AttemptVariant, valid: bool, silent: bool)

  /** The runner's own counters, with the session they drove. */
  datatype Run = Run(
    session: Session,
    log: seq<Event>,
    retries: nat,  // nudges in the current budget
    nudges: nat,
    contractRedone: set<nat>,  // failure points a redo already covered
    status: Status,
    redos: nat,
    prompts: nat,  // nudges that put a corrective prompt on the transcript
    natural: int,
    variant: AttemptVariant,
    rows: seq<Row>)

  function LastAssistant(ms: seq<Message>): (r: Option<Message>)
    ensures r.Some? ==> r.value.Assistant?
  {
    if ms == [] then None
    else if ms[|ms| - 1].Assistant? then Some(ms[|ms| - 1])
    else LastAssistant(ms[..|ms| - 1])
  }

  predicate TerminallyValid(ms: seq<Message>) {
    var last := LastAssistant(ms);
    last.Some? && ValidEnding(last.value)
  }

  predicate EndedSilently(ms: seq<Message>) {
    var last := LastAssistant(ms);
    last.Some? && ValidEnding(last.value) && SilentEnding(last.value)
  }

  predicate ExplicitNoReply(ms: seq<Message>) {
    var last := LastAssistant(ms);
    last.Some? && (last.value.prose.NoReplyText? || EndsWithTool(last.value, NoReply))
  }

  predicate HasSendMessage(ms: seq<Message>) {
    exists k :: 0 <= k < |ms| && EndsWithTool(ms[k], SendMessage)
  }

  const ABORT_TAIL_SCAN: nat := 5

  /** One of the last `n` assistant messages was aborted. */
  predicate AbortedWithin(ms: seq<Message>, n: nat) {
    if ms == [] || n == 0 then false
    else if ms[|ms| - 1].Assistant? then ms[|ms| - 1].stop.Aborted? || AbortedWithin(ms[..|ms| - 1], n - 1)
    else AbortedWithin(ms[..|ms| - 1], n)
  }

  predicate WasAborted(ms: seq<Message>) {
    AbortedWithin(ms, ABORT_TAIL_SCAN)
  }

  /** The index just after the last delivered message, or 0. */
  function FailurePoint(ms: seq<Message>): (r: nat)
    ensures r <= |ms|
  {
    if ms == [] then 0 else if IsDelivery(ms[|ms| - 1]) then |ms| else FailurePoint(ms[..|ms| - 1])
  }

  function NudgePrompt(attempt: nat, v: NudgeVariant): Message {
    User(Some(ForcedCompletion(Some(attempt), v)), Some(v))
  }

  function NudgeVariantFor(ms: seq<Message>): NudgeVariant {
    if HasSendMessage(ms) then SentNotFinal else NotSent
  }

  predicate NoReplyResult(ms: seq<Message>) {
    !TerminallyValid(ms) || (ExplicitNoReply(ms) && !HasSendMessage(ms))
  }

  function Say(r: Run, ms: seq<Message>): Run {
    r.(session := r.session.(live := r.session.live + ms), log := r.log + Appends(ms))
  }

  /** The row the runner's counters give the attempt that just ended. */
  function SettledRow(r: Run): Row {
    Row(r.redos, r.natural, r.variant, TerminallyValid(r.session.live), EndedSilently(r.session.live))
  }

  /** `forceCompletion`: a corrective prompt after an assistant message, else a bare continue. */
  function ForceCompletion(r: Run): Run {
    var live := r.session.live;
    var counted := r.(retries := r.retries + 1, nudges := r.nudges + 1);
    if live != [] && live[|live| - 1].Assistant? then
      var v := NudgeVariantFor(live);
      Say(counted.(prompts := r.prompts + 1, rows := r.rows + [SettledRow(r)],
                   natural := r.retries + 1, variant := Nudged(v)),
          [NudgePrompt(r.retries + 1, v)])
    else counted
  }

  /** The send-contract redo at the current failure point. */
  function RedoContract(r: Run): Run {
    var live := r.session.live;
    var point := PointFor(live, None);
    var marked := r.(contractRedone := r.contractRedone + {FailurePoint(live)});
    if ForkErrorOf(live, point).Some? then
      marked.(status := Finished(true), rows := r.rows + [SettledRow(r)])
    else
      var no := NextNo(r.session.branches);
      marked.(
        session := Session(KeptList(live, point),
                           r.session.branches
                           + [Branch(no, point.index, BranchReason.ContractRedo, live[point.index..])]),
        log := r.log + [Event.Fork(no, point.index, BranchReason.ContractRedo)] + Appends(Extra(live, point)),
        retries := 0,
        redos := r.redos + 1,
        rows := r.rows + [SettledRow(r)],
        natural := 0,
        variant := Original)
  }

  function Finish(r: Run): Run {
    r.(status := Finished(NoReplyResult(r.session.live)), rows := r.rows + [SettledRow(r)])
  }

  /** What the runner does once the agent settled. */
  function Settle(cfg: Config, r: Run): Run {
    var live := r.session.live;
    if TerminallyValid(live) || WasAborted(live) then Finish(r)
    else if r.retries < cfg.maxRetries then ForceCompletion(r)
    else if cfg.contractRedo && FailurePoint(live) !in r.contractRedone then RedoContract(r)
    else Finish(r)
  }

  /** One request: the agent appends `turn` and settles. */
  function Turn(cfg: Config, r: Run, turn: seq<Message>): Run {
    if r.status.Finished? then r
    else Settle(cfg, Say(r, turn))
  }

  function Begin(s: Session, log: seq<Event>, kickoff: seq<Message>): Run {
    Say(Run(s, log, 0, 0, {}, Running, 0, 0, 0, Original, []), kickoff)
  }

  /** The run after the agent's first `turns`. */
  function Trace(cfg: Config, r: Run, turns: seq<seq<Message>>): Run {
    if turns == [] then r else Turn(cfg, Trace(cfg, r, turns[..|turns| - 1]), turns[|turns| - 1])
  }

  method FindFailurePoint(ms: seq<Message>) returns (point: nat)
    ensures point == FailurePoint(ms)
  {
    var i := |ms|;
    assert ms[..i] == ms;
    while i > 0
      invariant i <= |ms| && FailurePoint(ms[..i]) == FailurePoint(ms)
    {
      if IsDelivery(ms[i - 1]) {
        return i;
      }
      assert ms[..i][..i - 1] == ms[..i - 1];
      i := i - 1;
    }
    return 0;
  }

  method FindLastAssistant(ms: seq<Message>) returns (last: Option<Message>)
    ensures last == LastAssistant(ms)
  {
    var i := |ms|;
    assert ms[..i] == ms;
    while i > 0
      invariant i <= |ms| && LastAssistant(ms[..i]) == LastAssistant(ms)
    {
      if ms[i - 1].Assistant? {
        return Some(ms[i - 1]);
      }
      assert ms[..i][..i - 1] == ms[..i - 1];
      i := i - 1;
    }
    return None;
  }

  method CheckAborted(ms: seq<Message>) returns (aborted: bool)
    ensures aborted == WasAborted(ms)
  {
    var seen := 0;
    var i := |ms|;
    assert ms[..i] == ms;
    while i > 0 && seen < ABORT_TAIL_SCAN
      invariant i <= |ms| && seen <= ABORT_TAIL_SCAN
      invariant AbortedWithin(ms[..i], ABORT_TAIL_SCAN - seen) == WasAborted(ms)
    {
      assert ms[..i][..i - 1] == ms[..i - 1];
      if ms[i - 1].Assistant? {
        seen := seen + 1;
        if ms[i - 1].stop.Aborted? {
          return true;
        }
      }
      i := i - 1;
    }
    return false;
  }

  class SessionRunner {
    const cfg: Config
    var retries: nat
    var nudges: nat
    var contractRedone: set<nat>
    ghost var run: Run  // the run so far, as the functions above tell it

    constructor (cfg: Config)
      ensures this.cfg == cfg
    {
      this.cfg := cfg;
      retries, nudges, contractRedone := 0, 0, {};
    }

    /** The fields agree with the run told so far. */
    ghost predicate Tells(agent: AgentSession)
      reads this, agent
    {
      && agent.Valid()
      && run.session == Session(agent.messages, agent.branches)
      && run.log == agent.log
      && run.retries == retries && run.nudges == nudges && run.contractRedone == contractRedone
    }

    method Force(agent: AgentSession)
      requires Tells(agent)
      modifies this, agent
      ensures Tells(agent) && run == ForceCompletion(old(run))
    {
      retries := retries + 1;
      nudges := nudges + 1;
      var n := |agent.messages|;
      run := ForceCompletion(run);
      if n > 0 && agent.messages[n - 1].Assistant? {
        var v := NudgeVariantFor(agent.messages);
        agent.SayAll([NudgePrompt(retries, v)]);
      }
    }

    method Redo(agent: AgentSession) returns (result: Status)
      requires Tells(agent) && run.status.Running?
      modifies this, agent
      ensures Tells(agent) && run == RedoContract(old(run)) && result == run.status
    {
      var failurePoint := FindFailurePoint(agent.messages);
      contractRedone := contractRedone + {failurePoint};
      var point := FindForkPoint(agent.messages, None);
      run := RedoContract(run);
      var r := agent.ForkSession(point, BranchReason.ContractRedo);
      if r.Refused? {
        return Finished(true);
      }
      retries := 0;
      return Running;
    }

    /** What the loop does with a turn that settled. */
    method Judge(agent: AgentSession) returns (result: Status)
      requires Tells(agent) && run.status.Running?
      modifies this, agent
      ensures Tells(agent) && run == Settle(cfg, old(run)) && result == run.status
    {
      var last := FindLastAssistant(agent.messages);
      var aborted := CheckAborted(agent.messages);
      if (last.Some? && ValidEnding(last.value)) || aborted {
        run := Finish(run);
        return Finished(NoReplyResult(agent.messages));
      }
      if retries < cfg.maxRetries {
        Force(agent);
        return Running;
      }
      var point := FindFailurePoint(agent.messages);
      if cfg.contractRedo && point !in contractRedone {
        result := Redo(agent);
        return;
      }
      run := Finish(run);
      return Finished(NoReplyResult(agent.messages));
    }

    method Hear(agent: AgentSession, turn: seq<Message>)
      requires Tells(agent)
      modifies this, agent
      ensures Tells(agent) && run == Say(old(run), turn)
    {
      run := Say(run, turn);
      agent.SayAll(turn);
    }

    /** One request: the agent appends `turn` and settles. */
    method Request(agent: AgentSession, turn: seq<Message>) returns (result: Status)
      requires Tells(agent) && run.status.Running?
      modifies this, agent
      ensures Tells(agent) && run == Turn(cfg, old(run), turn) && result == run.status
    {
      Hear(agent, turn);
      result := Judge(agent);
    }

    /** The loop over the settled turns: `turns` are the messages the agent appends, request by request. */
    method Drive(agent: AgentSession, kickoff: seq<Message>, turns: seq<seq<Message>>) returns (result: Status)
      requires agent.Valid()
      modifies this, agent
      ensures Tells(agent) && result == run.status
      ensures run ==
        Trace(cfg, Begin(Session(old(agent.messages), old(agent.branches)), old(agent.log), kickoff), turns)
    {
      retries, nudges, contractRedone := 0, 0, {};
      ghost var first := Begin(Session(agent.messages, agent.branches), agent.log, kickoff);
      run := first;
      agent.SayAll(kickoff);
      result := Running;
      var k := 0;
      while k < |turns| && result.Running?
        invariant k <= |turns| && Tells(agent) && run.status == result
        invariant run == Trace(cfg, first, turns[..k])
      {
        assert turns[..k + 1][..k] == turns[..k];
        result := Request(agent, turns[k]);
        k := k + 1;
      }
      FinishedStays(cfg, first, turns, k);
    }
  }

  lemma {:induction false} FinishedStays(cfg: Config, r: Run, turns: seq<seq<Message>>, k: nat)
    requires k <= |turns| && (Trace(cfg, r, turns[..k]).status.Finished? || k == |turns|)
    ensures Trace(cfg, r, turns) == Trace(cfg, r, turns[..k])
    decreases |turns|
  {
    if k == |turns| {
      assert turns[..k] == turns;
    } else {
      assert turns[..|turns| - 1][..k] == turns[..k];
      FinishedStays(cfg, r, turns[..|turns| - 1], k);
    }
  }
}
