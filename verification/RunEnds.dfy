/** When a run ends, with what result, and what it spent on the way. */
module RunEnds {
  import opened Transcript
  import opened Chronology
  import opened Forks
  import opened Derivation
  import opened Runners

  // ---------------------------------------------------------------------------
  // What the runner reads of the transcript
  // ---------------------------------------------------------------------------

  /** The last assistant message is the one at `i`. */
  ghost predicate LastSpoke(ms: seq<Message>, i: int) {
    0 <= i < |ms| && ms[i].Assistant? && forall j | i < j < |ms| :: !ms[j].Assistant?
  }

  lemma {:induction false} LastAssistantAt(ms: seq<Message>)
    ensures LastAssistant(ms).Some? <==> exists i :: LastSpoke(ms, i)
    ensures forall i | LastSpoke(ms, i) :: LastAssistant(ms) == Some(ms[i])
  {
    if ms != [] {
      var n := |ms| - 1;
      LastAssistantAt(ms[..n]);
      if ms[n].Assistant? {
        assert LastSpoke(ms, n);
      } else {
        forall i: int ensures LastSpoke(ms, i) <==> LastSpoke(ms[..n], i) {
          if 0 <= i < n { assert ms[..n][i] == ms[i]; }
          if LastSpoke(ms[..n], i) {
            forall j | i < j < |ms| ensures !ms[j].Assistant? {
              if j < n { assert ms[..n][j] == ms[j]; }
            }
          }
          if LastSpoke(ms, i) {
            forall j | i < j < n ensures !ms[..n][j].Assistant? { assert ms[..n][j] == ms[j]; }
          }
        }
      }
    }
  }

  ghost predicate CallsTool(m: Message, name: ToolName) {
    exists k | 0 <= k < |Calls(m)| :: Calls(m)[k].name == name
  }

  /** A transcript ends validly when its last assistant message sends, or declines to. */
  lemma ValidMeans(ms: seq<Message>)
    ensures TerminallyValid(ms) <==>
      exists i | LastSpoke(ms, i) ::
        ms[i].prose.NoReplyText? || CallsTool(ms[i], SendMessage) || CallsTool(ms[i], NoReply)
  {
    LastAssistantAt(ms);
  }

  /** The ending declines to send. */
  ghost predicate Declines(m: Message) {
    CallsTool(m, NoReply) || (m.Assistant? && m.prose.NoReplyText?)
  }

  /** A run has a reply exactly when it ended validly, and did not decline with nothing sent before. */
  lemma NoReplyMeans(ms: seq<Message>)
    ensures !NoReplyResult(ms) <==>
      exists i | LastSpoke(ms, i) ::
        && (Declines(ms[i]) || CallsTool(ms[i], SendMessage))
        && (Declines(ms[i]) ==> exists j | 0 <= j < |ms| :: CallsTool(ms[j], SendMessage))
  {
    LastAssistantAt(ms);
    assert HasSendMessage(ms) <==> exists j | 0 <= j < |ms| :: CallsTool(ms[j], SendMessage);
  }

  function Assistants(ms: seq<Message>): nat {
    if ms == [] then 0 else Assistants(ms[..|ms| - 1]) + (if ms[|ms| - 1].Assistant? then 1 else 0)
  }

  lemma {:induction false} AssistantsSplit(a: seq<Message>, b: seq<Message>)
    ensures Assistants(a + b) == Assistants(a) + Assistants(b)
  {
    if b == [] {
      assert a + b == a;
    } else {
      assert (a + b)[..|a + b| - 1] == a + b[..|b| - 1];
      AssistantsSplit(a, b[..|b| - 1]);
    }
  }

  /** An assistant message was aborted, with fewer than `n` after it. */
  ghost predicate AbortedLate(ms: seq<Message>, n: nat) {
    exists i | 0 <= i < |ms| :: ms[i].Assistant? && ms[i].stop.Aborted? && Assistants(ms[i + 1..]) < n
  }

  lemma {:induction false} AbortedMeans(ms: seq<Message>, n: nat)
    ensures AbortedWithin(ms, n) <==> AbortedLate(ms, n)
  {
    if ms != [] && n > 0 {
      var l := |ms| - 1;
      var init := ms[..l];
      var rest: nat := if ms[l].Assistant? then n - 1 else n;
      AbortedMeans(init, rest);
      forall i | 0 <= i < l
        ensures init[i] == ms[i]
        ensures Assistants(ms[i + 1..]) == Assistants(init[i + 1..]) + (if ms[l].Assistant? then 1 else 0)
      {
        assert ms[i + 1..][..|ms[i + 1..]| - 1] == init[i + 1..];
      }
      assert ms[l + 1..] == [];
      if AbortedLate(init, rest) {
        var i :| 0 <= i < |init| && init[i].Assistant? && init[i].stop.Aborted? && Assistants(init[i + 1..]) < rest;
        assert ms[i].stop.Aborted? && Assistants(ms[i + 1..]) < n;
      }
      if AbortedLate(ms, n) {
        var i :| 0 <= i < |ms| && ms[i].Assistant? && ms[i].stop.Aborted? && Assistants(ms[i + 1..]) < n;
        if i < l { assert init[i].stop.Aborted? && Assistants(init[i + 1..]) < rest; }
      }
    }
  }

  /** A run counts as aborted when one of its last five assistant messages was. */
  lemma WasAbortedMeans(ms: seq<Message>)
    ensures WasAborted(ms) <==> AbortedLate(ms, 5)
  {
    AbortedMeans(ms, ABORT_TAIL_SCAN);
  }

  /** The failure point is one past the last message delivered. */
  lemma {:induction false} FailurePointMeans(ms: seq<Message>)
    ensures forall i | FailurePoint(ms) <= i < |ms| :: !IsDelivery(ms[i])
    ensures FailurePoint(ms) > 0 ==> IsDelivery(ms[FailurePoint(ms) - 1])
  {
    if ms != [] && !IsDelivery(ms[|ms| - 1]) { FailurePointMeans(ms[..|ms| - 1]); }
  }

  // ---------------------------------------------------------------------------
  // One turn
  // ---------------------------------------------------------------------------

  /** The run cannot go on: the budget is spent, and there is no redo left to make. */
  ghost predicate Spent(cfg: Config, r: Run, live: seq<Message>) {
    && r.retries >= cfg.maxRetries
    && (!cfg.contractRedo || FailurePoint(live) in r.contractRedone || ForkErrorOf(live, PointFor(live, None)).Some?)
  }

  /**
   * A turn ends the run exactly when its transcript ends validly or was aborted, or nothing is left to try; else the
   * run nudges while the budget lasts, and then redoes the send contract.
   */
  lemma TurnEndsExactlyWhen(cfg: Config, r: Run, turn: seq<Message>)
    requires r.status.Running?
    ensures var live, s := r.session.live + turn, Turn(cfg, r, turn);
      && (s.status.Finished? <==> TerminallyValid(live) || WasAborted(live) || Spent(cfg, r, live))
      && (s.status.Finished? ==>
            s.status == Finished(NoReplyResult(live)) && s.session.live == live
            && s.nudges == r.nudges && s.redos == r.redos)
      && (s.status.Running? && r.retries < cfg.maxRetries ==>
            s.nudges == r.nudges + 1 && s.retries == r.retries + 1 && s.redos == r.redos
            && s.session.branches == r.session.branches && live <= s.session.live)
      && (s.status.Running? && r.retries >= cfg.maxRetries ==>
            s.nudges == r.nudges && s.retries == 0 && s.redos == r.redos + 1
            && s.session.live == KeptList(live, PointFor(live, None))
            && s.contractRedone == r.contractRedone + {FailurePoint(live)})
  {
    hide PointFor, ForkErrorOf, FailurePoint, WasAborted, NextNo, NudgeVariantFor, Extra, LastAssistant;
  }

  /** What a nudge says: its number in the budget, and whether a message had been sent. */
  lemma NudgeMeans(cfg: Config, r: Run, turn: seq<Message>)
    requires r.status.Running? && Turn(cfg, r, turn).status.Running? && r.retries < cfg.maxRetries
    ensures var live, s := r.session.live + turn, Turn(cfg, r, turn);
      if live != [] && live[|live| - 1].Assistant? then
        var sent := exists j | 0 <= j < |live| :: CallsTool(live[j], SendMessage);
        s.session.live == live + [NudgePrompt(r.retries + 1, if sent then SentNotFinal else NotSent)]
      else s.session.live == live
  {
    hide PointFor, ForkErrorOf, FailurePoint, WasAborted, NextNo, Extra, LastAssistant;
    var live := r.session.live + turn;
    assert HasSendMessage(live) <==> exists j | 0 <= j < |live| :: CallsTool(live[j], SendMessage);
    if live != [] && live[|live| - 1].Assistant? {
      assert Turn(cfg, r, turn).session.live == live + [NudgePrompt(r.retries + 1, NudgeVariantFor(live))];
    }
  }

  // ---------------------------------------------------------------------------
  // Whole runs
  // ---------------------------------------------------------------------------

  lemma Times(m: nat, redos: nat)
    ensures m * (redos + 1) == m * redos + m
  {
  }

  /** A finished run had nothing left to try, unless it ended validly or was aborted. */
  ghost predicate EndsRight(cfg: Config, r: Run) {
    match r.status
    case Running => r.retries <= cfg.maxRetries
    case Finished(noReply) =>
      var live := r.session.live;
      && r.retries <= cfg.maxRetries
      && noReply == NoReplyResult(live)
      && (TerminallyValid(live) || WasAborted(live) ||
            (r.retries == cfg.maxRetries && (cfg.contractRedo ==> FailurePoint(live) in r.contractRedone)))
  }

  lemma TurnSpends(cfg: Config, r: Run, turn: seq<Message>)
    requires EndsRight(cfg, r) && r.nudges == cfg.maxRetries * r.redos + r.retries
    ensures var s := Turn(cfg, r, turn);
      EndsRight(cfg, s) && s.nudges == cfg.maxRetries * s.redos + s.retries
  {
    hide PointFor, ForkErrorOf, FailurePoint, WasAborted, TerminallyValid, NextNo, NudgeVariantFor, Extra, KeptList,
      SettledRow;
    Times(cfg.maxRetries, r.redos);
  }

  /**
   * Over every run: each redo came after a whole budget of nudges, so the nudges are the budgets spent and the one
   * under way; and a run that ended neither validly nor by an abort has spent its last budget, and already made the
   * redo at its failure point, if redos are on.
   */
  lemma {:induction false} RunEndsRight(
    cfg: Config, s: Session, log: seq<Event>, kickoff: seq<Message>, turns: seq<seq<Message>>)
    ensures var r := Trace(cfg, Begin(s, log, kickoff), turns);
      EndsRight(cfg, r) && r.nudges == cfg.maxRetries * r.redos + r.retries
  {
    hide Turn, EndsRight;
    if turns == [] {
      BeginsRight(cfg, s, log, kickoff);
    } else {
      var before := Trace(cfg, Begin(s, log, kickoff), turns[..|turns| - 1]);
      RunEndsRight(cfg, s, log, kickoff, turns[..|turns| - 1]);
      TurnSpends(cfg, before, turns[|turns| - 1]);
    }
  }

  lemma BeginsRight(cfg: Config, s: Session, log: seq<Event>, kickoff: seq<Message>)
    ensures var r := Begin(s, log, kickoff);
      EndsRight(cfg, r) && r.nudges == cfg.maxRetries * r.redos + r.retries
  {
  }
}
