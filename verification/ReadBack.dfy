/** The derivation, reading only what a session stored, finds the attempts, nudges and redos its runner counted. */
module ReadBack {
  import opened Transcript
  import opened Chronology
  import opened ChronologyTheorems
  import opened Forks
  import opened Derivation
  import opened Runners
  import opened RedoBound

  // ---------------------------------------------------------------------------
  // What the runs are about
  // ---------------------------------------------------------------------------

  predicate Plain(m: Message) {
    m.Assistant? || m.ToolResult? || m.Interjection?
  }

  ghost predicate AllPlain(ms: seq<Message>) {
    forall i :: 0 <= i < |ms| ==> Plain(ms[i])
  }

  /** The last assistant message is the model's own, and complete. */
  predicate ModelSettled(ms: seq<Message>) {
    var last := LastAssistant(ms);
    last.Some? && last.value.harness.None? && last.value.stop.Completed?
  }

  /** The messages of one request, its last assistant message model-written and complete. */
  ghost predicate ProperTurn(ms: seq<Message>) {
    AllPlain(ms) && ModelSettled(ms)
  }

  ghost predicate ProperTurns(turns: seq<seq<Message>>) {
    forall k :: 0 <= k < |turns| ==> ProperTurn(turns[k])
  }

  /** A final user turn, with the synthetic messages that may follow it. */
  ghost predicate ProperKickoff(ms: seq<Message>) {
    ms != [] && IsRunStart(ms[0]) && AllPlain(ms[1..])
  }

  // ---------------------------------------------------------------------------
  // The items of a run without excluded spans
  // ---------------------------------------------------------------------------

  ghost predicate ItemTells(x: Item, e: Event) {
    match e
    case Append(m) => x.Said? && x.m == m && !x.excluded
    case Fork(no, _, reason) => x == Cut(reason, no, false)
  }

  ghost predicate Tells(items: seq<Item>, log: seq<Event>) {
    |items| == |log| && forall i :: 0 <= i < |log| ==> ItemTells(items[i], log[i])
  }

  ghost predicate OnlyContractRedos(bs: seq<Branch>) {
    forall i :: 0 <= i < |bs| ==> bs[i].reason.ContractRedo?
  }

  lemma {:induction false} NothingExcluded(n: nat, bs: seq<Branch>)
    requires OnlyContractRedos(bs)
    ensures ExcludedNos(Fill(n, false), bs) == {}
    decreases |bs|
  {
    if bs != [] {
      var b := bs[|bs| - 1];
      var k := Clamp(b.forkIndex, n) + |b.messages|;
      assert FlagsBefore(Fill(n, false), b) == Fill(k, false);
      NothingExcluded(k, bs[..|bs| - 1]);
    }
  }

  lemma ChronologyTells(log: seq<Event>, rows: seq<Branch>)
    requires Legal(log) && multiset(rows) == multiset(Play(log).branches) && OnlyContractRedos(Play(log).branches)
    ensures Tells(Chron(Play(log).live, rows), log)
  {
    var s := Play(log);
    RunShape(log);
    SortRecovers(rows, s.branches);
    NothingExcluded(|s.live|, s.branches);
    ChronologyInvertsRun(log, rows);
    var items := Chron(s.live, rows);
    forall i | 0 <= i < |log| ensures ItemTells(items[i], log[i]) {
      assert items[i] == Record(log, i, {});
    }
  }

  lemma TellsPrefix(items: seq<Item>, log: seq<Event>, more: seq<Event>)
    requires Tells(items, log + more)
    ensures Tells(items[..|log|], log) && Tells(items[|log|..], more)
    ensures items == items[..|log|] + items[|log|..]
  {
    var l := log + more;
    forall i | 0 <= i < |log| ensures ItemTells(items[..|log|][i], log[i]) {
      assert ItemTells(items[i], l[i]);
    }
    forall i | 0 <= i < |more| ensures ItemTells(items[|log|..][i], more[i]) {
      assert ItemTells(items[|log| + i], l[|log| + i]);
    }
  }

  // ---------------------------------------------------------------------------
  // The derivation's state against the runner's
  // ---------------------------------------------------------------------------

  function RowOf(a: Attempt): Row {
    Row(a.redoNo, a.attemptNo, a.variant, a.failures == [], a.silent)
  }

  function RowsOf(all: seq<Attempt>): (r: seq<Row>)
    ensures |r| == |all| && forall i :: 0 <= i < |all| ==> r[i] == RowOf(all[i])
  {
    seq(|all|, i requires 0 <= i < |all| => RowOf(all[i]))
  }

  lemma RowsOfAppend(all: seq<Attempt>, a: Attempt)
    ensures RowsOf(all + [a]) == RowsOf(all) + [RowOf(a)]
  {
  }

  /** A runner counts its redos from zero; the session's count goes on from `redos`. */
  function Later(row: Row, redos: nat): Row {
    row.(redoNo := row.redoNo + redos)
  }

  function AllLater(rows: seq<Row>, redos: nat): (r: seq<Row>)
    ensures |r| == |rows| && forall i :: 0 <= i < |rows| ==> r[i] == Later(rows[i], redos)
  {
    seq(|rows|, i requires 0 <= i < |rows| => Later(rows[i], redos))
  }

  lemma LaterAppend(rows: seq<Row>, row: Row, redos: nat)
    ensures AllLater(rows + [row], redos) == AllLater(rows, redos) + [Later(row, redos)]
  {
  }

  /** The posting calls a run made, and whether one was answered without an error. */
  datatype Notes = Notes(calls: set<string>, delivered: bool)

  function Noted(n: Notes, m: Message): Notes {
    if IsModelMessage(m) then n.(calls := n.calls + PostingIds(m.calls))
    else if m.ToolResult? && !m.isError && m.callId in n.calls then n.(delivered := true)
    else n
  }

  function AllNoted(n: Notes, ms: seq<Message>): Notes {
    if ms == [] then n else Noted(AllNoted(n, ms[..|ms| - 1]), ms[|ms| - 1])
  }

  /** The notes on a stretch of the history; what a fork discarded was delivered all the same. */
  function NotesOn(log: seq<Event>): Notes {
    if log == [] then Notes({}, false) else
      var before := NotesOn(log[..|log| - 1]);
      if log[|log| - 1].Append? then Noted(before, log[|log| - 1].m) else before
  }

  lemma {:induction false} NotesOnAppends(log: seq<Event>, ms: seq<Message>)
    ensures NotesOn(log + Appends(ms)) == AllNoted(NotesOn(log), ms)
  {
    hide Noted;
    if ms == [] {
      assert log + Appends(ms) == log;
    } else {
      var init := ms[..|ms| - 1];
      NotesOnAppends(log, init);
      assert (log + Appends(ms))[..|log + Appends(ms)| - 1] == log + Appends(init);
    }
  }

  lemma NotesOnEvent(log: seq<Event>, e: Event)
    ensures NotesOn(log + [e]) == if e.Append? then Noted(NotesOn(log), e.m) else NotesOn(log)
  {
    assert (log + [e])[..|log|] == log;
  }

  /** Where a run starts: what the walk holds by then, earlier runs closed, and the length of the history. */
  datatype Base = Base(before: Progress, at: nat)

  ghost predicate SameNotes(run: RunState, b: Base, log: seq<Event>) {
    b.at <= |log| && Notes(run.postingCalls, run.delivered) == NotesOn(log[b.at..])
  }

  /** Between two requests the derivation's state agrees with the runner's counters. */
  ghost predicate Mirrors(b: Base, p: Progress, r: Run) {
    && p.runs == b.before.runs
    && p.run.Some?
    && p.redoNo == b.before.redoNo + r.redos
    && p.redos == b.before.redos + r.redos
    && p.nudges == b.before.nudges + r.prompts
    && var run := p.run.value;
    && RowsOf(run.attempts) == AllLater(r.rows, b.before.redoNo)
    && run.natural == r.natural && run.variant == r.variant
    && run.nudges == r.prompts && run.contractRedos == r.redos
    && !run.incompleteEnd
    && SameNotes(run, b, r.log)
  }

  /** The progress after messages of the attempt under way: only the span and the delivery notes move. */
  ghost predicate Extends(p: Progress, q: Progress, ms: seq<Message>) {
    && p.run.Some? && q.run.Some?
    && q == p.(run := q.run)
    && var a, b := p.run.value, q.run.value;
    && b == a.(span := b.span, delivered := b.delivered, postingCalls := b.postingCalls)
    && |b.span| == |a.span| + |ms|
    && (forall i :: 0 <= i < |ms| ==> b.span[|a.span| + i].m == ms[i])
    && Notes(b.postingCalls, b.delivered) == AllNoted(Notes(a.postingCalls, a.delivered), ms)
  }

  lemma ExtendsOne(p: Progress, q: Progress, ms: seq<Message>, m: Message, item: Item)
    requires Extends(p, q, ms) && Plain(m) && ItemTells(item, Append(m))
    ensures Extends(p, Next(q, item), ms + [m])
  {
    assert Next(q, item) == q.(run := Some(Extend(q.run.value, Located(m, item.loc))));
    assert (ms + [m])[..|ms|] == ms;
  }

  lemma {:induction false} WalkPlain(before: seq<Item>, items: seq<Item>, ms: seq<Message>)
    requires Walk(before).run.Some? && AllPlain(ms) && Tells(items, Appends(ms))
    ensures Extends(Walk(before), Walk(before + items), ms)
    decreases |ms|
  {
    if ms == [] {
      assert before + items == before;
    } else {
      var init, m := ms[..|ms| - 1], ms[|ms| - 1];
      TellsPrefix(items, Appends(init), [Append(m)]);
      var some, item := items[..|Appends(init)|], items[|items| - 1];
      WalkPlain(before, some, init);
      assert ItemTells(items[|items| - 1], Appends(ms)[|items| - 1]);
      assert (before + items)[..|before + items| - 1] == before + some;
      ExtendsOne(Walk(before), Walk(before + some), init, m, item);
      assert init + [m] == ms;
    }
  }

  lemma ExtendsMirrors(b: Base, p: Progress, q: Progress, ms: seq<Message>, r: Run)
    requires Mirrors(b, p, r) && Extends(p, q, ms)
    ensures Mirrors(b, q, Say(r, ms))
  {
    hide NotesOn, AllNoted;
    NotesOnAppends(r.log[b.at..], ms);
    assert (r.log + Appends(ms))[b.at..] == r.log[b.at..] + Appends(ms);
  }

  // ---------------------------------------------------------------------------
  // How an attempt ends
  // ---------------------------------------------------------------------------

  ghost predicate TailIs(span: seq<Located>, ms: seq<Message>) {
    |ms| <= |span| && forall i :: 0 <= i < |ms| ==> span[|span| - |ms| + i].m == ms[i]
  }

  lemma {:induction false} LastModelOfTail(span: seq<Located>, ms: seq<Message>)
    requires ModelSettled(ms) && TailIs(span, ms)
    ensures LastModelMessage(span).Some? && Some(LastModelMessage(span).value.m) == LastAssistant(ms)
  {
    var n := |ms| - 1;
    assert span[|span| - 1].m == ms[n];
    if !ms[n].Assistant? {
      assert TailIs(span[..|span| - 1], ms[..n]);
      LastModelOfTail(span[..|span| - 1], ms[..n]);
    }
  }

  lemma {:induction false} LastAssistantOfTail(a: seq<Message>, b: seq<Message>)
    requires LastAssistant(b).Some?
    ensures LastAssistant(a + b) == LastAssistant(b)
  {
    if !b[|b| - 1].Assistant? {
      assert (a + b)[..|a + b| - 1] == a + b[..|b| - 1];
      LastAssistantOfTail(a, b[..|b| - 1]);
    }
  }

  lemma FailuresMeanInvalid(m: Message, sends: seq<bool>)
    requires m.Assistant?
    ensures FailuresOf(m, sends) == [] <==> ValidEnding(m)
  {
  }

  /** Closing the span under way files the attempt the runner's counters describe. */
  ghost predicate Settles(b: Base, p: Progress, r: Run) {
    && Mirrors(b, p, r)
    && var run := p.run.value;
    && var c := CloseSpan(run.span, run, p.redoNo);
    && c.Ended? && RowOf(c.attempt) == Later(SettledRow(r), b.before.redoNo)
  }

  lemma TurnSettles(b: Base, p: Progress, q: Progress, turn: seq<Message>, r: Run)
    requires Mirrors(b, p, r) && Extends(p, q, turn) && ProperTurn(turn)
    ensures Settles(b, q, Say(r, turn))
  {
    hide NotesOn, AllNoted, SameNotes;
    ExtendsMirrors(b, p, q, turn, r);
    var run := q.run.value;
    LastModelOfTail(run.span, turn);
    LastAssistantOfTail(r.session.live, turn);
    var m := LastModelMessage(run.span).value.m;
    FailuresMeanInvalid(m, Sends(run.span, ResultErrors(run.span)));
  }

  /** The attempt of a settled span is filed, and its row is the runner's. */
  lemma CloseFiles(b: Base, p: Progress, r: Run)
    requires Settles(b, p, r)
    ensures var closed := Close(p.run.value, p.redoNo);
      && closed == p.run.value.(span := [], attempts := closed.attempts)
      && RowsOf(closed.attempts) == AllLater(r.rows + [SettledRow(r)], b.before.redoNo)
      && |closed.attempts| > 0
      && RowOf(closed.attempts[|closed.attempts| - 1]) == Later(SettledRow(r), b.before.redoNo)
  {
    hide SameNotes;
    var run := p.run.value;
    LaterAppend(r.rows, SettledRow(r), b.before.redoNo);
    RowsOfAppend(run.attempts, CloseSpan(run.span, run, p.redoNo).attempt);
  }

  // ---------------------------------------------------------------------------
  // The runner's steps, read back
  // ---------------------------------------------------------------------------

  lemma PromptReads(b: Base, p: Progress, r: Run, item: Item)
    requires Settles(b, p, r) && ForceCompletion(r).prompts == r.prompts + 1
    requires ItemTells(item, Append(NudgePrompt(r.retries + 1, NudgeVariantFor(r.session.live))))
    ensures Mirrors(b, Next(p, item), ForceCompletion(r))
  {
    hide NotesOn;
    CloseFiles(b, p, r);
    var prompt := NudgePrompt(r.retries + 1, NudgeVariantFor(r.session.live));
    AppendsOne(prompt);
    NotesOnEvent(r.log[b.at..], Append(prompt));
    assert (r.log + [Append(prompt)])[b.at..] == r.log[b.at..] + [Append(prompt)];
    assert IsNudge(prompt) && !IsRecordTurn(prompt) && !IsRunStart(prompt);
    assert Next(p, item) == p.(run := Some(NudgeRun(p.run.value, prompt, p.redoNo)), nudges := p.nudges + 1);
  }

  lemma CutReads(b: Base, p: Progress, r: Run, no: nat, at: nat, item: Item)
    requires Settles(b, p, r) && item == Cut(BranchReason.ContractRedo, no, false)
    ensures Next(p, item).run.Some?
    ensures Mirrors(b, Next(p, item),
                    r.(redos := r.redos + 1, rows := r.rows + [SettledRow(r)], natural := 0, variant := Original,
                       log := r.log + [Event.Fork(no, at, BranchReason.ContractRedo)]))
  {
    hide NotesOn;
    var cut := Event.Fork(no, at, BranchReason.ContractRedo);
    CloseFiles(b, p, r);
    NotesOnEvent(r.log[b.at..], cut);
    assert (r.log + [cut])[b.at..] == r.log[b.at..] + [cut];
  }

  /** The walk over a log that grew by one event. */
  lemma WalkNext(items: seq<Item>, log: seq<Event>, e: Event)
    requires Tells(items, log + [e])
    ensures |items| == |log| + 1 && Tells(items[..|log|], log) && ItemTells(items[|log|], e)
    ensures Walk(items) == Next(Walk(items[..|log|]), items[|log|])
  {
    TellsPrefix(items, log, [e]);
    assert ItemTells(items[|log|..][0], [e][0]);
  }

  lemma ForceReads(b: Base, items: seq<Item>, r: Run)
    requires Tells(items, ForceCompletion(r).log)
    requires |r.log| <= |items| && Settles(b, Walk(items[..|r.log|]), r)
    ensures Mirrors(b, Walk(items), ForceCompletion(r))
  {
    hide Settles, Mirrors, Next, NudgeVariantFor;
    var live := r.session.live;
    if live != [] && live[|live| - 1].Assistant? {
      var prompt := NudgePrompt(r.retries + 1, NudgeVariantFor(live));
      AppendsOne(prompt);
      WalkNext(items, r.log, Append(prompt));
      PromptReads(b, Walk(items[..|r.log|]), r, items[|r.log|]);
    } else {
      assert items[..|r.log|] == items;
      BareReads(b, Walk(items), r);
    }
  }

  lemma BareReads(b: Base, p: Progress, r: Run)
    requires Settles(b, p, r)
    ensures Mirrors(b, p, r.(retries := r.retries + 1, nudges := r.nudges + 1))
  {
  }

  lemma AppendsOne(m: Message)
    ensures Appends([m]) == [Append(m)]
  {
    assert [m][..0] == [];
  }

  lemma RedoReads(b: Base, items: seq<Item>, r: Run)
    requires RedoContract(r).status.Running? && Tells(items, RedoContract(r).log)
    requires |r.log| <= |items| && Settles(b, Walk(items[..|r.log|]), r)
    ensures Mirrors(b, Walk(items), RedoContract(r))
  {
    hide Mirrors, Settles, Extends, PointFor, Extra, NextNo, Walk, NotesOn, SettledRow, FailurePoint,
      KeptList;
    var live := r.session.live;
    var point := PointFor(live, None);
    var no, extra := NextNo(r.session.branches), Extra(live, point);
    var cut := Event.Fork(no, point.index, BranchReason.ContractRedo);
    ExtraIsInterjections(live);
    TellsPrefix(items, r.log + [cut], Appends(extra));
    var before := items[..|r.log| + 1];
    WalkNext(before, r.log, cut);
    assert before[..|r.log|] == items[..|r.log|];
    CutReads(b, Walk(items[..|r.log|]), r, no, point.index, before[|r.log|]);
    WalkPlain(before, items[|r.log| + 1..], extra);
    assert items == before + items[|r.log| + 1..];
    var forked := r.(redos := r.redos + 1, rows := r.rows + [SettledRow(r)], natural := 0, variant := Original,
                     log := r.log + [cut]);
    ExtendsMirrors(b, Walk(before), Walk(items), extra, forked);
    MirrorsCounts(b, Walk(items), Say(forked, extra), RedoContract(r));
  }

  /** Only the counters, the rows and the history matter. */
  lemma MirrorsCounts(b: Base, p: Progress, r: Run, s: Run)
    requires Mirrors(b, p, r)
    requires s.redos == r.redos && s.prompts == r.prompts && s.rows == r.rows && s.log == r.log
    requires s.natural == r.natural && s.variant == r.variant
    ensures Mirrors(b, p, s)
  {
    hide SameNotes;
  }

  // ---------------------------------------------------------------------------
  // Whole runs
  // ---------------------------------------------------------------------------

  /** The base of a run that starts on the items so far. */
  function BaseOf(items: seq<Item>): Base {
    Base(FinishRun(Walk(items)), |items|)
  }

  lemma StartReads(earlier: seq<Item>, item: Item, s: Session, log: seq<Event>, m: Message)
    requires |earlier| == |log| && IsRunStart(m) && ItemTells(item, Append(m))
    ensures Mirrors(BaseOf(earlier), Walk(earlier + [item]), Begin(s, log, [m]))
  {
    assert (earlier + [item])[..|earlier|] == earlier;
    AppendsOne(m);
    assert (log + [Append(m)])[|log|..] == [] + [Append(m)];
    NotesOnEvent([], Append(m));
    assert !IsRecordTurn(m);
    assert Next(Walk(earlier), item) ==
      FinishRun(Walk(earlier)).(run := Some(NEW_RUN.(span := [Located(m, item.loc)])));
  }

  /** The first run start of a kickoff closes the earlier runs, and its other messages extend the new one. */
  lemma KickoffReads(earlier: seq<Item>, items: seq<Item>, s: Session, log: seq<Event>, kickoff: seq<Message>)
    requires |earlier| == |log| && ProperKickoff(kickoff) && Tells(items, Appends(kickoff))
    ensures Mirrors(BaseOf(earlier), Walk(earlier + items), Begin(s, log, kickoff))
  {
    var m, rest := kickoff[0], kickoff[1..];
    AppendsSplit(m, rest);
    assert kickoff == [m] + rest;
    TellsPrefix(items, [Append(m)], Appends(rest));
    var first := items[..1];
    assert ItemTells(first[0], [Append(m)][0]);
    assert first == [items[0]] && earlier + items == (earlier + first) + items[1..];
    StartReads(earlier, items[0], s, log, m);
    WalkPlain(earlier + first, items[1..], rest);
    ExtendsMirrors(BaseOf(earlier), Walk(earlier + first), Walk(earlier + items), rest, Begin(s, log, [m]));
    SaySplit(s, log, m, rest);
  }

  lemma {:induction false} AppendsSplit(m: Message, rest: seq<Message>)
    ensures Appends([m] + rest) == [Append(m)] + Appends(rest)
  {
    if rest == [] {
      AppendsOne(m);
      assert [m] + rest == [m];
    } else {
      AppendsSplit(m, rest[..|rest| - 1]);
      assert ([m] + rest)[..|rest|] == [m] + rest[..|rest| - 1];
    }
  }

  lemma SaySplit(s: Session, log: seq<Event>, m: Message, rest: seq<Message>)
    ensures Say(Begin(s, log, [m]), rest) == Begin(s, log, [m] + rest)
  {
    AppendsSplit(m, rest);
    AppendsOne(m);
    assert s.live + ([m] + rest) == (s.live + [m]) + rest;
    assert log + ([Append(m)] + Appends(rest)) == (log + [Append(m)]) + Appends(rest);
  }

  /** The session matches its log, and only contract redos forked it. */
  ghost predicate Stored(r: Run) {
    Legal(r.log) && Play(r.log) == r.session && OnlyContractRedos(r.session.branches)
  }

  lemma SayStored(r: Run, ms: seq<Message>)
    requires Stored(r)
    ensures Stored(Say(r, ms))
  {
    PlayAppends(r.log, ms);
  }

  lemma RedoStored(r: Run)
    requires Stored(r)
    ensures Stored(RedoContract(r))
  {
    hide PointFor, Legal, Play;
    var live := r.session.live;
    var point := PointFor(live, None);
    if ForkErrorOf(live, point).None? {
      LogFork(r.log, NextNo(r.session.branches), point.index, BranchReason.ContractRedo, Extra(live, point),
              r.session.branches);
    }
  }

  lemma SettleStored(cfg: Config, r: Run)
    requires Stored(r)
    ensures Stored(Settle(cfg, r))
  {
    var live := r.session.live;
    if TerminallyValid(live) || WasAborted(live) {
    } else if r.retries < cfg.maxRetries {
      if live != [] && live[|live| - 1].Assistant? {
        SayStored(r, [NudgePrompt(r.retries + 1, NudgeVariantFor(live))]);
      }
    } else if cfg.contractRedo && FailurePoint(live) !in r.contractRedone {
      RedoStored(r);
    }
  }

  lemma {:induction false} TraceStored(cfg: Config, first: Run, turns: seq<seq<Message>>)
    requires Stored(first)
    ensures Stored(Trace(cfg, first, turns))
  {
    if turns != [] {
      var before := Trace(cfg, first, turns[..|turns| - 1]);
      TraceStored(cfg, first, turns[..|turns| - 1]);
      SayStored(before, turns[|turns| - 1]);
      SettleStored(cfg, Say(before, turns[|turns| - 1]));
    }
  }

  /** The walk agrees with the runner: between two requests, or with the last attempt still to be filed. */
  ghost predicate Agree(b: Base, p: Progress, r: Run) {
    match r.status
    case Running => Mirrors(b, p, r)
    case Finished(_) =>
      && r.rows != []
      && r.rows[|r.rows| - 1] == SettledRow(r)
      && Settles(b, p, r.(rows := r.rows[..|r.rows| - 1]))
  }

  lemma EndAgrees(b: Base, p: Progress, r: Run, redone: set<nat>, status: Status)
    requires Settles(b, p, r) && status.Finished?
    ensures Agree(b, p, r.(status := status, contractRedone := redone, rows := r.rows + [SettledRow(r)]))
  {
    assert (r.rows + [SettledRow(r)])[..|r.rows|] == r.rows;
  }

  lemma SettleReads(b: Base, cfg: Config, r: Run, items: seq<Item>)
    requires r.status.Running? && Tells(items, Settle(cfg, r).log)
    requires |r.log| <= |items| && Settles(b, Walk(items[..|r.log|]), r)
    ensures Agree(b, Walk(items), Settle(cfg, r))
  {
    var live := r.session.live;
    var stays := items[..|r.log|];
    if TerminallyValid(live) || WasAborted(live) {
      assert stays == items;
      EndAgrees(b, Walk(items), r, r.contractRedone, Settle(cfg, r).status);
    } else if r.retries < cfg.maxRetries {
      ForceReads(b, items, r);
    } else if cfg.contractRedo && FailurePoint(live) !in r.contractRedone {
      if ForkErrorOf(live, PointFor(live, None)).Some? {
        assert stays == items;
        EndAgrees(b, Walk(items), r, Settle(cfg, r).contractRedone, Settle(cfg, r).status);
      } else {
        RedoReads(b, items, r);
      }
    } else {
      assert stays == items;
      EndAgrees(b, Walk(items), r, r.contractRedone, Settle(cfg, r).status);
    }
  }

  /** Settling only ever adds to the history. */
  lemma SettleGrows(cfg: Config, r: Run)
    ensures r.log <= Settle(cfg, r).log
  {
  }

  lemma HeardReads(b: Base, r: Run, turn: seq<Message>, items: seq<Item>)
    requires ProperTurn(turn) && Tells(items, Say(r, turn).log)
    requires |r.log| <= |items| && Mirrors(b, Walk(items[..|r.log|]), r)
    ensures Settles(b, Walk(items), Say(r, turn))
  {
    var before := items[..|r.log|];
    TellsPrefix(items, r.log, Appends(turn));
    WalkPlain(before, items[|r.log|..], turn);
    TurnSettles(b, Walk(before), Walk(items), turn, r);
  }

  /** The items that tell a shorter log. */
  lemma TellsLess(items: seq<Item>, log: seq<Event>, longer: seq<Event>)
    requires log <= longer && Tells(items, longer)
    ensures |log| <= |items| && Tells(items[..|log|], log)
  {
    assert longer == log + longer[|log|..];
    TellsPrefix(items, log, longer[|log|..]);
  }

  lemma TurnReads(b: Base, cfg: Config, r: Run, turn: seq<Message>, items: seq<Item>)
    requires r.status.Running? && ProperTurn(turn) && Tells(items, Turn(cfg, r, turn).log)
    requires |r.log| <= |items| && Mirrors(b, Walk(items[..|r.log|]), r)
    ensures Agree(b, Walk(items), Turn(cfg, r, turn))
  {
    var heard := Say(r, turn);
    SettleGrows(cfg, heard);
    TellsLess(items, heard.log, Settle(cfg, heard).log);
    var told := items[..|heard.log|];
    assert told[..|r.log|] == items[..|r.log|];
    HeardReads(b, r, turn, told);
    SettleReads(b, cfg, heard, items);
  }

  lemma {:induction false} TraceReads(
    cfg: Config, s: Session, log: seq<Event>, kickoff: seq<Message>, turns: seq<seq<Message>>, items: seq<Item>)
    requires ProperKickoff(kickoff) && ProperTurns(turns)
    requires Tells(items, Trace(cfg, Begin(s, log, kickoff), turns).log)
    ensures |log| <= |items|
    ensures Agree(BaseOf(items[..|log|]), Walk(items), Trace(cfg, Begin(s, log, kickoff), turns))
    decreases |turns|
  {
    var first := Begin(s, log, kickoff);
    if turns == [] {
      TellsPrefix(items, log, Appends(kickoff));
      KickoffReads(items[..|log|], items[|log|..], s, log, kickoff);
    } else {
      var before, turn := Trace(cfg, first, turns[..|turns| - 1]), turns[|turns| - 1];
      assert ProperTurns(turns[..|turns| - 1]);
      SettleGrows(cfg, Say(before, turn));
      TellsLess(items, before.log, Trace(cfg, first, turns).log);
      var told := items[..|before.log|];
      TraceReads(cfg, s, log, kickoff, turns[..|turns| - 1], told);
      assert told[..|log|] == items[..|log|];
      if before.status.Running? {
        TurnReads(BaseOf(items[..|log|]), cfg, before, turn, items);
      } else {
        assert told == items;
      }
    }
  }

  // ---------------------------------------------------------------------------
  // Attempt numbers
  // ---------------------------------------------------------------------------

  /** Within a redo the numbers rise, and none is in use that a later attempt could take. */
  ghost predicate Rising(rows: seq<Row>, redos: nat, natural: int) {
    && (forall i, j | 0 <= i < j < |rows| :: rows[i].redoNo == rows[j].redoNo ==> rows[i].attemptNo < rows[j].attemptNo)
    && (forall i | 0 <= i < |rows| :: rows[i].redoNo <= redos)
    && (forall i | 0 <= i < |rows| :: rows[i].redoNo == redos ==> rows[i].attemptNo < natural)
  }

  lemma RisingAppend(rows: seq<Row>, row: Row, redos: nat, natural: int)
    requires Rising(rows, row.redoNo, row.attemptNo)
    requires row.redoNo < redos || (row.redoNo == redos && row.attemptNo < natural)
    ensures Rising(rows + [row], redos, natural)
  {
    var all := rows + [row];
    assert forall i | 0 <= i < |rows| :: all[i] == rows[i];
    assert all[|rows|] == row;
  }

  ghost predicate Numbering(r: Run) {
    match r.status
    case Running => Rising(r.rows, r.redos, r.natural) && r.natural <= r.retries
    case Finished(_) => exists redos, natural :: Rising(r.rows, redos, natural)
  }

  lemma EndNumbered(r: Run, s: Run)
    requires r.status.Running? && Numbering(r)
    requires s.status.Finished? && s.rows == r.rows + [SettledRow(r)]
    ensures Numbering(s)
  {
    RisingAppend(r.rows, SettledRow(r), r.redos, r.natural + 1);
  }

  lemma SettleNumbered(cfg: Config, r: Run)
    requires r.status.Running? && Numbering(r)
    ensures Numbering(Settle(cfg, r))
  {
    var live, s := r.session.live, Settle(cfg, r);
    if s.status.Finished? {
      EndNumbered(r, s);
    } else if r.retries < cfg.maxRetries {
      if live != [] && live[|live| - 1].Assistant? {
        RisingAppend(r.rows, SettledRow(r), r.redos, r.retries + 1);
      }
    } else {
      RisingAppend(r.rows, SettledRow(r), r.redos + 1, 0);
    }
  }

  lemma {:induction false} TraceNumbered(cfg: Config, first: Run, turns: seq<seq<Message>>)
    requires Numbering(first)
    ensures Numbering(Trace(cfg, first, turns))
  {
    if turns != [] {
      var before := Trace(cfg, first, turns[..|turns| - 1]);
      TraceNumbered(cfg, first, turns[..|turns| - 1]);
      if before.status.Running? {
        SettleNumbered(cfg, Say(before, turns[|turns| - 1]));
      }
    }
  }

  lemma RisingMeansUnique(all: seq<Attempt>, redos: nat, natural: int)
    requires Rising(RowsOf(all), redos, natural)
    ensures Renumbered(all) == all
  {
    var rows := RowsOf(all);
    forall i, j | 0 <= i < j < |all| && SameGroup(all[i], all[j]) ensures all[i].attemptNo != all[j].attemptNo {
      assert rows[i] == RowOf(all[i]) && rows[j] == RowOf(all[j]);
    }
    NoCollisionNoChange(all);
  }

  // ---------------------------------------------------------------------------
  // Reading a run back
  // ---------------------------------------------------------------------------

  /** The messages of the run delivered something: a result without an error answered one of its posting calls. */
  predicate DeliveredSince(r: Run, at: nat) {
    at <= |r.log| && NotesOn(r.log[at..]).delivered
  }

  /** How a finished run went, by the runner's own counters; its history starts at `at`. */
  function RunnerOutcome(r: Run, at: nat): Derivation.Outcome {
    if !TerminallyValid(r.session.live) then Exhausted
    else if r.prompts == 0 && r.redos == 0 then Clean
    else if EndedSilently(r.session.live) && !DeliveredSince(r, at) then GaveUpNoReply
    else if r.redos > 0 then RedoRecovered
    else Recovered
  }

  /** Closing the last run of the walk files what the runner counted. */
  lemma FinishedReads(b: Base, items: seq<Item>, r: Run)
    requires r.status.Finished? && Agree(b, Walk(items), r)
    ensures var p := FinishRun(Walk(items));
      && p.runs != [] && p.runs[..|p.runs| - 1] == b.before.runs
      && var run := p.runs[|p.runs| - 1];
      && RowsOf(run.attempts) == AllLater(r.rows, b.before.redoNo)
      && RunOutcome(run) == Some(RunnerOutcome(r, b.at))
      && p.nudges == b.before.nudges + r.prompts
      && p.redos == b.before.redos + r.redos
      && p.redoNo == b.before.redoNo + r.redos
  {
    var p, pending := Walk(items), r.(rows := r.rows[..|r.rows| - 1]);
    CloseFiles(b, p, pending);
    var closed := Close(p.run.value, p.redoNo);
    assert SettledRow(pending) == SettledRow(r);
    assert r.rows == pending.rows + [SettledRow(r)];
    assert FinishRun(p).runs == b.before.runs + [closed];
  }

  // ---------------------------------------------------------------------------
  // A session of several runs
  // ---------------------------------------------------------------------------

  /** One run of a session: what starts it, and the turns of its agent. */
  datatype Job = Job(kickoff: seq<Message>, turns: seq<seq<Message>>)

  /** The session after its runs, with its history. */
  function Past(cfg: Config, jobs: seq<Job>): (Session, seq<Event>)
    decreases |jobs|, 1
  {
    if jobs == [] then (Session([], []), []) else (LastRun(cfg, jobs).session, LastRun(cfg, jobs).log)
  }

  function LastRun(cfg: Config, jobs: seq<Job>): Run
    requires jobs != []
    decreases |jobs|, 0
  {
    var past, job := Past(cfg, jobs[..|jobs| - 1]), jobs[|jobs| - 1];
    Trace(cfg, Begin(past.0, past.1, job.kickoff), job.turns)
  }

  ghost predicate ProperJobs(cfg: Config, jobs: seq<Job>) {
    jobs != [] ==>
      && ProperJobs(cfg, jobs[..|jobs| - 1])
      && ProperKickoff(jobs[|jobs| - 1].kickoff) && ProperTurns(jobs[|jobs| - 1].turns)
      && LastRun(cfg, jobs).status.Finished?
  }

  /** What the runners of a session counted, one after the other; redos are numbered through. */
  datatype Account = Account(nudges: nat, redos: nat, rows: seq<Row>, outcome: Option<Derivation.Outcome>)

  function Counted(cfg: Config, jobs: seq<Job>): Account {
    if jobs == [] then Account(0, 0, [], None) else
      var a, r := Counted(cfg, jobs[..|jobs| - 1]), LastRun(cfg, jobs);
      Account(a.nudges + r.prompts, a.redos + r.redos, a.rows + AllLater(r.rows, a.redos),
              Worse(a.outcome, Some(RunnerOutcome(r, |Past(cfg, jobs[..|jobs| - 1]).1|))))
  }

  /** The walk holds what the runners counted. */
  ghost predicate Matches(p: Progress, a: Account) {
    && p.nudges == a.nudges && p.redos == a.redos && p.redoNo == a.redos
    && RowsOf(AllAttempts(p.runs)) == a.rows
    && SessionOutcome(p.runs) == a.outcome
  }

  lemma NothingYet()
    ensures Matches(FinishRun(Walk([])), Account(0, 0, [], None))
  {
    var runs := FinishRun(START).runs;
    assert runs == [NEW_RUN] && runs[..0] == [];
    assert AllAttempts(runs) == [] && SessionOutcome(runs) == None;
  }

  lemma {:induction false} JobsStored(cfg: Config, jobs: seq<Job>)
    ensures var past := Past(cfg, jobs);
      Legal(past.1) && Play(past.1) == past.0 && OnlyContractRedos(past.0.branches)
  {
    hide Legal, Play, Trace;
    if jobs == [] {
      EmptyStored();
    } else {
      var past, job := Past(cfg, jobs[..|jobs| - 1]), jobs[|jobs| - 1];
      JobsStored(cfg, jobs[..|jobs| - 1]);
      var first := Begin(past.0, past.1, job.kickoff);
      PlayAppends(past.1, job.kickoff);
      TraceStored(cfg, first, job.turns);
    }
  }

  lemma EmptyStored()
    ensures Legal([]) && Play([]) == Session([], [])
  {
  }

  lemma {:induction false} JobsRead(cfg: Config, jobs: seq<Job>, items: seq<Item>)
    requires ProperJobs(cfg, jobs) && Tells(items, Past(cfg, jobs).1)
    ensures Matches(FinishRun(Walk(items)), Counted(cfg, jobs))
    decreases |jobs|
  {
    hide Trace, Walk, Mirrors, Settles;
    if jobs == [] {
      assert items == [];
      NothingYet();
    } else {
      var init, job := jobs[..|jobs| - 1], jobs[|jobs| - 1];
      var past, r := Past(cfg, init), LastRun(cfg, jobs);
      TraceReads(cfg, past.0, past.1, job.kickoff, job.turns, items);
      TraceGrows(cfg, Begin(past.0, past.1, job.kickoff), job.turns);
      TellsLess(items, past.1, r.log);
      JobsRead(cfg, init, items[..|past.1|]);
      FinishedReads(BaseOf(items[..|past.1|]), items, r);
      RowsOfConcat(AllAttempts(FinishRun(Walk(items[..|past.1|])).runs),
                   FinishRun(Walk(items)).runs[|FinishRun(Walk(items)).runs| - 1].attempts);
    }
  }

  lemma RowsOfConcat(a: seq<Attempt>, b: seq<Attempt>)
    ensures RowsOf(a + b) == RowsOf(a) + RowsOf(b)
  {
  }

  lemma {:induction false} TraceGrows(cfg: Config, first: Run, turns: seq<seq<Message>>)
    ensures first.log <= Trace(cfg, first, turns).log
  {
    hide Settle;
    if turns != [] {
      var before := Trace(cfg, first, turns[..|turns| - 1]);
      TraceGrows(cfg, first, turns[..|turns| - 1]);
      SettleGrows(cfg, Say(before, turns[|turns| - 1]));
    }
  }

  /**
   * However the runs of a session went, deriving the send-contract events from the transcript and branches it
   * stored gives back its runners' own account: every attempt with its redo, its number (before colliding numbers
   * of different runs are renumbered), its prompt, and whether it ended validly or in silence, the corrective prompts
   * and the redos, and the worst of the runs' outcomes.
   */
  lemma SessionReadsBack(cfg: Config, jobs: seq<Job>, rows: seq<Branch>)
    requires ProperJobs(cfg, jobs) && multiset(rows) == multiset(Past(cfg, jobs).0.branches)
    ensures var items := Chron(Past(cfg, jobs).0.live, rows);
      var d, a := DerivedFrom(items), Counted(cfg, jobs);
      && d.nudges == a.nudges && d.redos == a.redos && d.outcome == a.outcome
      && var all := AllAttempts(FinishRun(Walk(items)).runs);
      && RowsOf(all) == a.rows && d.attempts == Renumbered(all)
  {
    hide Walk, Past, Counted;
    var past := Past(cfg, jobs);
    JobsStored(cfg, jobs);
    ChronologyTells(past.1, rows);
    JobsRead(cfg, jobs, Chron(past.0.live, rows));
  }

  /** Of a session's only run every attempt is read back under its very number. */
  lemma RunReadsBack(cfg: Config, job: Job, rows: seq<Branch>)
    requires ProperJobs(cfg, [job]) && multiset(rows) == multiset(Past(cfg, [job]).0.branches)
    ensures var r := Trace(cfg, Begin(Session([], []), [], job.kickoff), job.turns);
      var d := DerivedFrom(Chron(r.session.live, rows));
      && RowsOf(d.attempts) == r.rows
      && d.nudges == r.prompts && d.redos == r.redos
      && d.outcome == Some(RunnerOutcome(r, 0))
  {
    hide Trace, Walk;
    var first := Begin(Session([], []), [], job.kickoff);
    var r := Trace(cfg, first, job.turns);
    SessionReadsBack(cfg, [job], rows);
    assert [job][..0] == [];
    assert LastRun(cfg, [job]) == r;
    var all := AllAttempts(FinishRun(Walk(Chron(r.session.live, rows))).runs);
    assert AllLater(r.rows, 0) == r.rows && [] + r.rows == r.rows;
    TraceNumbered(cfg, first, job.turns);
    var redos, natural :| Rising(r.rows, redos, natural);
    RisingMeansUnique(all, redos, natural);
  }

  // ---------------------------------------------------------------------------
  // When the nudge counts agree
  // ---------------------------------------------------------------------------

  /** Every nudge followed an assistant message, so that it was a prompt and not a bare continue. */
  ghost predicate EveryNudgePrompts(cfg: Config, first: Run, turns: seq<seq<Message>>) {
    turns != [] ==>
      var before := Trace(cfg, first, turns[..|turns| - 1]);
      var live := Say(before, turns[|turns| - 1]).session.live;
      && EveryNudgePrompts(cfg, first, turns[..|turns| - 1])
      && (Turn(cfg, before, turns[|turns| - 1]).nudges > before.nudges ==>
            live != [] && live[|live| - 1].Assistant?)
  }

  lemma TurnNudges(cfg: Config, r: Run, turn: seq<Message>)
    ensures var s := Turn(cfg, r, turn);
      var live := Say(r, turn).session.live;
      && (s.nudges == r.nudges ==> s.prompts == r.prompts)
      && (s.nudges != r.nudges ==>
            s.nudges == r.nudges + 1
            && s.prompts == r.prompts + (if live != [] && live[|live| - 1].Assistant? then 1 else 0))
  {
    hide TerminallyValid, WasAborted, FailurePoint, PointFor, ForkErrorOf, KeptList, Extra, NudgeVariantFor, NextNo,
      Appends;
  }

  /** The runner counts more nudges than the transcript shows exactly when it once continued without a prompt. */
  lemma {:induction false} NudgesArePrompts(cfg: Config, first: Run, turns: seq<seq<Message>>)
    requires first.nudges == first.prompts
    ensures var r := Trace(cfg, first, turns);
      r.prompts <= r.nudges && (r.prompts == r.nudges <==> EveryNudgePrompts(cfg, first, turns))
  {
    hide Turn, Say;
    if turns != [] {
      var before := turns[..|turns| - 1];
      NudgesArePrompts(cfg, first, before);
      TurnNudges(cfg, Trace(cfg, first, before), turns[|turns| - 1]);
    }
  }

  /** A run whose turns all end in an assistant message has its very nudge count read back. */
  lemma {:induction false} AssistantEndingsPrompt(cfg: Config, first: Run, turns: seq<seq<Message>>)
    requires forall k | 0 <= k < |turns| :: turns[k] != [] && turns[k][|turns[k]| - 1].Assistant?
    ensures EveryNudgePrompts(cfg, first, turns)
  {
    if turns != [] {
      var n := |turns| - 1;
      AssistantEndingsPrompt(cfg, first, turns[..n]);
      var before := Trace(cfg, first, turns[..n]);
      assert Say(before, turns[n]).session.live == before.session.live + turns[n];
    }
  }
}
