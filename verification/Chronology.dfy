/**
 * The order in which a session's messages were produced, rebuilt from the live transcript and the
 * discarded branches, and the branches that never count as a sample.
 */
module Chronology {
  import opened Transcript

  datatype BranchReason = RefusalRedo | ContractRedo | EditRedo | AdditionRedo | Revival | TurnAborted

  datatype Branch = Branch(no: nat, forkIndex: int, reason: BranchReason, messages: seq<Message>)

  datatype Located = Located(m: Message, loc: nat)

  datatype Item =
    | Said(m: Message, loc: nat, excluded: bool)
    | Cut(reason: BranchReason, no: nat, excluded: bool)

  predicate StatisticsExcluded(r: BranchReason) {
    r.EditRedo? || r.AdditionRedo? || r.Revival? || r.TurnAborted?
  }

  function Clamp(f: int, n: nat): (r: nat)
    ensures r <= n
  {
    if f < 0 then 0 else if f > n then n else f
  }

  // ---------------------------------------------------------------------------
  // Branch order
  // ---------------------------------------------------------------------------

  /** Positive, strictly increasing branch numbers: what the store allocates. */
  ghost predicate Numbered(bs: seq<Branch>) {
    && (forall i :: 0 <= i < |bs| ==> bs[i].no > 0)
    && (forall i, j :: 0 <= i < j < |bs| ==> bs[i].no < bs[j].no)
  }

  ghost predicate Ascending(bs: seq<Branch>) {
    forall i, j :: 0 <= i < j < |bs| ==> bs[i].no <= bs[j].no
  }

  function InsertByNo(b: Branch, bs: seq<Branch>): (r: seq<Branch>)
    ensures |r| == |bs| + 1
  {
    if bs == [] || b.no <= bs[0].no then [b] + bs else [bs[0]] + InsertByNo(b, bs[1..])
  }

  function SortByNo(bs: seq<Branch>): (r: seq<Branch>)
    ensures |r| == |bs|
  {
    if bs == [] then [] else InsertByNo(bs[0], SortByNo(bs[1..]))
  }

  lemma {:induction false} InsertKeepsRows(b: Branch, bs: seq<Branch>)
    ensures multiset(InsertByNo(b, bs)) == multiset{b} + multiset(bs)
  {
    if !(bs == [] || b.no <= bs[0].no) {
      InsertKeepsRows(b, bs[1..]);
      assert bs == [bs[0]] + bs[1..];
    }
  }

  lemma InsertBounds(b: Branch, bs: seq<Branch>, low: nat)
    requires low <= b.no && forall i :: 0 <= i < |bs| ==> low <= bs[i].no
    ensures forall j :: 0 <= j < |InsertByNo(b, bs)| ==> low <= InsertByNo(b, bs)[j].no
  {
    InsertKeepsRows(b, bs);
    var r := InsertByNo(b, bs);
    forall j | 0 <= j < |r| ensures low <= r[j].no {
      assert r[j] in multiset(r);
      if r[j] != b { assert r[j] in bs; }
    }
  }

  lemma {:induction false} InsertKeepsOrder(b: Branch, bs: seq<Branch>)
    requires Ascending(bs)
    ensures Ascending(InsertByNo(b, bs))
  {
    if !(bs == [] || b.no <= bs[0].no) {
      InsertKeepsOrder(b, bs[1..]);
      InsertBounds(b, bs[1..], bs[0].no);
    }
  }

  lemma {:induction false} SortIsOrdered(bs: seq<Branch>)
    ensures Ascending(SortByNo(bs))
    ensures multiset(SortByNo(bs)) == multiset(bs)
  {
    if bs == [] {
    } else {
      SortIsOrdered(bs[1..]);
      InsertKeepsOrder(bs[0], SortByNo(bs[1..]));
      InsertKeepsRows(bs[0], SortByNo(bs[1..]));
      assert bs == [bs[0]] + bs[1..];
    }
  }

  lemma HeadsAgree(a: seq<Branch>, b: seq<Branch>)
    requires Ascending(a) && Numbered(b) && multiset(a) == multiset(b) && b != []
    ensures a != [] && a[0] == b[0]
  {
    assert b[0] in multiset(a);
    var i :| 0 <= i < |a| && a[i] == b[0];
    assert a[0] in multiset(b);
    var j :| 0 <= j < |b| && b[j] == a[0];
    assert a[0].no <= a[i].no;
    if j > 0 { assert b[0].no < b[j].no; }
  }

  lemma TailMultiset(a: seq<Branch>)
    requires a != []
    ensures multiset(a[1..]) == multiset(a) - multiset{a[0]}
  {
    assert a == [a[0]] + a[1..];
  }

  lemma {:induction false} OrderIsUnique(a: seq<Branch>, b: seq<Branch>)
    requires Ascending(a) && Numbered(b) && multiset(a) == multiset(b)
    ensures a == b
  {
    if b == [] {
      assert |multiset(a)| == 0;
    } else {
      HeadsAgree(a, b);
      TailMultiset(a);
      TailMultiset(b);
      OrderIsUnique(a[1..], b[1..]);
      assert a == [a[0]] + a[1..] && b == [b[0]] + b[1..];
    }
  }

  /** Branch rows may arrive in any order: sorting them recovers the order of the forks. */
  lemma SortRecovers(rows: seq<Branch>, bs: seq<Branch>)
    requires Numbered(bs) && multiset(rows) == multiset(bs)
    ensures SortByNo(rows) == bs
  {
    SortIsOrdered(rows);
    OrderIsUnique(SortByNo(rows), bs);
  }

  // ---------------------------------------------------------------------------
  // Excluded branches
  // ---------------------------------------------------------------------------

  function Fill(n: nat, ex: bool): (r: seq<bool>)
    ensures |r| == n && forall i :: 0 <= i < n ==> r[i] == ex
  {
    seq(n, i => ex)
  }

  /** A fork at `f` cuts inside an excluded span: after one of its messages, or at 0 before one. */
  predicate Inside(flags: seq<bool>, f: nat)
    requires f <= |flags|
  {
    if f > 0 then flags[f - 1] else |flags| > 0 && flags[0]
  }

  predicate ExcludedAt(flags: seq<bool>, b: Branch) {
    StatisticsExcluded(b.reason) || Inside(flags, Clamp(b.forkIndex, |flags|))
  }

  /** The excluded flags of the list as it was just before fork `b`, from those just after it. */
  function FlagsBefore(flags: seq<bool>, b: Branch): seq<bool> {
    flags[..Clamp(b.forkIndex, |flags|)] + Fill(|b.messages|, ExcludedAt(flags, b))
  }

  /** The numbers of the branches (oldest first in `bs`) whose span is excluded. */
  function ExcludedNos(flags: seq<bool>, bs: seq<Branch>): set<nat>
    decreases |bs|
  {
    if bs == [] then {} else
      var b := bs[|bs| - 1];
      (if ExcludedAt(flags, b) then {b.no} else {}) + ExcludedNos(FlagsBefore(flags, b), bs[..|bs| - 1])
  }

  lemma ExcludedNosStep(flags: seq<bool>, bs: seq<Branch>)
    requires bs != []
    ensures var b := bs[|bs| - 1];
      ExcludedNos(flags, bs)
      == (if ExcludedAt(flags, b) then {b.no} else {}) + ExcludedNos(FlagsBefore(flags, b), bs[..|bs| - 1])
  {
  }

  lemma NoBranchesExcluded(flags: seq<bool>)
    ensures ExcludedNos(flags, []) == {}
  {
  }

  lemma ExcludedNosAreNos(flags: seq<bool>, bs: seq<Branch>, no: nat)
    requires no in ExcludedNos(flags, bs)
    ensures exists i :: 0 <= i < |bs| && bs[i].no == no
    decreases |bs|
  {
    var b := bs[|bs| - 1];
    if no != b.no {
      ExcludedNosAreNos(FlagsBefore(flags, b), bs[..|bs| - 1], no);
    }
  }

  /** The fork index of the newest branch. */
  function NewestFork(bs: seq<Branch>): int {
    if bs == [] then 0 else bs[|bs| - 1].forkIndex
  }

  /** A transcript long enough for its newest fork is as good as an endless one. */
  lemma LengthDoesNotMatter(n: nat, k: nat, bs: seq<Branch>)
    requires NewestFork(bs) <= n && NewestFork(bs) <= k
    ensures ExcludedNos(Fill(n, false), bs) == ExcludedNos(Fill(k, false), bs)
  {
    if bs != [] {
      var b := bs[|bs| - 1];
      assert FlagsBefore(Fill(n, false), b) == FlagsBefore(Fill(k, false), b);
    }
  }

  /** The flags of the part of the list the loop knows; every later position is live and not excluded. */
  ghost predicate Covers(cur: seq<bool>, flags: seq<bool>) {
    cur <= flags && forall j :: |cur| <= j < |flags| ==> !flags[j]
  }

  /** `cur` cut or padded with `false` to `f` entries. */
  method KeptFlags(cur: seq<bool>, f: nat, ghost flags: seq<bool>) returns (kept: seq<bool>)
    requires Covers(cur, flags) && f <= |flags|
    ensures kept == flags[..f]
  {
    kept := if f < |cur| then cur[..f] else cur;
    while |kept| < f
      invariant |kept| <= f && kept == flags[..|kept|]
      decreases f - |kept|
    {
      kept := kept + [false];
    }
  }

  /** The loop over the branches, newest first; `None` is the unknown transcript length. */
  method ExcludedBranchNumbers(branches: seq<Branch>, transcriptLength: Option<nat>) returns (out: set<nat>)
    ensures transcriptLength.Some? ==> out == ExcludedNos(Fill(transcriptLength.value, false), SortByNo(branches))
    ensures transcriptLength.None? ==>
      forall n: nat | NewestFork(SortByNo(branches)) <= n ::
        out == ExcludedNos(Fill(n, false), SortByNo(branches))
  {
    hide SortByNo, ExcludedNos;
    var sorted := SortByNo(branches);
    ghost var last := NewestFork(sorted);
    ghost var n := if transcriptLength.Some? then transcriptLength.value else if last < 0 then 0 else last;
    var cur: seq<bool> := [];
    var length := transcriptLength;
    out := {};
    var i := |sorted|;
    ghost var flags := Fill(n, false);
    assert sorted[..i] == sorted;
    while i > 0
      invariant 0 <= i <= |sorted|
      invariant Covers(cur, flags)
      invariant length.Some? ==> length.value == |flags|
      invariant length.None? ==> i == |sorted| && flags == Fill(n, false) && last <= n
      invariant out + ExcludedNos(flags, sorted[..i]) == ExcludedNos(Fill(n, false), sorted)
    {
      i := i - 1;
      var b := sorted[i];
      assert sorted[..i + 1][..i] == sorted[..i];
      var f := if b.forkIndex < 0 then 0
               else if length.Some? && b.forkIndex > length.value then length.value else b.forkIndex;
      assert f == Clamp(b.forkIndex, |flags|);
      var at := if f > 0 then f - 1 else 0;
      var inside := at < |cur| && cur[at];
      assert inside == Inside(flags, f);
      var ex := StatisticsExcluded(b.reason) || inside;
      if ex {
        out := out + {b.no};
      }
      ExcludedNosStep(flags, sorted[..i + 1]);
      var kept := KeptFlags(cur, f, flags);
      cur := kept + Fill(|b.messages|, ex);
      length := Some(f + |b.messages|);
      flags := FlagsBefore(flags, b);
    }
    NoBranchesExcluded(flags);
    assert sorted[..0] == [];
    forall k: nat | transcriptLength.None? && last <= k
      ensures out == ExcludedNos(Fill(k, false), sorted)
    {
      LengthDoesNotMatter(n, k, sorted);
    }
  }

  // ---------------------------------------------------------------------------
  // The chronology
  // ---------------------------------------------------------------------------

  function Place(ms: seq<Message>, loc: nat): (r: seq<Located>)
    ensures |r| == |ms| && forall i :: 0 <= i < |ms| ==> r[i] == Located(ms[i], loc)
  {
    seq(|ms|, i requires 0 <= i < |ms| => Located(ms[i], loc))
  }

  function ItemOf(x: Located, excluded: set<nat>): Item {
    Said(x.m, x.loc, x.loc in excluded)
  }

  function ItemsOf(xs: seq<Located>, excluded: set<nat>): (r: seq<Item>)
    ensures |r| == |xs| && forall i :: 0 <= i < |xs| ==> r[i] == ItemOf(xs[i], excluded)
  {
    seq(|xs|, i requires 0 <= i < |xs| => ItemOf(xs[i], excluded))
  }

  function CutOf(b: Branch, excluded: set<nat>): Item {
    Cut(b.reason, b.no, b.no in excluded)
  }

  /** The live list just before fork `b`, from the one just after it and later. */
  function ListBefore(cur: seq<Located>, b: Branch): seq<Located> {
    cur[..Clamp(b.forkIndex, |cur|)] + Place(b.messages, b.no)
  }

  /** What was produced up to the list `cur`, given the branches cut so far (oldest first). */
  function Rebuild(cur: seq<Located>, bs: seq<Branch>, excluded: set<nat>): seq<Item>
    decreases |bs|
  {
    if bs == [] then ItemsOf(cur, excluded) else
      var b := bs[|bs| - 1];
      Rebuild(ListBefore(cur, b), bs[..|bs| - 1], excluded)
      + [CutOf(b, excluded)]
      + ItemsOf(cur[Clamp(b.forkIndex, |cur|)..], excluded)
  }

  function Excluded(transcript: seq<Message>, rows: seq<Branch>): set<nat> {
    ExcludedNos(Fill(|transcript|, false), SortByNo(rows))
  }

  function Chron(transcript: seq<Message>, rows: seq<Branch>): seq<Item> {
    Rebuild(Place(transcript, 0), SortByNo(rows), Excluded(transcript, rows))
  }

  datatype Step = Step(branch: Branch, ex: bool, after: seq<Located>)

  function StepItems(s: Step, excluded: set<nat>): seq<Item> {
    [Cut(s.branch.reason, s.branch.no, s.ex)] + ItemsOf(s.after, excluded)
  }

  function StepsItems(steps: seq<Step>, excluded: set<nat>): seq<Item> {
    if steps == [] then [] else StepItems(steps[0], excluded) + StepsItems(steps[1..], excluded)
  }

  lemma {:induction false} StepsItemsAppend(steps: seq<Step>, s: Step, excluded: set<nat>)
    ensures StepsItems(steps + [s], excluded) == StepsItems(steps, excluded) + StepItems(s, excluded)
  {
    if steps == [] {
      assert [s][1..] == [];
      assert steps + [s] == [s];
      assert StepsItems([s], excluded) == StepItems(s, excluded) + StepsItems([], excluded);
      assert StepsItems([], excluded) == [];
    } else {
      StepsItemsAppend(steps[1..], s, excluded);
      assert (steps + [s])[1..] == steps[1..] + [s];
      assert (steps + [s])[0] == steps[0];
      assert StepsItems(steps + [s], excluded)
          == StepItems(steps[0], excluded) + (StepsItems(steps[1..], excluded) + StepItems(s, excluded));
    }
  }

  /** One step of the backward walk moves a branch from the list to the steps. */
  lemma StepBack(cur: seq<Located>, bs: seq<Branch>, steps: seq<Step>, excluded: set<nat>)
    requires bs != []
    ensures var b := bs[|bs| - 1];
      var step := Step(b, b.no in excluded, cur[Clamp(b.forkIndex, |cur|)..]);
      Rebuild(cur, bs, excluded) + StepsItems(steps, excluded)
      == Rebuild(ListBefore(cur, b), bs[..|bs| - 1], excluded) + StepsItems([step] + steps, excluded)
  {
    var b := bs[|bs| - 1];
    var step := Step(b, b.no in excluded, cur[Clamp(b.forkIndex, |cur|)..]);
    var front := Rebuild(ListBefore(cur, b), bs[..|bs| - 1], excluded);
    var after := ItemsOf(step.after, excluded);
    assert ([step] + steps)[1..] == steps;
    assert StepsItems([step] + steps, excluded) == ([CutOf(b, excluded)] + after) + StepsItems(steps, excluded);
    assert Rebuild(cur, bs, excluded) == front + [CutOf(b, excluded)] + after;
  }

  /** The walk from the newest branch to the oldest, recovering every earlier list. */
  method Unwind(transcript: seq<Message>, sorted: seq<Branch>, excluded: set<nat>)
    returns (cur: seq<Located>, steps: seq<Step>)
    ensures Rebuild(Place(transcript, 0), sorted, excluded) == ItemsOf(cur, excluded) + StepsItems(steps, excluded)
  {
    cur := Place(transcript, 0);
    steps := [];
    var i := |sorted|;
    assert sorted[..i] == sorted;
    ghost var all := Rebuild(cur, sorted, excluded);
    assert all == all + StepsItems(steps, excluded);
    while i > 0
      invariant 0 <= i <= |sorted|
      invariant all == Rebuild(cur, sorted[..i], excluded) + StepsItems(steps, excluded)
    {
      i := i - 1;
      var b := sorted[i];
      assert sorted[..i + 1][..i] == sorted[..i] && sorted[..i + 1][i] == b;
      StepBack(cur, sorted[..i + 1], steps, excluded);
      var f := Clamp(b.forkIndex, |cur|);
      var ex := b.no in excluded;
      steps := [Step(b, ex, cur[f..])] + steps;
      cur := cur[..f] + Place(b.messages, b.no);
    }
    assert sorted[..0] == [];
  }

  /** The recovered lists, emitted oldest first. */
  method ChronologyOf(transcript: seq<Message>, branches: seq<Branch>) returns (out: seq<Item>)
    ensures out == Chron(transcript, branches)
  {
    hide Rebuild, SortByNo, StepItems;
    var sorted := SortByNo(branches);
    var excluded := ExcludedBranchNumbers(branches, Some(|transcript|));
    var cur, steps := Unwind(transcript, sorted, excluded);
    out := ItemsOf(cur, excluded);
    ghost var head := out;
    var k := 0;
    while k < |steps|
      invariant 0 <= k <= |steps|
      invariant out == head + StepsItems(steps[..k], excluded)
    {
      StepsItemsAppend(steps[..k], steps[k], excluded);
      assert steps[..k + 1] == steps[..k] + [steps[k]];
      out := out + StepItems(steps[k], excluded);
      k := k + 1;
    }
    assert steps[..k] == steps;
  }

  // ---------------------------------------------------------------------------
  // Session histories
  // ---------------------------------------------------------------------------

  /** What happened to a session: messages appended to the live list, and forks that cut its tail off. */
  datatype Event = Append(m: Message) | Fork(no: nat, at: nat, reason: BranchReason)

  datatype Session = Session(live: seq<Message>, branches: seq<Branch>)

  function Apply(s: Session, e: Event): Session {
    match e
    case Append(m) => s.(live := s.live + [m])
    case Fork(no, at, reason) =>
      var f := Clamp(at, |s.live|);
      Session(s.live[..f], s.branches + [Branch(no, f, reason, s.live[f..])])
  }

  function Play(log: seq<Event>): Session {
    if log == [] then Session([], []) else Apply(Play(log[..|log| - 1]), log[|log| - 1])
  }

  ghost predicate LegalNext(s: Session, e: Event) {
    e.Fork? ==>
      && e.at <= |s.live|
      && e.no > 0
      && (s.branches != [] ==> s.branches[|s.branches| - 1].no < e.no)
  }

  ghost predicate Legal(log: seq<Event>) {
    log != [] ==> Legal(log[..|log| - 1]) && LegalNext(Play(log[..|log| - 1]), log[|log| - 1])
  }

  lemma PlayAppend(log: seq<Event>, e: Event)
    ensures Play(log + [e]) == Apply(Play(log), e)
    ensures Legal(log + [e]) <==> Legal(log) && LegalNext(Play(log), e)
  {
    assert (log + [e])[..|log|] == log;
  }

  function Appends(ms: seq<Message>): seq<Event> {
    if ms == [] then [] else Appends(ms[..|ms| - 1]) + [Append(ms[|ms| - 1])]
  }

  lemma {:induction false} PlayAppends(log: seq<Event>, ms: seq<Message>)
    requires Legal(log)
    ensures Legal(log + Appends(ms)) && Play(log + Appends(ms)) == Play(log).(live := Play(log).live + ms)
  {
    hide Play, Legal;
    if ms == [] {
      assert log + Appends(ms) == log;
    } else {
      var init, m := ms[..|ms| - 1], ms[|ms| - 1];
      PlayAppends(log, init);
      assert log + Appends(ms) == (log + Appends(init)) + [Append(m)];
      PlayAppend(log + Appends(init), Append(m));
      assert ms == init + [m];
    }
  }

  /** Branch indices as the chronology reads them: clamped to the list they cut. */
  function Clamped(len: nat, bs: seq<Branch>): seq<Branch>
    decreases |bs|
  {
    if bs == [] then [] else
      var b := bs[|bs| - 1];
      var f := Clamp(b.forkIndex, len);
      Clamped(f + |b.messages|, bs[..|bs| - 1]) + [b.(forkIndex := f)]
  }

  lemma ClampedAppend(len: nat, bs: seq<Branch>, b: Branch)
    ensures var f := Clamp(b.forkIndex, len);
      Clamped(len, bs + [b]) == Clamped(f + |b.messages|, bs) + [b.(forkIndex := f)]
  {
    assert (bs + [b])[..|bs|] == bs;
  }

  /** Growing the list past its newest fork changes nothing. */
  lemma ClampedGrows(n: nat, k: nat, bs: seq<Branch>)
    requires NewestFork(bs) <= n && NewestFork(bs) <= k
    ensures Clamped(n, bs) == Clamped(k, bs)
  {}

  ghost predicate WellShaped(s: Session) {
    && Numbered(s.branches)
    && Clamped(|s.live|, s.branches) == s.branches
    && 0 <= NewestFork(s.branches) <= |s.live|
  }

  lemma ShapeKept(s: Session, e: Event)
    requires WellShaped(s) && LegalNext(s, e)
    ensures WellShaped(Apply(s, e))
  {
    hide Clamped;
    match e
    case Append(m) =>
      ClampedGrows(|s.live|, |s.live| + 1, s.branches);
    case Fork(no, at, reason) =>
      var b := Branch(no, at, reason, s.live[at..]);
      ClampedAppend(at, s.branches, b);
      assert Numbered(s.branches + [b]);
  }

  /** What every run keeps: numbered branches whose indices fit the lists they cut. */
  lemma {:induction false} RunShape(log: seq<Event>)
    requires Legal(log)
    ensures WellShaped(Play(log))
  {
    if log != [] {
      RunShape(log[..|log| - 1]);
      ShapeKept(Play(log[..|log| - 1]), log[|log| - 1]);
    }
  }
}
