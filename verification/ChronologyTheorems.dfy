/** What the chronology recovers from a session, and what is left of it once the excluded spans are dropped. */
module ChronologyTheorems {
  import opened Transcript
  import opened Chronology

  // ---------------------------------------------------------------------------
  // The chronology inverts the run
  // ---------------------------------------------------------------------------

  /** Where the message at position `p` of the live list after `j` events finally lands: 0 = it is never cut. */
  function Fate(log: seq<Event>, j: nat, p: nat): nat
    requires j <= |log|
    decreases |log| - j
  {
    if j == |log| then 0
    else if log[j].Fork? && log[j].at <= p then log[j].no
    else Fate(log, j + 1, p)
  }

  /** The item that records event `i`: a message carries the place it finally landed in. */
  function Record(log: seq<Event>, i: nat, excluded: set<nat>): Item
    requires i < |log|
  {
    match log[i]
    case Append(m) =>
      var loc := Fate(log, i + 1, |Play(log[..i]).live|);
      Said(m, loc, loc in excluded)
    case Fork(no, _, reason) => Cut(reason, no, no in excluded)
  }

  function Records(log: seq<Event>, k: nat, excluded: set<nat>): seq<Item>
    requires k <= |log|
  {
    if k == 0 then [] else Records(log, k - 1, excluded) + [Record(log, k - 1, excluded)]
  }

  lemma {:induction false} RecordsAt(log: seq<Event>, k: nat, i: nat, excluded: set<nat>)
    requires i < k <= |log|
    ensures |Records(log, k, excluded)| == k && Records(log, k, excluded)[i] == Record(log, i, excluded)
  {
    if k > 1 { RecordsAt(log, k - 1, if i < k - 1 then i else 0, excluded); }
  }

  function Fated(live: seq<Message>, log: seq<Event>, k: nat): seq<Located>
    requires k <= |log|
  {
    seq(|live|, p requires 0 <= p < |live| => Located(live[p], Fate(log, k, p)))
  }

  lemma {:induction false} LegalPrefix(log: seq<Event>, k: nat)
    requires Legal(log) && k <= |log|
    ensures Legal(log[..k])
    decreases |log|
  {
    if k < |log| {
      LegalPrefix(log[..|log| - 1], k);
      assert log[..|log| - 1][..k] == log[..k];
    } else {
      assert log[..k] == log;
    }
  }

  lemma RebuildAppend(cur: seq<Located>, x: Located, bs: seq<Branch>, excluded: set<nat>)
    requires NewestFork(bs) <= |cur|
    ensures Rebuild(cur + [x], bs, excluded) == Rebuild(cur, bs, excluded) + [ItemOf(x, excluded)]
  {
    if bs == [] {
      assert ItemsOf(cur + [x], excluded) == ItemsOf(cur, excluded) + [ItemOf(x, excluded)];
    } else {
      var b := bs[|bs| - 1];
      var f := Clamp(b.forkIndex, |cur|);
      assert (cur + [x])[..f] == cur[..f];
      assert ItemsOf((cur + [x])[f..], excluded) == ItemsOf(cur[f..], excluded) + [ItemOf(x, excluded)];
    }
  }

  lemma RebuildFork(cur: seq<Located>, bs: seq<Branch>, b: Branch, excluded: set<nat>)
    requires b.forkIndex == |cur|
    ensures Rebuild(cur, bs + [b], excluded)
      == Rebuild(cur + Place(b.messages, b.no), bs, excluded) + [CutOf(b, excluded)]
  {
    assert (bs + [b])[..|bs|] == bs;
    assert cur[..|cur|] == cur && cur[|cur|..] == [];
    assert ItemsOf([], excluded) == [];
  }

  lemma SaidStep(s: Session, log: seq<Event>, k: nat, excluded: set<nat>)
    requires k < |log| && log[k].Append? && NewestFork(s.branches) <= |s.live|
    ensures var t := Apply(s, log[k]);
      var loc := Fate(log, k + 1, |s.live|);
      Rebuild(Fated(t.live, log, k + 1), t.branches, excluded)
      == Rebuild(Fated(s.live, log, k), s.branches, excluded) + [Said(log[k].m, loc, loc in excluded)]
  {
    var x := Located(log[k].m, Fate(log, k + 1, |s.live|));
    assert Fated(s.live + [log[k].m], log, k + 1) == Fated(s.live, log, k) + [x];
    RebuildAppend(Fated(s.live, log, k), x, s.branches, excluded);
  }

  lemma CutStep(s: Session, log: seq<Event>, k: nat, excluded: set<nat>)
    requires k < |log| && log[k].Fork? && log[k].at <= |s.live|
    ensures var t := Apply(s, log[k]);
      Rebuild(Fated(t.live, log, k + 1), t.branches, excluded)
      == Rebuild(Fated(s.live, log, k), s.branches, excluded) + [Cut(log[k].reason, log[k].no, log[k].no in excluded)]
  {
    var Fork(no, at, reason) := log[k];
    var b := Branch(no, at, reason, s.live[at..]);
    var after := Fated(s.live[..at], log, k + 1);
    assert after + Place(b.messages, no) == Fated(s.live, log, k);
    RebuildFork(after, s.branches, b, excluded);
  }

  lemma {:induction false} RebuildIsRecords(log: seq<Event>, k: nat, excluded: set<nat>)
    requires Legal(log) && k <= |log|
    ensures var s := Play(log[..k]);
      Rebuild(Fated(s.live, log, k), s.branches, excluded) == Records(log, k, excluded)
  {
    if k == 0 {
      assert log[..0] == [];
      assert Fated([], log, 0) == [];
    } else {
      RebuildIsRecords(log, k - 1, excluded);
      var s, e := Play(log[..k - 1]), log[k - 1];
      assert log[..k] == log[..k - 1] + [e];
      LegalPrefix(log, k);
      PlayAppend(log[..k - 1], e);
      RunShape(log[..k - 1]);
      if e.Append? { SaidStep(s, log, k - 1, excluded); } else { CutStep(s, log, k - 1, excluded); }
    }
  }

  /**
   * Whatever a session went through, the chronology of its final transcript and its branch rows (in any
   * order) is its history, event for event, each message tagged with the branch it finally landed in.
   */
  lemma ChronologyInvertsRun(log: seq<Event>, rows: seq<Branch>)
    requires Legal(log) && multiset(rows) == multiset(Play(log).branches)
    ensures var s := Play(log);
      var items := Chron(s.live, rows);
      && |items| == |log|
      && forall i :: 0 <= i < |log| ==> items[i] == Record(log, i, Excluded(s.live, rows))
  {
    hide Rebuild, ExcludedNos, SortByNo, Legal, Play, Record;
    var s := Play(log);
    RunShape(log);
    SortRecovers(rows, s.branches);
    assert log[..|log|] == log;
    assert Fated(s.live, log, |log|) == Place(s.live, 0);
    var excluded := Excluded(s.live, rows);
    RebuildIsRecords(log, |log|, excluded);
    forall i | 0 <= i < |log|
      ensures |Records(log, |log|, excluded)| == |log| && Records(log, |log|, excluded)[i] == Record(log, i, excluded)
    {
      RecordsAt(log, |log|, i, excluded);
    }
  }

  lemma {:induction false} ForkIsStored(log: seq<Event>, i: nat) returns (q: nat)
    requires i < |log| && log[i].Fork? && Legal(log)
    ensures var bs := Play(log).branches;
      q < |bs| && bs[q].no == log[i].no && bs[q].forkIndex == log[i].at
  {
    var n := |log| - 1;
    if i < n {
      q := ForkIsStored(log[..n], i);
    } else {
      q := |Play(log[..n]).branches|;
    }
  }

  /** A session's stored state determines its whole history. */
  lemma HistoryIsDetermined(a: seq<Event>, b: seq<Event>)
    requires Legal(a) && Legal(b) && Play(a) == Play(b)
    ensures a == b
  {
    hide Legal, Excluded, Chron, Fate;
    var s := Play(a);
    RunShape(a);
    ChronologyInvertsRun(a, s.branches);
    ChronologyInvertsRun(b, s.branches);
    var excluded := Excluded(s.live, s.branches);
    forall i | 0 <= i < |a| ensures a[i] == b[i] {
      assert Record(a, i, excluded) == Record(b, i, excluded);
      if a[i].Fork? {
        var q := ForkIsStored(a, i);
        var r := ForkIsStored(b, i);
        assert q == r;
      }
    }
  }

  // ---------------------------------------------------------------------------
  // Dropping the excluded spans
  // ---------------------------------------------------------------------------

  /** Once an entry is excluded, so is every later one. */
  ghost predicate SuffixOnly(flags: seq<bool>) {
    forall i, j :: 0 <= i < j < |flags| && flags[i] ==> flags[j]
  }

  lemma SuffixKept(flags: seq<bool>, b: Branch)
    requires SuffixOnly(flags)
    ensures SuffixOnly(FlagsBefore(flags, b))
  {
  }

  /** The excluded flags of the list just before fork `k` (`k` = number of forks: of the final list). */
  function FlagsAt(flags: seq<bool>, bs: seq<Branch>, k: nat): seq<bool>
    requires k <= |bs|
    decreases |bs|
  {
    if k == |bs| then flags else FlagsAt(FlagsBefore(flags, bs[|bs| - 1]), bs[..|bs| - 1], k)
  }

  /** In every reconstructed list the excluded messages are a suffix. */
  lemma {:induction false} ExcludedIsSuffix(flags: seq<bool>, bs: seq<Branch>, k: nat)
    requires SuffixOnly(flags) && k <= |bs|
    ensures SuffixOnly(FlagsAt(flags, bs, k))
    decreases |bs|
  {
    if k < |bs| {
      SuffixKept(flags, bs[|bs| - 1]);
      ExcludedIsSuffix(FlagsBefore(flags, bs[|bs| - 1]), bs[..|bs| - 1], k);
    }
  }

  function FlagsOf(cur: seq<Located>, excluded: set<nat>): seq<bool> {
    seq(|cur|, i requires 0 <= i < |cur| => cur[i].loc in excluded)
  }

  /** `excluded` answers for every branch as the walk over the shapes does. */
  ghost predicate Agrees(flags: seq<bool>, bs: seq<Branch>, excluded: set<nat>)
    decreases |bs|
  {
    bs != [] ==>
      var b := bs[|bs| - 1];
      && (b.no in excluded <==> ExcludedAt(flags, b))
      && Agrees(FlagsBefore(flags, b), bs[..|bs| - 1], excluded)
  }

  lemma {:induction false} ExcludedNosAgree(flags: seq<bool>, bs: seq<Branch>, extra: set<nat>)
    requires Numbered(bs)
    requires forall i :: 0 <= i < |bs| ==> bs[i].no !in extra
    ensures Agrees(flags, bs, ExcludedNos(flags, bs) + extra)
    decreases |bs|
  {
    if bs != [] {
      var b, older := bs[|bs| - 1], bs[..|bs| - 1];
      var next := FlagsBefore(flags, b);
      var own := if ExcludedAt(flags, b) then {b.no} else {};
      ExcludedNosAgree(next, older, own + extra);
      assert ExcludedNos(next, older) + (own + extra) == ExcludedNos(flags, bs) + extra;
      if b.no in ExcludedNos(next, older) { ExcludedNosAreNos(next, older, b.no); }
    }
  }

  lemma FlagsOfListBefore(cur: seq<Located>, b: Branch, excluded: set<nat>)
    requires b.no in excluded <==> ExcludedAt(FlagsOf(cur, excluded), b)
    ensures FlagsOf(ListBefore(cur, b), excluded) == FlagsBefore(FlagsOf(cur, excluded), b)
  {
  }

  /** The messages of `cur` that count. */
  function Counted(cur: seq<Located>, excluded: set<nat>): seq<Message> {
    if cur == [] then [] else
      var x := cur[|cur| - 1];
      Counted(cur[..|cur| - 1], excluded) + (if x.loc in excluded then [] else [x.m])
  }

  lemma {:induction false} CountedConcat(a: seq<Located>, b: seq<Located>, excluded: set<nat>)
    ensures Counted(a + b, excluded) == Counted(a, excluded) + Counted(b, excluded)
  {
    if b == [] {
      assert a + b == a;
    } else {
      assert (a + b)[..|a + b| - 1] == a + b[..|b| - 1];
      CountedConcat(a, b[..|b| - 1], excluded);
    }
  }

  lemma {:induction false} CountedAll(cur: seq<Located>, excluded: set<nat>)
    requires forall i :: 0 <= i < |cur| ==> cur[i].loc !in excluded
    ensures |Counted(cur, excluded)| == |cur|
    ensures forall i :: 0 <= i < |cur| ==> Counted(cur, excluded)[i] == cur[i].m
  {
    if cur != [] { CountedAll(cur[..|cur| - 1], excluded); }
  }

  /** The branches that count. */
  function CountedBranches(bs: seq<Branch>, excluded: set<nat>): seq<Branch> {
    if bs == [] then [] else
      var b := bs[|bs| - 1];
      CountedBranches(bs[..|bs| - 1], excluded) + (if b.no in excluded then [] else [b])
  }

  /** The items that count, as events again; a fork's index comes from its branch row. */
  function CountedLog(items: seq<Item>, at: map<nat, nat>): seq<Event> {
    if items == [] then [] else
      var x := items[|items| - 1];
      CountedLog(items[..|items| - 1], at)
      + (if x.excluded then []
         else match x
              case Said(m, _, _) => [Append(m)]
              case Cut(reason, no, _) => [Fork(no, if no in at then at[no] else 0, reason)])
  }

  lemma {:induction false} CountedLogConcat(a: seq<Item>, b: seq<Item>, at: map<nat, nat>)
    ensures CountedLog(a + b, at) == CountedLog(a, at) + CountedLog(b, at)
  {
    if b == [] {
      assert a + b == a;
    } else {
      assert (a + b)[..|a + b| - 1] == a + b[..|b| - 1];
      CountedLogConcat(a, b[..|b| - 1], at);
    }
  }

  lemma {:induction false} CountedItems(xs: seq<Located>, excluded: set<nat>, at: map<nat, nat>)
    ensures CountedLog(ItemsOf(xs, excluded), at) == Appends(Counted(xs, excluded))
  {
    if xs != [] {
      var x, init := xs[|xs| - 1], xs[..|xs| - 1];
      CountedItems(init, excluded, at);
      assert ItemsOf(xs, excluded)[..|xs| - 1] == ItemsOf(init, excluded);
      var some := Counted(init, excluded);
      if x.loc in excluded {
        assert some + [] == some;
      } else {
        assert (some + [x.m])[..|some|] == some;
      }
    }
  }

  /** `at` holds the fork index of every branch. */
  ghost predicate Indexes(at: map<nat, nat>, bs: seq<Branch>) {
    forall i :: 0 <= i < |bs| ==> bs[i].no in at && at[bs[i].no] == bs[i].forkIndex
  }

  function IndexMap(bs: seq<Branch>): map<nat, nat> {
    if bs == [] then map[] else
      var b := bs[|bs| - 1];
      IndexMap(bs[..|bs| - 1])[b.no := if b.forkIndex < 0 then 0 else b.forkIndex]
  }

  lemma {:induction false} IndexMapIndexes(bs: seq<Branch>)
    requires forall i, j :: 0 <= i < j < |bs| ==> bs[i].no != bs[j].no
    requires forall i :: 0 <= i < |bs| ==> bs[i].forkIndex >= 0
    ensures Indexes(IndexMap(bs), bs)
  {
    if bs != [] { IndexMapIndexes(bs[..|bs| - 1]); }
  }

  lemma CountedBranchNos(bs: seq<Branch>, excluded: set<nat>, no: nat)
    requires forall i :: 0 <= i < |bs| ==> bs[i].no < no
    ensures forall i :: 0 <= i < |CountedBranches(bs, excluded)| ==> CountedBranches(bs, excluded)[i].no < no
  {
  }

  lemma {:induction false} CountedNone(cur: seq<Located>, excluded: set<nat>)
    requires forall i :: 0 <= i < |cur| ==> cur[i].loc in excluded
    ensures Counted(cur, excluded) == []
  {
    if cur != [] { CountedNone(cur[..|cur| - 1], excluded); }
  }

  lemma CountedSplit(cur: seq<Located>, f: nat, excluded: set<nat>)
    requires f <= |cur|
    ensures Counted(cur, excluded) == Counted(cur[..f], excluded) + Counted(cur[f..], excluded)
  {
    CountedConcat(cur[..f], cur[f..], excluded);
    assert cur[..f] + cur[f..] == cur;
  }

  lemma CountedMessages(ms: seq<Message>, no: nat, excluded: set<nat>)
    ensures Counted(Place(ms, no), excluded) == if no in excluded then [] else ms
  {
    if no in excluded {
      CountedNone(Place(ms, no), excluded);
    } else {
      CountedAll(Place(ms, no), excluded);
    }
  }

  /** The counted branches of a list, and of the list before its newest fork. */
  lemma CountedBranchesStep(len: nat, bs: seq<Branch>, excluded: set<nat>)
    requires bs != []
    ensures var b := bs[|bs| - 1];
      var f := Clamp(b.forkIndex, len);
      CountedBranches(Clamped(len, bs), excluded)
      == CountedBranches(Clamped(f + |b.messages|, bs[..|bs| - 1]), excluded)
         + (if b.no in excluded then [] else [b.(forkIndex := f)])
  {
    var b := bs[|bs| - 1];
    var f := Clamp(b.forkIndex, len);
    var older := Clamped(f + |b.messages|, bs[..|bs| - 1]);
    assert (older + [b.(forkIndex := f)])[..|older|] == older;
  }

  /** The session a reconstruction of `cur` and `bs` must play back to. */
  function Target(cur: seq<Located>, bs: seq<Branch>, excluded: set<nat>): Session {
    Session(Counted(cur, excluded), CountedBranches(Clamped(|cur|, bs), excluded))
  }

  lemma CountedListBefore(cur: seq<Located>, b: Branch, excluded: set<nat>)
    ensures Counted(ListBefore(cur, b), excluded)
      == Counted(cur[..Clamp(b.forkIndex, |cur|)], excluded) + (if b.no in excluded then [] else b.messages)
  {
    CountedConcat(cur[..Clamp(b.forkIndex, |cur|)], Place(b.messages, b.no), excluded);
    CountedMessages(b.messages, b.no, excluded);
  }

  /** An excluded branch drops out with its fork. */
  lemma DropBranch(cur: seq<Located>, bs: seq<Branch>, excluded: set<nat>)
    requires bs != [] && bs[|bs| - 1].no in excluded
    ensures var b := bs[|bs| - 1];
      var older := Target(ListBefore(cur, b), bs[..|bs| - 1], excluded);
      Target(cur, bs, excluded)
      == older.(live := older.live + Counted(cur[Clamp(b.forkIndex, |cur|)..], excluded))
  {
    hide Clamped, CountedBranches, Counted;
    var b := bs[|bs| - 1];
    CountedListBefore(cur, b, excluded);
    CountedSplit(cur, Clamp(b.forkIndex, |cur|), excluded);
    CountedBranchesStep(|cur|, bs, excluded);
  }

  /** Nothing is excluded before a fork that is not. */
  lemma NothingExcludedBefore(cur: seq<Located>, f: nat, excluded: set<nat>)
    requires f <= |cur| && SuffixOnly(FlagsOf(cur, excluded)) && !Inside(FlagsOf(cur, excluded), f)
    ensures |Counted(cur[..f], excluded)| == f
  {
    var flags := FlagsOf(cur, excluded);
    assert f > 0 ==> !flags[f - 1];
    assert forall i :: 0 <= i < f ==> flags[i] == (cur[i].loc in excluded);
    CountedAll(cur[..f], excluded);
  }

  lemma CutAtSplit(kept: seq<Message>, cut: seq<Message>, bs: seq<Branch>, no: nat, reason: BranchReason)
    requires no > 0 && forall i :: 0 <= i < |bs| ==> bs[i].no < no
    ensures LegalNext(Session(kept + cut, bs), Fork(no, |kept|, reason))
    ensures Apply(Session(kept + cut, bs), Fork(no, |kept|, reason)) ==
      Session(kept, bs + [Branch(no, |kept|, reason, cut)])
  {
    assert (kept + cut)[..|kept|] == kept && (kept + cut)[|kept|..] == cut;
  }

  lemma CutLive(cur: seq<Located>, b: Branch, excluded: set<nat>)
    requires b.no !in excluded && SuffixOnly(FlagsOf(cur, excluded)) && !ExcludedAt(FlagsOf(cur, excluded), b)
    ensures var f := Clamp(b.forkIndex, |cur|);
      && Counted(ListBefore(cur, b), excluded) == Counted(cur[..f], excluded) + b.messages
      && |Counted(cur[..f], excluded)| == f
  {
    NothingExcludedBefore(cur, Clamp(b.forkIndex, |cur|), excluded);
    CountedListBefore(cur, b, excluded);
  }

  lemma CutBranches(len: nat, bs: seq<Branch>, excluded: set<nat>)
    requires Numbered(bs) && bs != [] && bs[|bs| - 1].no !in excluded
    ensures var b := bs[|bs| - 1];
      var f := Clamp(b.forkIndex, len);
      var older := CountedBranches(Clamped(f + |b.messages|, bs[..|bs| - 1]), excluded);
      && CountedBranches(Clamped(len, bs), excluded) == older + [Branch(b.no, f, b.reason, b.messages)]
      && forall i :: 0 <= i < |older| ==> older[i].no < b.no
  {
    hide Clamped, CountedBranches;
    var b := bs[|bs| - 1];
    var f := Clamp(b.forkIndex, len);
    CountedBranchesStep(len, bs, excluded);
    ClampedNos(f + |b.messages|, bs[..|bs| - 1]);
    CountedBranchNos(Clamped(f + |b.messages|, bs[..|bs| - 1]), excluded, b.no);
  }

  /** A counted branch is cut where its row says. */
  lemma CutBranch(cur: seq<Located>, bs: seq<Branch>, excluded: set<nat>)
    requires Numbered(bs) && bs != [] && bs[|bs| - 1].no !in excluded
    requires SuffixOnly(FlagsOf(cur, excluded)) && !ExcludedAt(FlagsOf(cur, excluded), bs[|bs| - 1])
    ensures var b := bs[|bs| - 1];
      var f := Clamp(b.forkIndex, |cur|);
      var older := Target(ListBefore(cur, b), bs[..|bs| - 1], excluded);
      && LegalNext(older, Fork(b.no, f, b.reason))
      && Apply(older, Fork(b.no, f, b.reason))
         == Session(Counted(cur[..f], excluded), Target(cur, bs, excluded).branches)
  {
    hide Clamped, CountedBranches, Counted, FlagsOf, ExcludedAt;
    var b := bs[|bs| - 1];
    var f := Clamp(b.forkIndex, |cur|);
    CutLive(cur, b, excluded);
    CutBranches(|cur|, bs, excluded);
    CutAtSplit(Counted(cur[..f], excluded), b.messages,
               CountedBranches(Clamped(f + |b.messages|, bs[..|bs| - 1]), excluded), b.no, b.reason);
  }

  lemma {:induction false} ClampedNos(len: nat, bs: seq<Branch>)
    ensures |Clamped(len, bs)| == |bs| && forall i :: 0 <= i < |bs| ==> Clamped(len, bs)[i].no == bs[i].no
    ensures forall i :: 0 <= i < |bs| ==> Clamped(len, bs)[i].forkIndex >= 0
    decreases |bs|
  {
    if bs != [] {
      var b := bs[|bs| - 1];
      ClampedNos(Clamp(b.forkIndex, len) + |b.messages|, bs[..|bs| - 1]);
    }
  }

  /** The counted items of a list and its newest branch, oldest first. */
  lemma CountedLogStep(cur: seq<Located>, bs: seq<Branch>, excluded: set<nat>, at: map<nat, nat>)
    requires bs != []
    requires var b := bs[|bs| - 1]; b.no in at && at[b.no] == Clamp(b.forkIndex, |cur|)
    ensures var b := bs[|bs| - 1];
      var f := Clamp(b.forkIndex, |cur|);
      CountedLog(Rebuild(cur, bs, excluded), at)
      == CountedLog(Rebuild(ListBefore(cur, b), bs[..|bs| - 1], excluded), at)
         + (if b.no in excluded then [] else [Fork(b.no, f, b.reason)])
         + Appends(Counted(cur[f..], excluded))
  {
    var b := bs[|bs| - 1];
    var f := Clamp(b.forkIndex, |cur|);
    var front := Rebuild(ListBefore(cur, b), bs[..|bs| - 1], excluded);
    var cut := [CutOf(b, excluded)];
    CountedLogConcat(front + cut, ItemsOf(cur[f..], excluded), at);
    CountedLogConcat(front, cut, at);
    CountedItems(cur[f..], excluded, at);
    assert cut[..0] == [];
  }

  lemma {:induction false} CountedRebuild(cur: seq<Located>, bs: seq<Branch>, excluded: set<nat>, at: map<nat, nat>)
    requires Numbered(bs) && Agrees(FlagsOf(cur, excluded), bs, excluded)
    requires SuffixOnly(FlagsOf(cur, excluded)) && Indexes(at, Clamped(|cur|, bs))
    ensures var log := CountedLog(Rebuild(cur, bs, excluded), at);
      Legal(log) && Play(log) == Target(cur, bs, excluded)
    decreases |bs|
  {
    if bs == [] {
      CountedItems(cur, excluded, at);
      PlayAppends([], Counted(cur, excluded));
      assert [] + Appends(Counted(cur, excluded)) == Appends(Counted(cur, excluded));
    } else {
      var b, older := bs[|bs| - 1], bs[..|bs| - 1];
      var before := ListBefore(cur, b);
      var f := Clamp(b.forkIndex, |cur|);
      FlagsOfListBefore(cur, b, excluded);
      SuffixKept(FlagsOf(cur, excluded), b);
      IndexesBefore(|cur|, bs, at);
      CountedRebuild(before, older, excluded, at);
      CountedLogStep(cur, bs, excluded, at);
      var log := CountedLog(Rebuild(before, older, excluded), at);
      if b.no in excluded {
        assert log + [] == log;
        DropBranch(cur, bs, excluded);
        PlayAppends(log, Counted(cur[f..], excluded));
      } else {
        CutBranch(cur, bs, excluded);
        PlayAppend(log, Fork(b.no, f, b.reason));
        PlayAppends(log + [Fork(b.no, f, b.reason)], Counted(cur[f..], excluded));
        CountedSplit(cur, f, excluded);
      }
    }
  }

  lemma IndexesBefore(len: nat, bs: seq<Branch>, at: map<nat, nat>)
    requires bs != [] && Indexes(at, Clamped(len, bs))
    ensures var b := bs[|bs| - 1];
      var f := Clamp(b.forkIndex, len);
      && Indexes(at, Clamped(f + |b.messages|, bs[..|bs| - 1]))
      && b.no in at && at[b.no] == f
  {
    var b := bs[|bs| - 1];
    var f := Clamp(b.forkIndex, len);
    IndexesSplit(at, Clamped(f + |b.messages|, bs[..|bs| - 1]), b.(forkIndex := f));
  }

  lemma IndexesSplit(at: map<nat, nat>, bs: seq<Branch>, b: Branch)
    requires Indexes(at, bs + [b])
    ensures Indexes(at, bs) && b.no in at && at[b.no] == b.forkIndex
  {
    assert (bs + [b])[|bs|] == b;
    assert forall i :: 0 <= i < |bs| ==> (bs + [b])[i] == bs[i];
  }

  /**
   * Filtering the excluded items out of a chronology leaves the history of a session: a legal run that ends in
   * the same transcript and has exactly the branches that count. This holds of any stored rows, whatever
   * their fork indices.
   */
  lemma CountedChronologyIsARun(transcript: seq<Message>, rows: seq<Branch>)
    requires Numbered(SortByNo(rows))
    ensures var excluded := Excluded(transcript, rows);
      var stored := Clamped(|transcript|, SortByNo(rows));
      var log := CountedLog(Chron(transcript, rows), IndexMap(stored));
      Legal(log) && Play(log) == Session(transcript, CountedBranches(stored, excluded))
  {
    var bs, excluded := SortByNo(rows), Excluded(transcript, rows);
    var cur := Place(transcript, 0);
    var flags := Fill(|transcript|, false);
    if 0 in excluded { ExcludedNosAreNos(flags, bs, 0); }
    assert FlagsOf(cur, excluded) == flags;
    ExcludedNosAgree(flags, bs, {});
    assert excluded + {} == excluded;
    var stored := Clamped(|cur|, bs);
    ClampedNos(|cur|, bs);
    IndexMapIndexes(stored);
    CountedRebuild(cur, bs, excluded, IndexMap(stored));
    CountedMessages(transcript, 0, excluded);
  }

  /** For a session's own rows, in any order, nothing needs clamping. */
  lemma CountedRunOfRun(history: seq<Event>, rows: seq<Branch>)
    requires Legal(history) && multiset(rows) == multiset(Play(history).branches)
    ensures var s := Play(history);
      var excluded := Excluded(s.live, rows);
      var log := CountedLog(Chron(s.live, rows), IndexMap(s.branches));
      Legal(log) && Play(log) == Session(s.live, CountedBranches(s.branches, excluded))
  {
    var s := Play(history);
    RunShape(history);
    SortRecovers(rows, s.branches);
    CountedChronologyIsARun(s.live, rows);
  }

  /** For a session's own rows the shapes decide: any transcript length past the newest fork gives the same branches. */
  lemma ShapesSuffice(history: seq<Event>, rows: seq<Branch>, n: nat)
    requires Legal(history) && multiset(rows) == multiset(Play(history).branches)
    requires NewestFork(SortByNo(rows)) <= n
    ensures ExcludedNos(Fill(n, false), SortByNo(rows)) == Excluded(Play(history).live, rows)
  {
    var s := Play(history);
    RunShape(history);
    SortRecovers(rows, s.branches);
    LengthDoesNotMatter(n, |s.live|, s.branches);
  }

  // ---------------------------------------------------------------------------
  // Which spans are excluded
  // ---------------------------------------------------------------------------

  lemma {:induction false} NothingCut(log: seq<Event>, m: nat, k: nat, p: nat)
    requires m <= k <= |log| && forall i | m <= i < k :: log[i].Append?
    ensures Fate(log, m, p) == Fate(log, k, p)
    decreases k - m
  {
    if m < k { NothingCut(log, m + 1, k, p); }
  }

  lemma {:induction false} OnlyGrew(log: seq<Event>, m: nat, k: nat)
    requires m <= k <= |log| && forall i | m <= i < k :: log[i].Append?
    ensures var s, t := Play(log[..m]), Play(log[..k]);
      t.branches == s.branches && |t.live| == |s.live| + (k - m) && s.live == t.live[..|s.live|]
    decreases k - m
  {
    if m < k {
      OnlyGrew(log, m, k - 1);
      PlayAppend(log[..k - 1], log[k - 1]);
      assert log[..k] == log[..k - 1] + [log[k - 1]];
    }
  }

  /** The message at place `p` once the first `k` events happened finally lands in an excluded branch. */
  ghost predicate LandsExcluded(log: seq<Event>, k: nat, p: nat, excluded: set<nat>)
    requires k <= |log|
  {
    Fate(log, k, p) in excluded
  }

  /** Why a fork's span does not count. */
  ghost predicate Unsampled(log: seq<Event>, j: nat, excluded: set<nat>)
    requires j < |log| && log[j].Fork?
  {
    var Fork(_, at, reason) := log[j];
    || reason.EditRedo? || reason.AdditionRedo? || reason.Revival? || reason.TurnAborted?
    || (at > 0 && LandsExcluded(log, j + 1, at - 1, excluded))
    || (at == 0 && j + 1 < |log| && log[j + 1].Append? && LandsExcluded(log, j + 1, 0, excluded))
  }

  /** The flags of the list before the next fork decide for the newest branch as the history does. */
  lemma FlagsTellFork(log: seq<Event>, j: nat, k: nat, excluded: set<nat>)
    requires j < k <= |log| && log[j].Fork? && Legal(log)
    requires (forall i | j < i < k :: log[i].Append?) && (k < |log| ==> log[k].Fork?)
    ensures var bs := Play(log[..k]).branches;
      && bs != [] && bs[|bs| - 1].no == log[j].no
      && bs[..|bs| - 1] == Play(log[..j]).branches
      && var flags := FlagsOf(Fated(Play(log[..k]).live, log, k), excluded);
      (ExcludedAt(flags, bs[|bs| - 1]) <==> Unsampled(log, j, excluded))
  {
    var Fork(no, at, reason) := log[j];
    ForkMade(log, j, k);
    NothingCut(log, j + 1, k, if at > 0 then at - 1 else 0);
  }

  /** The branch a fork made, still the newest at the next fork. */
  lemma ForkMade(log: seq<Event>, j: nat, k: nat)
    requires j < k <= |log| && log[j].Fork? && Legal(log) && forall i | j < i < k :: log[i].Append?
    ensures var Fork(no, at, reason) := log[j];
      var s, t := Play(log[..j]), Play(log[..k]);
      && at <= |s.live| && t.branches == s.branches + [Branch(no, at, reason, s.live[at..])]
      && |t.live| == at + (k - j - 1) && t.live[..at] == s.live[..at]
  {
    LegalPrefix(log, j + 1);
    assert log[..j + 1] == log[..j] + [log[j]];
    PlayAppend(log[..j], log[j]);
    OnlyGrew(log, j + 1, k);
  }

  /** And the flags of the list before it follow. */
  lemma FlagsBeforeFork(log: seq<Event>, j: nat, k: nat, excluded: set<nat>)
    requires j < k <= |log| && log[j].Fork? && Legal(log) && forall i | j < i < k :: log[i].Append?
    requires var t := Play(log[..k]);
      t.branches != [] ==>
        (log[j].no in excluded <==>
          ExcludedAt(FlagsOf(Fated(t.live, log, k), excluded), t.branches[|t.branches| - 1]))
    ensures var s, t := Play(log[..j]), Play(log[..k]);
      t.branches != [] &&
      FlagsBefore(FlagsOf(Fated(t.live, log, k), excluded), t.branches[|t.branches| - 1])
        == FlagsOf(Fated(s.live, log, j), excluded)
  {
    ForkMade(log, j, k);
    var s, t, at := Play(log[..j]), Play(log[..k]), log[j].at;
    var flags := FlagsOf(Fated(t.live, log, k), excluded);
    var before := FlagsOf(Fated(s.live, log, j), excluded);
    forall p | 0 <= p < at ensures before[p] == flags[p] {
      NothingCut(log, j + 1, k, p);
    }
    assert before == FlagsBefore(flags, t.branches[|t.branches| - 1]);
  }

  /** Walking back from a fork, or from the end, every earlier fork is excluded for a reason in the history. */
  lemma {:induction false} ForksUnsampled(log: seq<Event>, m: nat, k: nat, j: nat, excluded: set<nat>)
    requires j < m <= k <= |log| && log[j].Fork? && Legal(log)
    requires (forall i | m <= i < k :: log[i].Append?) && (k < |log| ==> log[k].Fork?)
    requires var t := Play(log[..k]);
      Agrees(FlagsOf(Fated(t.live, log, k), excluded), t.branches, excluded)
    ensures log[j].no in excluded <==> Unsampled(log, j, excluded)
    decreases m
  {
    hide Unsampled, FlagsOf, Fated, FlagsBefore, ExcludedAt, Legal, Play;
    if log[m - 1].Append? {
      ForksUnsampled(log, m - 1, k, j, excluded);
    } else {
      FlagsTellFork(log, m - 1, k, excluded);
      if j < m - 1 {
        FlagsBeforeFork(log, m - 1, k, excluded);
        ForksUnsampled(log, m - 1, m - 1, j, excluded);
      }
    }
  }

  /**
   * A fork's span does not count exactly when its reason is an edit, an addition, a revival or an abort, or when the
   * message it was cut after (the first one, for a cut at 0) itself lands in a span that does not count; a message
   * does not count exactly when the fork it lands in does not.
   */
  lemma ExcludedExactlyWhen(log: seq<Event>, rows: seq<Branch>, i: nat)
    requires Legal(log) && multiset(rows) == multiset(Play(log).branches) && i < |log|
    ensures var s := Play(log);
      var items, excluded := Chron(s.live, rows), Excluded(s.live, rows);
      && |items| == |log| && 0 !in excluded
      && (log[i].Fork? ==> (items[i].excluded <==> Unsampled(log, i, excluded))
                           && (items[i].excluded <==> log[i].no in excluded))
      && (log[i].Append? ==>
            (items[i].excluded <==> LandsExcluded(log, i + 1, |Play(log[..i]).live|, excluded)))
  {
    hide Unsampled, ExcludedNos, Rebuild, SortByNo, Legal, Agrees;
    var s := Play(log);
    var excluded, flags := Excluded(s.live, rows), Fill(|s.live|, false);
    ChronologyInvertsRun(log, rows);
    RunShape(log);
    SortRecovers(rows, s.branches);
    if 0 in excluded { ExcludedNosAreNos(flags, s.branches, 0); }
    ExcludedNosAgree(flags, s.branches, {});
    assert excluded + {} == excluded;
    assert log[..|log|] == log;
    assert FlagsOf(Fated(s.live, log, |log|), excluded) == flags;
    if log[i].Fork? { ForksUnsampled(log, |log|, |log|, i, excluded); }
  }
}
