/** Every request is in one place, no group or share holds more slots than it may, and the best waiter goes first. */
module Admissions {
  import opened Transcript
  import opened Scheduler

  // ---------------------------------------------------------------------------
  // The choice of the next waiter
  // ---------------------------------------------------------------------------

  ghost predicate NoneEligible(health: map<string, Health>, g: Group, n: nat, now: real)
    requires n <= |g.queue|
  {
    forall j :: 0 <= j < n ==> !Eligible(health, g, g.queue[j], now)
  }

  /** Of a higher class, or of the same and registered earlier. */
  predicate Ahead(a: Entry, b: Entry) {
    b.rank < a.rank || (b.rank == a.rank && a.no < b.no)
  }

  ghost predicate DistinctNos(queue: seq<Entry>) {
    forall i, j :: 0 <= i < j < |queue| ==> queue[i].no != queue[j].no
  }

  /** The scan settles on the eligible waiter of the highest class that came first, and misses none. */
  lemma {:induction false} BestIsFirst(health: map<string, Health>, g: Group, n: nat, now: real)
    requires n <= |g.queue|
    ensures var best := Best(health, g, n, now);
      && (best.None? <==> NoneEligible(health, g, n, now))
      && (best.Some? ==> Eligible(health, g, g.queue[best.value], now))
      && (best.Some? && DistinctNos(g.queue) ==>
            forall j | 0 <= j < n && j != best.value && Eligible(health, g, g.queue[j], now) ::
              Ahead(g.queue[best.value], g.queue[j]))
  {
    if n > 0 { BestIsFirst(health, g, n - 1, now); }
  }

  /** When a pump ends the queue is empty, the group is full or backing off, or nothing left is eligible. */
  lemma {:induction false} PumpIsDone(s: State, g: nat, now: real)
    requires g < |s.groups|
    ensures var r := Pump(s, g, now);
      var group := r.groups[g];
      || group.queue == [] || group.active >= group.maxInFlight || group.backoffUntil > now
      || NoneEligible(r.health, group, |group.queue|, now)
    decreases |s.groups[g].queue|
  {
    var i := NextWaiter(s.health, s.groups[g], now);
    if i.Some? {
      PumpIsDone(Admit(s, g, i.value, now), g, now);
    } else {
      BestIsFirst(s.health, s.groups[g], |s.groups[g].queue|, now);
    }
  }

  // ---------------------------------------------------------------------------
  // The books of a group
  // ---------------------------------------------------------------------------

  /** The requests a group holds, waiting or admitted. */
  function GroupNos(g: Group): multiset<nat> {
    multiset(QueueNos(g.queue)) + multiset(ActiveNos(g.activeEntries))
  }

  function AllNos(groups: seq<Group>): multiset<nat> {
    if groups == [] then multiset{} else AllNos(groups[..|groups| - 1]) + GroupNos(groups[|groups| - 1])
  }

  function UpTo(n: nat): seq<nat> {
    if n == 0 then [] else UpTo(n - 1) + [n - 1]
  }

  function Books(s: State): multiset<nat> {
    AllNos(s.groups) + s.released + s.rejected
  }

  /** Every request registered so far is waiting, admitted, released or rejected: one of them, once. */
  ghost predicate Accounted(s: State) {
    Books(s) == multiset(UpTo(s.seqCounter))
  }

  /** What `Accounted` means for one request: it is in one of the four places, once. */
  lemma {:induction false} OnePlaceEach(n: nat, no: nat)
    ensures multiset(UpTo(n))[no] == if no < n then 1 else 0
  {
    if n > 0 { OnePlaceEach(n - 1, no); }
  }

  lemma {:induction false} GroupInBooks(groups: seq<Group>, k: nat)
    requires k < |groups|
    ensures GroupNos(groups[k]) <= AllNos(groups)
  {
    hide GroupNos;
    if k < |groups| - 1 { GroupInBooks(groups[..|groups| - 1], k); }
  }

  lemma CountedTwice(s: seq<nat>, i: nat, j: nat)
    requires i < j < |s| && s[i] == s[j]
    ensures multiset(s)[s[i]] >= 2
  {
    assert s == s[..j] + s[j..];
    assert s[..j][i] == s[i] && s[j..][0] == s[j];
    assert s[i] in multiset(s[..j]) && s[i] in multiset(s[j..]);
  }

  lemma WaitsOnce(s: State, k: nat, no: nat)
    requires Accounted(s) && k < |s.groups|
    ensures multiset(QueueNos(s.groups[k].queue))[no] <= 1
  {
    GroupInBooks(s.groups, k);
    OnePlaceEach(s.seqCounter, no);
    var group := s.groups[k];
    assert multiset(QueueNos(group.queue))[no] <= GroupNos(group)[no] <= AllNos(s.groups)[no] <= Books(s)[no];
  }

  /** While the books balance no two waiters of a group carry the same number. */
  lemma AccountedIsDistinct(s: State, k: nat)
    requires Accounted(s) && k < |s.groups|
    ensures DistinctNos(s.groups[k].queue)
  {
    var queue := s.groups[k].queue;
    forall i, j | 0 <= i < j < |queue| ensures queue[i].no != queue[j].no {
      WaitsOnce(s, k, queue[i].no);
      if queue[i].no == queue[j].no {
        CountedTwice(QueueNos(queue), i, j);
        assert false;
      }
    }
  }

  /** Slots and shares within their limits; `most` is the largest fraction asked for under each share name. */
  ghost predicate Within(g: Group, most: string -> real) {
    && g.active == |g.activeEntries|
    && g.active <= g.maxInFlight
    && (forall share: string :: Held(g.activeEntries, share) <= ShareCap(most(share), g.maxInFlight))
    && (forall i | 0 <= i < |g.queue| && g.queue[i].share.Some? ::
          g.queue[i].share.value.fraction <= most(g.queue[i].share.value.name))
  }

  ghost predicate AllWithin(groups: seq<Group>, most: string -> real) {
    forall k :: 0 <= k < |groups| ==> Within(groups[k], most)
  }

  // ---------------------------------------------------------------------------
  // Moving one request
  // ---------------------------------------------------------------------------

  lemma RemoveNo(s: seq<nat>, i: nat)
    requires i < |s|
    ensures multiset(s) == multiset(RemoveAt(s, i)) + multiset{s[i]}
  {
    assert s == s[..i] + [s[i]] + s[i + 1..];
  }

  lemma RemoveFromQueue(queue: seq<Entry>, i: nat)
    requires i < |queue|
    ensures multiset(QueueNos(queue)) == multiset(QueueNos(RemoveAt(queue, i))) + multiset{queue[i].no}
  {
    RemoveNo(QueueNos(queue), i);
    assert QueueNos(RemoveAt(queue, i)) == RemoveAt(QueueNos(queue), i);
  }

  lemma RemoveFromActive(active: seq<Active>, i: nat)
    requires i < |active|
    ensures multiset(ActiveNos(active)) == multiset(ActiveNos(RemoveAt(active, i))) + multiset{active[i].no}
  {
    RemoveNo(ActiveNos(active), i);
    assert ActiveNos(RemoveAt(active, i)) == RemoveAt(ActiveNos(active), i);
  }

  lemma {:induction false} HeldConcat(a: seq<Active>, b: seq<Active>, share: string)
    ensures Held(a + b, share) == Held(a, share) + Held(b, share)
  {
    if b == [] {
      assert a + b == a;
    } else {
      assert (a + b)[..|a + b| - 1] == a + b[..|b| - 1];
      HeldConcat(a, b[..|b| - 1], share);
    }
  }

  lemma HeldLess(active: seq<Active>, i: nat, share: string)
    requires i < |active|
    ensures Held(RemoveAt(active, i), share) <= Held(active, share)
  {
    HeldConcat(active[..i], active[i..], share);
    HeldConcat(active[..i], active[i + 1..], share);
    HeldConcat([active[i]], active[i + 1..], share);
    assert active == active[..i] + active[i..] && active[i..] == [active[i]] + active[i + 1..];
  }

  lemma SwapSum(a: multiset<nat>, b: multiset<nat>, c: multiset<nat>, d: multiset<nat>, e: multiset<nat>)
    requires a + b == c + d
    ensures (a + e) + b == (c + e) + d
  {
    forall n: nat ensures ((a + e) + b)[n] == ((c + e) + d)[n] {
      assert (a + b)[n] == (c + d)[n];
    }
  }

  /** Replacing one group changes the books by that group alone. */
  lemma {:induction false} ReplaceGroup(groups: seq<Group>, k: nat, g: Group)
    requires k < |groups|
    ensures AllNos(groups[k := g]) + GroupNos(groups[k]) == AllNos(groups) + GroupNos(g)
  {
    hide GroupNos;
    var n := |groups| - 1;
    var init, last := groups[..n], groups[n];
    if k < n {
      ReplaceGroup(init, k, g);
      assert groups[k := g][..n] == init[k := g];
      assert AllNos(groups[k := g]) == AllNos(init[k := g]) + GroupNos(last);
      SwapSum(AllNos(init[k := g]), GroupNos(groups[k]), AllNos(init), GroupNos(g), GroupNos(last));
    } else {
      assert groups[k := g][..n] == init;
      assert AllNos(groups[k := g]) == AllNos(init) + GroupNos(g);
    }
  }

  lemma ReplaceWithin(groups: seq<Group>, k: nat, g: Group, most: string -> real)
    requires k < |groups| && AllWithin(groups, most) && Within(g, most)
    ensures AllWithin(groups[k := g], most)
  {
  }

  // ---------------------------------------------------------------------------
  // Admitting
  // ---------------------------------------------------------------------------

  lemma {:induction false} AskedSomewhere(health: map<string, Health>, queue: seq<Entry>, share: string, now: real)
    ensures var asked := AskedFraction(health, queue, share, now);
      && (asked.Some? ==> exists i | 0 <= i < |queue| :: queue[i].share == Some(SlotShare(share, asked.value)))
      && (asked.None? ==> forall i :: 0 <= i < |queue| ==> !AsksFor(health, queue[i], share, now))
  {
    if queue != [] {
      var init := queue[..|queue| - 1];
      AskedSomewhere(health, init, share, now);
      var before := AskedFraction(health, init, share, now);
      if before.Some? {
        var i :| 0 <= i < |init| && init[i].share == Some(SlotShare(share, before.value));
        assert queue[i] == init[i];
      }
    }
  }

  lemma Scales(n: real, x: real, y: real)
    requires n >= 0.0 && x <= y
    ensures n * x <= n * y
  {
  }

  lemma FloorGrows(x: real, y: real)
    requires x <= y
    ensures x.Floor <= y.Floor
  {
  }

  lemma CapGrows(a: real, b: real, n: nat)
    requires a <= b
    ensures ShareCap(a, n) <= ShareCap(b, n)
  {
    var x, y := Least(1.0, Most(0.0, a)), Least(1.0, Most(0.0, b));
    Scales(n as real, x, y);
    FloorGrows(n as real * x, n as real * y);
  }

  /** An eligible waiter's share has a slot left. */
  lemma ShareHasRoom(health: map<string, Health>, g: Group, i: nat, now: real, most: string -> real)
    requires Within(g, most) && i < |g.queue| && Eligible(health, g, g.queue[i], now) && g.queue[i].share.Some?
    ensures var share := g.queue[i].share.value.name;
      Held(g.activeEntries, share) < ShareCap(most(share), g.maxInFlight)
  {
    var share := g.queue[i].share.value.name;
    AskedSomewhere(health, g.queue, share, now);
    assert AsksFor(health, g.queue[i], share, now);
    var asked := AskedFraction(health, g.queue, share, now);
    var j :| 0 <= j < |g.queue| && g.queue[j].share == Some(SlotShare(share, asked.value));
    assert g.queue[j].share.value.fraction <= most(share);
    CapGrows(asked.value, most(share), g.maxInFlight);
  }

  lemma RemoveKeepsAsked(g: Group, i: nat, most: string -> real)
    requires Within(g, most) && i < |g.queue|
    ensures Within(g.(queue := RemoveAt(g.queue, i)), most)
  {
    var rest := RemoveAt(g.queue, i);
    forall j | 0 <= j < |rest| && rest[j].share.Some?
      ensures rest[j].share.value.fraction <= most(rest[j].share.value.name)
    {
      assert rest[j] == g.queue[if j < i then j else j + 1];
    }
  }

  lemma SlotTaken(g: Group, a: Active, most: string -> real)
    requires Within(g, most) && g.active < g.maxInFlight
    requires a.share.Some? ==> Held(g.activeEntries, a.share.value) < ShareCap(most(a.share.value), g.maxInFlight)
    ensures Within(g.(active := g.active + 1, activeEntries := g.activeEntries + [a]), most)
  {
    forall share: string
      ensures Held(g.activeEntries + [a], share) <= ShareCap(most(share), g.maxInFlight)
    {
      HeldConcat(g.activeEntries, [a], share);
      assert Held([a], share) == if a.share == Some(share) then 1 else 0 by { assert [a][..0] == []; }
    }
  }

  lemma AdmitKeepsLimits(s: State, g: nat, i: nat, now: real, most: string -> real)
    requires g < |s.groups| && AllWithin(s.groups, most) && NextWaiter(s.health, s.groups[g], now) == Some(i)
    ensures AllWithin(Admit(s, g, i, now).groups, most)
  {
    var group, r := s.groups[g], Admit(s, g, i, now);
    var a := r.groups[g].activeEntries[|group.activeEntries|];
    BestIsFirst(s.health, group, |group.queue|, now);
    if group.queue[i].share.Some? { ShareHasRoom(s.health, group, i, now, most); }
    SlotTaken(group, a, most);
    RemoveKeepsAsked(group.(active := group.active + 1, activeEntries := group.activeEntries + [a]), i, most);
    ReplaceWithin(s.groups, g, r.groups[g], most);
  }

  lemma {:induction false} PumpKeepsLimits(s: State, g: nat, now: real, most: string -> real)
    requires g < |s.groups| && AllWithin(s.groups, most)
    ensures AllWithin(Pump(s, g, now).groups, most)
    decreases |s.groups[g].queue|
  {
    hide AllWithin;
    var i := NextWaiter(s.health, s.groups[g], now);
    if i.Some? {
      AdmitKeepsLimits(s, g, i.value, now, most);
      PumpKeepsLimits(Admit(s, g, i.value, now), g, now, most);
    }
  }

  lemma {:induction false} PumpFromKeepsLimits(s: State, k: nat, now: real, most: string -> real)
    requires k <= |s.groups| && AllWithin(s.groups, most)
    ensures AllWithin(PumpFrom(s, k, now).groups, most)
    decreases |s.groups| - k
  {
    hide AllWithin;
    if k < |s.groups| {
      PumpKeepsLimits(s, k, now, most);
      PumpFromKeepsLimits(Pump(s, k, now), k + 1, now, most);
    }
  }

  /** Changing one group's entries and the requests that left: the books balance if both sides do. */
  lemma BooksOf(s: State, r: State, k: nat)
    requires k < |s.groups| == |r.groups| && r.groups == s.groups[k := r.groups[k]]
    requires GroupNos(r.groups[k]) + (r.released + r.rejected) == GroupNos(s.groups[k]) + (s.released + s.rejected)
    ensures Books(r) == Books(s)
  {
    ReplaceGroup(s.groups, k, r.groups[k]);
    Balance(AllNos(r.groups), AllNos(s.groups), GroupNos(r.groups[k]), GroupNos(s.groups[k]),
            r.released + r.rejected, s.released + s.rejected);
    assert Books(r) == AllNos(r.groups) + (r.released + r.rejected);
    assert Books(s) == AllNos(s.groups) + (s.released + s.rejected);
  }

  lemma Balance(
    a: multiset<nat>, b: multiset<nat>, x: multiset<nat>, y: multiset<nat>, u: multiset<nat>, v: multiset<nat>)
    requires a + y == b + x && x + u == y + v
    ensures a + u == b + v
  {
    forall n: nat ensures (a + u)[n] == (b + v)[n] {
      assert (a + y)[n] == (b + x)[n] && (x + u)[n] == (y + v)[n];
    }
  }

  lemma AdmitKeepsBooks(s: State, g: nat, i: nat, now: real)
    requires g < |s.groups| && i < |s.groups[g].queue|
    ensures Books(Admit(s, g, i, now)) == Books(s)
  {
    var group, r := s.groups[g], Admit(s, g, i, now);
    var a := r.groups[g].activeEntries[|group.activeEntries|];
    RemoveFromQueue(group.queue, i);
    assert ActiveNos(group.activeEntries + [a]) == ActiveNos(group.activeEntries) + [a.no];
    assert GroupNos(r.groups[g]) == GroupNos(group);
    BooksOf(s, r, g);
  }

  lemma {:induction false} PumpKeepsBooks(s: State, g: nat, now: real)
    requires g < |s.groups|
    ensures Books(Pump(s, g, now)) == Books(s) && Pump(s, g, now).seqCounter == s.seqCounter
    decreases |s.groups[g].queue|
  {
    hide Books;
    var i := NextWaiter(s.health, s.groups[g], now);
    if i.Some? {
      AdmitKeepsBooks(s, g, i.value, now);
      PumpKeepsBooks(Admit(s, g, i.value, now), g, now);
    }
  }

  lemma {:induction false} PumpFromKeepsBooks(s: State, k: nat, now: real)
    requires k <= |s.groups|
    ensures Books(PumpFrom(s, k, now)) == Books(s) && PumpFrom(s, k, now).seqCounter == s.seqCounter
    decreases |s.groups| - k
  {
    hide Books;
    if k < |s.groups| {
      PumpKeepsBooks(s, k, now);
      PumpFromKeepsBooks(Pump(s, k, now), k + 1, now);
    }
  }

  // ---------------------------------------------------------------------------
  // The order of admissions
  // ---------------------------------------------------------------------------

  /** A slot was free, no backoff was on, and of the waiters eligible then the one ahead of all others took it. */
  ghost predicate InTurn(a: Admission) {
    var g := a.group;
    && a.waiter < |g.queue| && g.active < g.maxInFlight && g.backoffUntil <= a.now
    && Eligible(a.health, g, g.queue[a.waiter], a.now)
    && forall j | 0 <= j < |g.queue| && j != a.waiter && Eligible(a.health, g, g.queue[j], a.now) ::
         Ahead(g.queue[a.waiter], g.queue[j])
  }

  ghost predicate AllInTurn(admissions: seq<Admission>) {
    forall k :: 0 <= k < |admissions| ==> InTurn(admissions[k])
  }

  lemma AdmitInTurn(s: State, g: nat, i: nat, now: real)
    requires g < |s.groups| && NextWaiter(s.health, s.groups[g], now) == Some(i)
    requires Accounted(s) && AllInTurn(s.admissions)
    ensures AllInTurn(Admit(s, g, i, now).admissions)
  {
    hide Eligible;
    BestIsFirst(s.health, s.groups[g], |s.groups[g].queue|, now);
    AccountedIsDistinct(s, g);
    assert InTurn(Admission(s.health, s.groups[g], i, now));
  }

  lemma {:induction false} PumpInTurn(s: State, g: nat, now: real)
    requires g < |s.groups| && Accounted(s) && AllInTurn(s.admissions)
    ensures AllInTurn(Pump(s, g, now).admissions)
    decreases |s.groups[g].queue|
  {
    hide AllInTurn, Books;
    var i := NextWaiter(s.health, s.groups[g], now);
    if i.Some? {
      AdmitInTurn(s, g, i.value, now);
      AdmitKeepsBooks(s, g, i.value, now);
      PumpInTurn(Admit(s, g, i.value, now), g, now);
    }
  }

  lemma {:induction false} PumpFromInTurn(s: State, k: nat, now: real)
    requires k <= |s.groups| && Accounted(s) && AllInTurn(s.admissions)
    ensures AllInTurn(PumpFrom(s, k, now).admissions)
    decreases |s.groups| - k
  {
    hide AllInTurn, Books;
    if k < |s.groups| {
      PumpInTurn(s, k, now);
      PumpKeepsBooks(s, k, now);
      PumpFromInTurn(Pump(s, k, now), k + 1, now);
    }
  }

  // ---------------------------------------------------------------------------
  // Every step
  // ---------------------------------------------------------------------------

  ghost predicate InOrder(s: State, most: string -> real) {
    Accounted(s) && AllWithin(s.groups, most) && AllInTurn(s.admissions)
  }

  /** Nothing about the requests differs. */
  ghost predicate SameRequests(s: State, r: State) {
    && r.groups == s.groups && r.released == s.released && r.rejected == s.rejected && r.seqCounter == s.seqCounter
    && r.admissions == s.admissions
  }

  lemma PumpInOrder(s: State, g: nat, now: real, most: string -> real)
    requires g < |s.groups| && InOrder(s, most)
    ensures InOrder(Pump(s, g, now), most)
  {
    PumpKeepsBooks(s, g, now);
    PumpKeepsLimits(s, g, now, most);
    PumpInTurn(s, g, now);
  }

  lemma WithGroupBooks(s: State, name: string)
    ensures Books(WithGroup(s, name)) == Books(s)
  {
    var r := WithGroup(s, name);
    if GroupIndex(s.groups, name).None? {
      assert r.groups[..|s.groups|] == s.groups;
      assert GroupNos(FreshGroup(name)) == multiset{};
    }
  }

  lemma FreshWithin(name: string, most: string -> real)
    ensures Within(FreshGroup(name), most)
  {
  }

  lemma WithGroupInOrder(s: State, name: string, most: string -> real)
    requires InOrder(s, most)
    ensures InOrder(WithGroup(s, name), most)
  {
    hide Books, Within;
    WithGroupBooks(s, name);
    FreshWithin(name, most);
  }

  lemma EnqueueBooks(s: State, g: nat, e: Entry)
    requires g < |s.groups|
    ensures Books(Enqueue(s, g, e)) == Books(s) + multiset{e.no}
  {
    var r, group := Enqueue(s, g, e), s.groups[g];
    assert QueueNos(group.queue + [e]) == QueueNos(group.queue) + [e.no];
    assert GroupNos(r.groups[g]) == GroupNos(group) + multiset{e.no};
    ReplaceGroup(s.groups, g, r.groups[g]);
    Grown(AllNos(r.groups), AllNos(s.groups), GroupNos(group), e.no);
  }

  lemma EnqueueWithin(g: Group, e: Entry, most: string -> real)
    requires Within(g, most) && (e.share.Some? ==> e.share.value.fraction <= most(e.share.value.name))
    ensures Within(g.(queue := g.queue + [e]), most)
  {
  }

  lemma EnqueueInOrder(s: State, g: nat, e: Entry, most: string -> real)
    requires g < |s.groups| && InOrder(s, most) && e.no == s.seqCounter
    requires e.share.Some? ==> e.share.value.fraction <= most(e.share.value.name)
    ensures InOrder(Enqueue(s, g, e), most)
  {
    var r := Enqueue(s, g, e);
    EnqueueWithin(s.groups[g], e, most);
    ReplaceWithin(s.groups, g, r.groups[g], most);
    EnqueueBooks(s, g, e);
    assert multiset(UpTo(r.seqCounter)) == multiset(UpTo(s.seqCounter)) + multiset{e.no};
  }

  lemma Grown(a: multiset<nat>, b: multiset<nat>, x: multiset<nat>, no: nat)
    requires a + x == b + (x + multiset{no})
    ensures a == b + multiset{no}
  {
    forall n: nat ensures a[n] == (b + multiset{no})[n] {
      assert (a + x)[n] == (b + (x + multiset{no}))[n];
    }
  }

  lemma AcquireInOrder(s: State, q: Request, now: real, most: string -> real)
    requires InOrder(s, most) && (q.share.Some? ==> q.share.value.fraction <= most(q.share.value.name))
    ensures InOrder(Acquire(s, q, now), most)
  {
    WithGroupInOrder(s, q.group, most);
    var t := WithGroup(s, q.group);
    var u := if Keyed(q.modelKey) && q.probeMax.Some?
             then t.(probeMaxOverrides := t.probeMaxOverrides[q.modelKey.value := q.probeMax.value])
             else t;
    assert SameRequests(t, u);
    if !u.stopped && !q.aborted {
      EnqueueInOrder(u, GroupOf(s, q.group), EntryFor(s, q), most);
      PumpInOrder(Enqueue(u, GroupOf(s, q.group), EntryFor(s, q)), GroupOf(s, q.group), now, most);
    }
  }

  lemma AbortInOrder(s: State, g: nat, no: nat, most: string -> real)
    requires g < |s.groups| && InOrder(s, most)
    ensures InOrder(AbortWaiter(s, g, no), most)
  {
    var i := IndexOf(QueueNos(s.groups[g].queue), no);
    if i.Some? {
      var r := AbortWaiter(s, g, no);
      RemoveKeepsAsked(s.groups[g], i.value, most);
      ReplaceWithin(s.groups, g, r.groups[g], most);
      RemoveFromQueue(s.groups[g].queue, i.value);
      BooksOf(s, r, g);
    }
  }

  lemma FreeSlotInOrder(s: State, g: nat, i: nat, most: string -> real)
    requires g < |s.groups| && i < |s.groups[g].activeEntries| && InOrder(s, most)
    ensures InOrder(FreeSlot(s, g, i), most)
  {
    var r, group := FreeSlot(s, g, i), s.groups[g];
    forall share: string
      ensures Held(r.groups[g].activeEntries, share) <= ShareCap(most(share), group.maxInFlight)
    {
      HeldLess(group.activeEntries, i, share);
    }
    ReplaceWithin(s.groups, g, r.groups[g], most);
    RemoveFromActive(group.activeEntries, i);
    BooksOf(s, r, g);
  }

  lemma SameInOrder(s: State, r: State, most: string -> real)
    requires InOrder(s, most) && SameRequests(s, r)
    ensures InOrder(r, most)
  {
  }

  lemma ReleaseInOrder(s: State, g: nat, no: nat, now: real, most: string -> real)
    requires g < |s.groups| && InOrder(s, most)
    ensures InOrder(Release(s, g, no, now), most)
  {
    hide InOrder;
    var i := IndexOf(ActiveNos(s.groups[g].activeEntries), no);
    if i.Some? {
      var a := s.groups[g].activeEntries[i.value];
      var t := FreeSlot(s, g, i.value);
      FreeSlotInOrder(s, g, i.value, most);
      var u := if a.probe && Keyed(a.modelKey) then SettleStaleProbe(t, a.modelKey.value, now) else t;
      SameInOrder(t, u, most);
      PumpInOrder(u, g, now, most);
    }
  }

  lemma RaisedInOrder(s: State, k: nat, key: string, rank: nat, most: string -> real)
    requires k < |s.groups| && InOrder(s, most)
    ensures InOrder(s.(groups := s.groups[k := s.groups[k].(queue := Raised(s.groups[k].queue, key, rank))]), most)
  {
    var group := s.groups[k];
    var raised := Raised(group.queue, key, rank);
    var r := s.(groups := s.groups[k := group.(queue := raised)]);
    assert forall i | 0 <= i < |raised| :: raised[i].share == group.queue[i].share;
    ReplaceWithin(s.groups, k, r.groups[k], most);
    assert QueueNos(raised) == QueueNos(group.queue);
    BooksOf(s, r, k);
  }

  lemma {:induction false} EscalateInOrder(s: State, k: nat, key: string, rank: nat, now: real, most: string -> real)
    requires k <= |s.groups| && InOrder(s, most)
    ensures InOrder(EscalateFrom(s, k, key, rank, now), most)
    decreases |s.groups| - k
  {
    hide InOrder;
    if k < |s.groups| {
      var raised := Raised(s.groups[k].queue, key, rank);
      if raised == s.groups[k].queue {
        EscalateInOrder(s, k + 1, key, rank, now, most);
      } else {
        var t := s.(groups := s.groups[k := s.groups[k].(queue := raised)]);
        RaisedInOrder(s, k, key, rank, most);
        PumpInOrder(t, k, now, most);
        EscalateInOrder(Pump(t, k, now), k + 1, key, rank, now, most);
      }
    }
  }

  lemma DrainOne(s: State, k: nat, most: string -> real)
    requires k < |s.groups| && InOrder(s, most)
    ensures InOrder(s.(groups := s.groups[k := s.groups[k].(queue := [])],
                       rejected := s.rejected + multiset(QueueNos(s.groups[k].queue))), most)
  {
    var r := s.(groups := s.groups[k := s.groups[k].(queue := [])],
                rejected := s.rejected + multiset(QueueNos(s.groups[k].queue)));
    ReplaceWithin(s.groups, k, r.groups[k], most);
    assert QueueNos([]) == [];
    BooksOf(s, r, k);
  }

  lemma {:induction false} DrainInOrder(s: State, k: nat, most: string -> real)
    requires k <= |s.groups| && InOrder(s, most)
    ensures InOrder(DrainFrom(s, k), most)
    decreases |s.groups| - k
  {
    hide InOrder;
    if k < |s.groups| {
      DrainOne(s, k, most);
      DrainInOrder(s.(groups := s.groups[k := s.groups[k].(queue := [])],
                      rejected := s.rejected + multiset(QueueNos(s.groups[k].queue))), k + 1, most);
    }
  }

  /** An outcome that is not a recovery touches no request. */
  lemma NoRecoveryNoRequests(
    cfg: Tuning, s: State, key: string, cls: Option<FailureClass>, status: Option<nat>, now: real)
    requires cls.None? ==> key !in s.health || !s.health[key].unhealthy
    ensures SameRequests(s, NoteModelOutcome(cfg, s, key, cls, status, now))
  {
    hide NoteModelOutcome;
    OutcomeHealthOnly(cfg, s, key, cls, status, now);
  }

  lemma RecoverInOrder(cfg: Tuning, s: State, key: string, now: real, most: string -> real)
    requires InOrder(s, most) && key in s.health && s.health[key].unhealthy
    ensures InOrder(Recover(cfg, s, key, now), most)
  {
    var h := s.health[key].(failures := 0, probeInFlight := false);
    var t := SetHealth(s, key, h.(unhealthy := false, nextProbeAt := 0.0, probeDelay := cfg.probeBase));
    SameInOrder(s, t, most);
    PumpFromKeepsBooks(t, 0, now);
    PumpFromKeepsLimits(t, 0, now, most);
    PumpFromInTurn(t, 0, now);
  }

  lemma NoteModelInOrder(
    cfg: Tuning, s: State, key: string, cls: Option<FailureClass>, status: Option<nat>, now: real, most: string -> real)
    requires InOrder(s, most)
    ensures InOrder(NoteModelOutcome(cfg, s, key, cls, status, now), most)
  {
    if cls.None? && key in s.health && s.health[key].unhealthy {
      RecoverInOrder(cfg, s, key, now, most);
    } else {
      NoRecoveryNoRequests(cfg, s, key, cls, status, now);
      SameInOrder(s, NoteModelOutcome(cfg, s, key, cls, status, now), most);
    }
  }

  lemma NoteOutcomeInOrder(cfg: Tuning, s: State, r: Report, now: real, most: string -> real)
    requires InOrder(s, most)
    ensures InOrder(NoteOutcome(cfg, s, r, now), most)
  {
    WithGroupInOrder(s, r.group, most);
    var t, g := WithGroup(s, r.group), GroupOf(s, r.group);
    var group := if r.status == Some(429) || r.status == Some(503)
                 then Throttled(t.groups[g], r.retryAfter, r.jitter, now)
                 else t.groups[g].(throttles := 0);
    var u := t.(groups := t.groups[g := group]);
    ReplaceWithin(t.groups, g, group, most);
    BooksOf(t, u, g);
    if r.modelKey.Some? {
      NoteModelInOrder(cfg, u, r.modelKey.value, r.cls, r.status, now, most);
    }
  }

  /** A step that asks under a share asks for no more than `most` of it. */
  ghost predicate Asks(t: Timed, most: string -> real) {
    t.step.Ask? && t.step.q.share.Some? ==> t.step.q.share.value.fraction <= most(t.step.q.share.value.name)
  }

  lemma RaiseInOrder(s: State, key: string, rank: nat, now: real, most: string -> real)
    requires InOrder(s, most)
    ensures InOrder(Escalate(s, key, rank, now), most)
  {
    var pinned := if key in s.sticky && s.sticky[key] >= rank then s.sticky[key] else rank;
    var u := s.(sticky := s.sticky[key := pinned]);
    SameInOrder(s, u, most);
    EscalateInOrder(u, 0, key, pinned, now, most);
  }

  lemma ProbeEndInOrder(
    cfg: Tuning, s: State, key: string, ok: bool, status: Option<nat>, now: real, most: string -> real)
    requires InOrder(s, most)
    ensures InOrder(ProbeSettles(cfg, s, key, ok, status, now), most)
  {
    var u := s.(probing := s.probing - multiset{key});
    SameInOrder(s, u, most);
    NoteModelInOrder(cfg, u, key, None, None, now, most);
    NoteModelInOrder(cfg, u, key, Some(Environmental), status, now, most);
  }

  lemma StopInOrder(s: State, most: string -> real)
    requires InOrder(s, most)
    ensures InOrder(Stop(s), most)
  {
    var u := s.(stopped := true, probeTimers := {});
    SameInOrder(s, u, most);
    DrainInOrder(u, 0, most);
  }

  /** Timers, probers and pins touch no request. */
  lemma TouchNoRequest(s: State, key: string, now: real)
    ensures SameRequests(s, RegisterProber(s, key))
    ensures SameRequests(s, ProbeTimerFires(s, key, now))
    ensures SameRequests(s, ClearEscalation(s, key))
  {
  }

  lemma ProbersInOrder(s: State, key: string, now: real, most: string -> real)
    requires InOrder(s, most)
    ensures InOrder(RegisterProber(s, key), most)
    ensures InOrder(ProbeTimerFires(s, key, now), most)
    ensures InOrder(ClearEscalation(s, key), most)
  {
    TouchNoRequest(s, key, now);
    SameInOrder(s, RegisterProber(s, key), most);
    SameInOrder(s, ProbeTimerFires(s, key, now), most);
    SameInOrder(s, ClearEscalation(s, key), most);
  }

  /** Every step keeps the books and the limits. */
  lemma TakeInOrder(cfg: Tuning, s: State, t: Timed, most: string -> real)
    requires InOrder(s, most) && Asks(t, most)
    ensures InOrder(Take(cfg, s, t), most)
  {
    hide InOrder;
    match t.step
    case Ask(q) => AcquireInOrder(s, q, t.now, most);
    case Abort(g, n) => if g < |s.groups| { AbortInOrder(s, g, n, most); }
    case GiveBack(g, n) => if g < |s.groups| { ReleaseInOrder(s, g, n, t.now, most); }
    case Raise(key, rank) => RaiseInOrder(s, key, rank, t.now, most);
    case ClearRaise(key) => ProbersInOrder(s, key, t.now, most);
    case Settled(r) => NoteOutcomeInOrder(cfg, s, r, t.now, most);
    case AddProber(key) => ProbersInOrder(s, key, t.now, most);
    case ProbeTimer(key) => ProbersInOrder(s, key, t.now, most);
    case ProbeEnd(key, ok, status) => ProbeEndInOrder(cfg, s, key, ok, status, t.now, most);
    case PumpTimer(g) => if g < |s.groups| { PumpInOrder(s, g, t.now, most); }
    case Shutdown => StopInOrder(s, most);
  }

  /** Groups as they are configured: nothing admitted, nothing waiting. */
  ghost predicate Unused(groups: seq<Group>) {
    forall k :: 0 <= k < |groups| ==> groups[k].active == 0 && groups[k].activeEntries == [] && groups[k].queue == []
  }

  lemma {:induction false} UnusedHoldNothing(groups: seq<Group>)
    requires Unused(groups)
    ensures AllNos(groups) == multiset{}
  {
    if groups != [] {
      UnusedHoldNothing(groups[..|groups| - 1]);
      assert GroupNos(groups[|groups| - 1]) == multiset{};
    }
  }

  /**
   * Over every run of a scheduler each registered request is in exactly one place (waiting, admitted,
   * released or rejected), the active count is the number of admitted requests and never passes
   * `max_in_flight`, the requests of a share never hold more than its cap, at the largest fraction
   * asked for under its name, and every admission was in turn.
   */
  lemma {:induction false} RunsStayInOrder(cfg: Tuning, groups: seq<Group>, steps: seq<Timed>, most: string -> real)
    requires Unused(groups) && forall k | 0 <= k < |steps| :: Asks(steps[k], most)
    ensures InOrder(After(cfg, Fresh(groups), steps), most)
  {
    if steps == [] {
      UnusedHoldNothing(groups);
      assert multiset(UpTo(0)) == multiset{};
    } else {
      RunsStayInOrder(cfg, groups, steps[..|steps| - 1], most);
      TakeInOrder(cfg, After(cfg, Fresh(groups), steps[..|steps| - 1]), steps[|steps| - 1], most);
    }
  }

  /** The largest fraction the steps ask for under a share name. */
  function MostAsked(steps: seq<Timed>, share: string): real {
    if steps == [] then 0.0 else
      var most, step := MostAsked(steps[..|steps| - 1], share), steps[|steps| - 1].step;
      if step.Ask? && step.q.share.Some? && step.q.share.value.name == share
      then Most(most, step.q.share.value.fraction)
      else most
  }

  lemma {:induction false} AskedAtMost(steps: seq<Timed>, k: nat)
    requires k < |steps|
    ensures Asks(steps[k], share => MostAsked(steps, share))
  {
    var init := steps[..|steps| - 1];
    if k < |init| { AskedAtMost(init, k); }
  }

  /**
   * Every admission of every run, whatever step pumped the group, went to the waiter of the highest class that
   * registered first among all that could have been admitted at that moment.
   */
  lemma AdmissionsInTurn(cfg: Tuning, groups: seq<Group>, steps: seq<Timed>)
    requires Unused(groups)
    ensures AllInTurn(After(cfg, Fresh(groups), steps).admissions)
  {
    forall k | 0 <= k < |steps| ensures Asks(steps[k], share => MostAsked(steps, share)) {
      AskedAtMost(steps, k);
    }
    RunsStayInOrder(cfg, groups, steps, share => MostAsked(steps, share));
  }

  lemma CeilingIsPositive(g: Group)
    requires g.backoffBase >= 0.0 && g.backoffMax >= 0.0
    ensures BackoffCeiling(g) >= 0.0
  {
    Scales(g.backoffBase, 0.0, Pow2(g.throttles));
  }

  lemma WaitIsWithin(ceiling: real, jitter: real)
    requires ceiling >= 0.0 && 0.0 <= jitter <= 1.0
    ensures ceiling / 2.0 <= JitteredWait(ceiling, jitter) <= ceiling
  {
    var half := ceiling / 2.0;
    Scales(half, 0.0, jitter);
    Scales(half, jitter, 1.0);
    assert jitter * half == half * jitter;
  }

  /**
   * A throttle without a server-given wait pauses the group for at least half the exponential ceiling and at most
   * all of it, and no pump admits anyone until then.
   */
  lemma ThrottlePauses(s: State, g: nat, jitter: real, now: real, later: real)
    requires g < |s.groups| && 0.0 <= jitter <= 1.0
    requires s.groups[g].backoffBase >= 0.0 && s.groups[g].backoffMax >= 0.0
    ensures var group := s.groups[g];
      var r := s.(groups := s.groups[g := Throttled(group, None, jitter, now)]);
      && now + BackoffCeiling(group) / 2.0 <= r.groups[g].backoffUntil
      && r.groups[g].backoffUntil <= Most(group.backoffUntil, now + BackoffCeiling(group))
      && (later < r.groups[g].backoffUntil ==> Pump(r, g, later) == r)
  {
    hide BackoffCeiling, JitteredWait, Best;
    CeilingIsPositive(s.groups[g]);
    WaitIsWithin(BackoffCeiling(s.groups[g]), jitter);
  }

  /**
   * A throttle with a server-given wait pauses the group for all of it exactly when the wait is within the group's
   * longest, or an earlier pause outlasts it; it never adds more than the longest, and no pump admits anyone until
   * then.
   */
  lemma RetryAfterPauses(s: State, g: nat, wait: real, jitter: real, now: real, later: real)
    requires g < |s.groups|
    ensures var group := s.groups[g];
      var r := s.(groups := s.groups[g := Throttled(group, Some(wait), jitter, now)]);
      && (now + wait <= r.groups[g].backoffUntil <==> wait <= group.backoffMax || now + wait <= group.backoffUntil)
      && group.backoffUntil <= r.groups[g].backoffUntil <= Most(group.backoffUntil, now + group.backoffMax)
      && (later < r.groups[g].backoffUntil ==> Pump(r, g, later) == r)
  {
    hide JitteredWait, Best;
  }

  /** A group after outcomes in a row: each draw is the jitter of a throttle, `None` another outcome. */
  function Throttles(g: Group, draws: seq<Option<real>>, now: real): Group {
    if draws == [] then g else
      var before := Throttles(g, draws[..|draws| - 1], now);
      if draws[|draws| - 1].Some? then Throttled(before, None, draws[|draws| - 1].value, now)
      else before.(throttles := 0)
  }

  /** The throttles since the last other outcome. */
  function InARow(draws: seq<Option<real>>): nat {
    if draws == [] || draws[|draws| - 1].None? then 0 else InARow(draws[..|draws| - 1]) + 1
  }

  /** The longest wait of the next throttle doubles with every throttle in a row, up to the group's longest. */
  lemma {:induction false} CeilingDoubles(g: Group, draws: seq<Option<real>>, now: real)
    requires g.throttles == 0
    ensures BackoffCeiling(Throttles(g, draws, now)) == Least(g.backoffMax, g.backoffBase * Pow2(InARow(draws)))
  {
    CountsThrottles(g, draws, now);
  }

  lemma {:induction false} CountsThrottles(g: Group, draws: seq<Option<real>>, now: real)
    requires g.throttles == 0
    ensures var r := Throttles(g, draws, now);
      r.throttles == InARow(draws) && r.backoffMax == g.backoffMax && r.backoffBase == g.backoffBase
  {
    if draws != [] { CountsThrottles(g, draws[..|draws| - 1], now); }
  }

  /** A share's cap is the whole part of its fraction of the slots, the fraction kept from 0 to 1, and at least one. */
  lemma ShareCapMeans(fraction: real, maxInFlight: nat)
    ensures var cap := ShareCap(fraction, maxInFlight);
      && (cap == 1 || cap <= maxInFlight)
      && (0.0 <= fraction <= 1.0 && cap > 1 ==> cap as real <= fraction * maxInFlight as real)
      && (0.0 <= fraction <= 1.0 ==> fraction * maxInFlight as real < (cap + 1) as real)
      && (fraction >= 1.0 && maxInFlight > 0 ==> cap == maxInFlight)
      && (fraction <= 0.0 ==> cap == 1)
  {
    var f := Least(1.0, Most(0.0, fraction));
    Scales(maxInFlight as real, f, 1.0);
    FloorGrows(maxInFlight as real * f, maxInFlight as real);
    assert fraction * maxInFlight as real == maxInFlight as real * fraction;
    if fraction <= 0.0 { assert maxInFlight as real * 0.0 == 0.0; }
  }
}
