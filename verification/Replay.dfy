/** The replay store: a repeated call of a redone session is answered from its latest execution, once per lineage. */
module Replay {
  import opened Transcript
  import CallKey

  /** A tool call of the transcript, as replay keys see it: with the text of its name, and its arguments. */
  datatype Call = Call(id: string, name: CallKey.Text, args: Option<CallKey.Json>)

  /** The calls of one message; none but an assistant message has any. */
  type Calling = seq<Call>

  function KeyOfCall(c: Call): CallKey.Text {
    CallKey.KeyOf(c.name, c.args)
  }

  /** The calls of a list with the key, one aside. */
  function CountIn(calls: seq<Call>, key: CallKey.Text, except: Option<string>): nat {
    if calls == [] then 0 else
      var c := calls[|calls| - 1];
      CountIn(calls[..|calls| - 1], key, except)
      + (if except != Some(c.id) && KeyOfCall(c) == key then 1 else 0)
  }

  function LineageCount(live: seq<Calling>, key: CallKey.Text, except: Option<string>): nat {
    if live == [] then 0
    else LineageCount(live[..|live| - 1], key, except) + CountIn(live[|live| - 1], key, except)
  }

  method CountCalls(calls: seq<Call>, key: CallKey.Text, except: Option<string>) returns (count: nat)
    ensures count == CountIn(calls, key, except)
  {
    hide KeyOfCall;
    count := 0;
    var k := 0;
    while k < |calls|
      invariant k <= |calls| && count == CountIn(calls[..k], key, except)
    {
      assert calls[..k + 1][..k] == calls[..k];
      if except != Some(calls[k].id) && KeyOfCall(calls[k]) == key {
        count := count + 1;
      }
      k := k + 1;
    }
    assert calls[..k] == calls;
  }

  method LineageCallCount(live: seq<Calling>, key: CallKey.Text, except: Option<string>) returns (count: nat)
    ensures count == LineageCount(live, key, except)
  {
    hide CountIn, KeyOfCall;
    count := 0;
    var i := 0;
    while i < |live|
      invariant i <= |live| && count == LineageCount(live[..i], key, except)
    {
      assert live[..i + 1][..i] == live[..i];
      var here := CountCalls(live[i], key, except);
      count := count + here;
      i := i + 1;
    }
    assert live[..i] == live;
  }

  /** The arguments of the first call with the id. */
  function ArgsIn(calls: seq<Call>, id: string): Option<Option<CallKey.Json>> {
    if calls == [] then None else if calls[0].id == id then Some(calls[0].args) else ArgsIn(calls[1..], id)
  }

  /** The arguments the transcript holds for the call, the last message that has it first. */
  function StoredArgs(live: seq<Calling>, id: string): Option<Option<CallKey.Json>> {
    if live == [] then None else
      var here := ArgsIn(live[|live| - 1], id);
      if here.Some? then here else StoredArgs(live[..|live| - 1], id)
  }

  method TranscriptArguments(live: seq<Calling>, id: string) returns (stored: Option<Option<CallKey.Json>>)
    ensures stored == StoredArgs(live, id)
  {
    var i := |live|;
    assert live[..i] == live;
    while i > 0
      invariant i <= |live| && StoredArgs(live[..i], id) == StoredArgs(live, id)
    {
      assert live[..i][..i - 1] == live[..i - 1];
      var here := ArgsIn(live[i - 1], id);
      if here.Some? {
        return here;
      }
      i := i - 1;
    }
    return None;
  }

  // ---------------------------------------------------------------------------
  // The store
  // ---------------------------------------------------------------------------

  /** What a tool call came back with. */
  datatype Result = Result(content: string, isError: bool)

  datatype Entry = Entry(result: Result, at: int)

  predicate Expired(e: Entry, maxAge: nat, now: int) {
    now - e.at > maxAge
  }

  class ReplayStore {
    const maxAge: nat
    var entries: map<CallKey.Text, Entry>

    constructor (maxAge: nat)
      ensures this.maxAge == maxAge && entries == map[]
    {
      this.maxAge := maxAge;
      entries := map[];
    }

    /** The stored result; an entry past its age is dropped. */
    method Get(key: CallKey.Text, now: int) returns (r: Option<Result>)
      modifies this
      ensures r.Some? <==> key in old(entries) && !Expired(old(entries)[key], maxAge, now)
      ensures r.Some? ==> r.value == old(entries)[key].result && entries == old(entries)
      ensures r.None? ==> entries == old(entries) - {key}
    {
      if key !in entries {
        assert entries - {key} == entries;
        return None;
      }
      if Expired(entries[key], maxAge, now) {
        entries := entries - {key};
        return None;
      }
      return Some(entries[key].result);
    }

    method Put(key: CallKey.Text, result: Result, now: int)
      modifies this
      ensures entries == old(entries)[key := Entry(result, now)]
    {
      entries := entries[key := Entry(result, now)];
    }
  }

  // ---------------------------------------------------------------------------
  // A session's tool calls
  // ---------------------------------------------------------------------------

  function Units(s: string): CallKey.Text {
    seq(|s|, i requires 0 <= i < |s| => if s[i] as int < 0x1_0000 then s[i] as int else 0)
  }

  /** Tools whose result alone does not restore what their call did. */
  function NeverReplayed(): set<CallKey.Text> {
    {Units("load_skill"), Units("tool_search"), Units("no_reply"), Units("browser"), Units("session_record_tool")}
  }

  predicate Replayable(name: CallKey.Text, effect: Effect) {
    name !in NeverReplayed() && (effect.RedoSafe? || effect.Repeatable?)
  }

  /** `Through`: executed outside the store. */
  datatype Start = Through | FromStore(result: Result) | Execute(key: CallKey.Text)

  datatype Outcome = Threw | Came(result: Result)

  /** A successful execution. */
  datatype Execution = Execution(key: CallKey.Text, result: Result, at: int)

  datatype State = State(
    live: seq<Calling>,
    entries: map<CallKey.Text, Entry>,
    served: set<string>,  // the calls answered from the store
    log: seq<Execution>,
    clock: int)

  function ExecutedKey(s: State, id: string, name: CallKey.Text, params: Option<CallKey.Json>): CallKey.Text {
    var stored := StoredArgs(s.live, id);
    CallKey.KeyOf(name, if stored.Some? then stored.value else params)
  }

  /** A call may be served: nothing else on the live lineage has its key. */
  predicate Alone(s: State, key: CallKey.Text, id: string) {
    LineageCount(s.live, key, Some(id)) == 0
  }

  predicate Fresh(s: State, maxAge: nat, key: CallKey.Text, now: int) {
    key in s.entries && !Expired(s.entries[key], maxAge, now)
  }

  function Begin(
    s: State, maxAge: nat, id: string, name: CallKey.Text, params: Option<CallKey.Json>, effect: Effect, now: int)
    : Start
  {
    var key := ExecutedKey(s, id, name, params);
    if !Replayable(name, effect) then Through
    else if Alone(s, key, id) && Fresh(s, maxAge, key, now) then FromStore(s.entries[key].result)
    else Execute(key)
  }

  /** What a start does to the session: a served call is noted, and a stale entry that was asked for is dropped. */
  function Begun(
    s: State, maxAge: nat, id: string, name: CallKey.Text, params: Option<CallKey.Json>, effect: Effect, now: int)
    : State
  {
    var key := ExecutedKey(s, id, name, params);
    var t := s.(clock := now);
    match Begin(s, maxAge, id, name, params, effect, now)
    case Through => t
    case FromStore(_) => t.(served := s.served + {id})
    case Execute(_) => if Alone(s, key, id) then t.(entries := s.entries - {key}) else t
  }

  function Ended(s: State, key: CallKey.Text, outcome: Outcome, now: int): State {
    if outcome.Threw? || outcome.result.isError then s.(clock := now)
    else s.(entries := s.entries[key := Entry(outcome.result, now)],
            log := s.log + [Execution(key, outcome.result, now)],
            clock := now)
  }

  /** The wrapped tools of a session. */
  class ReplayTools {
    const store: ReplayStore
    ghost var served: set<string>
    ghost var log: seq<Execution>
    ghost var clock: int

    constructor (maxAge: nat)
      ensures fresh(store) && store.maxAge == maxAge && store.entries == map[] && served == {} && log == []
    {
      store := new ReplayStore(maxAge);
      served, log, clock := {}, [], 0;
    }

    ghost function Now(live: seq<Calling>): State
      reads this, store
    {
      State(live, store.entries, served, log, clock)
    }

    /** The wrapped `execute`, up to the call of the tool itself. */
    method Start(
      live: seq<Calling>, id: string, name: CallKey.Text, params: Option<CallKey.Json>, effect: Effect, now: int)
      returns (start: Start)
      modifies this, store
      ensures start == Begin(old(Now(live)), store.maxAge, id, name, params, effect, now)
      ensures Now(live) == Begun(old(Now(live)), store.maxAge, id, name, params, effect, now)
    {
      clock := now;
      if name in NeverReplayed() || !(effect.RedoSafe? || effect.Repeatable?) {
        return Through;
      }
      var stored := TranscriptArguments(live, id);
      var key := CallKey.KeyOf(name, if stored.Some? then stored.value else params);
      var others := LineageCallCount(live, key, Some(id));
      if others == 0 {
        var cached := store.Get(key, now);
        if cached.Some? {
          served := served + {id};
          return FromStore(cached.value);
        }
      }
      return Execute(key);
    }

    /** The rest of it: a result that is no error is stored. */
    method Finish(live: seq<Calling>, key: CallKey.Text, outcome: Outcome, now: int)
      modifies this, store
      ensures Now(live) == Ended(old(Now(live)), key, outcome, now)
    {
      clock := now;
      if outcome.Came? && !outcome.result.isError {
        store.Put(key, outcome.result, now);
        log := log + [Execution(key, outcome.result, now)];
      }
    }
  }

  // ---------------------------------------------------------------------------
  // At most once per lineage
  // ---------------------------------------------------------------------------

  ghost predicate InLive(live: seq<Calling>, c: Call) {
    exists i :: 0 <= i < |live| && c in live[i]
  }

  ghost predicate UniqueIds(live: seq<Calling>) {
    forall i, a, j, b |
      0 <= i < |live| && 0 <= a < |live[i]| && 0 <= j < |live| && 0 <= b < |live[j]|
      && live[i][a].id == live[j][b].id :: i == j && a == b
  }

  /** No two calls of the live list with the same key were served. */
  ghost predicate ServedOnce(s: State) {
    forall c, d | InLive(s.live, c) && InLive(s.live, d) && c.id in s.served && d.id in s.served
                  && KeyOfCall(c) == KeyOfCall(d) :: c.id == d.id
  }

  lemma {:induction false} CountZero(calls: seq<Call>, key: CallKey.Text, except: Option<string>)
    ensures CountIn(calls, key, except) == 0 <==> forall c | c in calls :: except == Some(c.id) || KeyOfCall(c) != key
  {
    if calls != [] {
      CountZero(calls[..|calls| - 1], key, except);
      assert calls == calls[..|calls| - 1] + [calls[|calls| - 1]];
    }
  }

  lemma {:induction false} LineageZero(live: seq<Calling>, key: CallKey.Text, except: Option<string>)
    ensures LineageCount(live, key, except) == 0 <==>
      forall i, c | 0 <= i < |live| && c in live[i] :: except == Some(c.id) || KeyOfCall(c) != key
  {
    if live != [] {
      var init, m := live[..|live| - 1], live[|live| - 1];
      LineageZero(init, key, except);
      CountZero(m, key, except);
      assert forall i | 0 <= i < |init| :: init[i] == live[i];
    }
  }

  /** A call is served only when no other call of the live list has its key. */
  lemma AloneMeansOnly(s: State, key: CallKey.Text, id: string, d: Call)
    requires Alone(s, key, id) && InLive(s.live, d) && KeyOfCall(d) == key
    ensures d.id == id
  {
    LineageZero(s.live, key, Some(id));
  }

  lemma {:induction false} ArgsInHolds(calls: seq<Call>, id: string)
    ensures var r := ArgsIn(calls, id);
      && (r.Some? ==> exists a :: 0 <= a < |calls| && calls[a].id == id && calls[a].args == r.value)
      && (r.None? ==> forall a :: 0 <= a < |calls| ==> calls[a].id != id)
  {
    if calls != [] && calls[0].id != id {
      ArgsInHolds(calls[1..], id);
      var r := ArgsIn(calls[1..], id);
      if r.Some? {
        var a :| 0 <= a < |calls[1..]| && calls[1..][a].id == id && calls[1..][a].args == r.value;
        assert calls[a + 1] == calls[1..][a];
      } else {
        assert forall a :: 1 <= a < |calls| ==> calls[a] == calls[1..][a - 1];
      }
    }
  }

  lemma NoneInLive(id: string)
    ensures forall c :: InLive([], c) ==> c.id != id
  {
  }

  lemma {:induction false} StoredArgsHold(live: seq<Calling>, id: string)
    ensures var r := StoredArgs(live, id);
      && (r.Some? ==> exists c :: InLive(live, c) && c.id == id && c.args == r.value)
      && (r.None? ==> forall c :: InLive(live, c) ==> c.id != id)
  {
    hide InLive, ArgsIn;
    if live != [] {
      var init, m := live[..|live| - 1], live[|live| - 1];
      ArgsInHolds(m, id);
      StoredArgsHold(init, id);
      assert live == init + [m];
      var here, r := ArgsIn(m, id), StoredArgs(live, id);
      if here.Some? {
        var a :| 0 <= a < |m| && m[a].id == id && m[a].args == here.value;
        InLiveGrows(init, m, m[a]);
        assert InLive(live, m[a]);
      } else if r.Some? {
        var c :| InLive(init, c) && c.id == id && c.args == r.value;
        InLiveGrows(init, m, c);
      } else {
        forall c | InLive(live, c) ensures c.id != id {
          InLiveGrows(init, m, c);
          if c in m { var a :| 0 <= a < |m| && m[a] == c; }
        }
      }
    } else {
      NoneInLive(id);
    }
  }

  lemma InLiveGrows(live: seq<Calling>, m: Calling, c: Call)
    ensures InLive(live + [m], c) <==> InLive(live, c) || c in m
  {
    var l := live + [m];
    assert l[|live|] == m;
    if InLive(live, c) {
      var i :| 0 <= i < |live| && c in live[i];
      assert c in l[i];
    }
    if c in m { assert c in l[|live|]; }
    if InLive(l, c) {
      var i :| 0 <= i < |l| && c in l[i];
      if i < |live| { assert c in live[i]; }
    }
  }

  lemma SameIdSameCall(live: seq<Calling>, c: Call, d: Call)
    requires UniqueIds(live) && InLive(live, c) && InLive(live, d) && c.id == d.id
    ensures c == d
  {
    var i :| 0 <= i < |live| && c in live[i];
    var j :| 0 <= j < |live| && d in live[j];
    var a :| 0 <= a < |live[i]| && live[i][a] == c;
    var b :| 0 <= b < |live[j]| && live[j][b] == d;
  }

  /** The key a call runs under is the key of its block in the transcript, whatever its parameters became. */
  lemma KeyIsTranscripts(s: State, c: Call, params: Option<CallKey.Json>)
    requires UniqueIds(s.live) && InLive(s.live, c)
    ensures ExecutedKey(s, c.id, c.name, params) == KeyOfCall(c)
  {
    StoredArgsHold(s.live, c.id);
    var stored := StoredArgs(s.live, c.id);
    var d :| InLive(s.live, d) && d.id == c.id && d.args == stored.value;
    SameIdSameCall(s.live, c, d);
  }

  /** Starting a call of the live list keeps it. */
  lemma BeginServesOnce(s: State, maxAge: nat, c: Call, params: Option<CallKey.Json>, effect: Effect, now: int)
    requires ServedOnce(s) && UniqueIds(s.live) && InLive(s.live, c)
    ensures ServedOnce(Begun(s, maxAge, c.id, c.name, params, effect, now))
  {
    hide UniqueIds, InLive, LineageCount, KeyOfCall, ExecutedKey, NeverReplayed;
    var r := Begun(s, maxAge, c.id, c.name, params, effect, now);
    KeyIsTranscripts(s, c, params);
    if Begin(s, maxAge, c.id, c.name, params, effect, now).FromStore? {
      forall x, y | InLive(s.live, x) && InLive(s.live, y) && x.id in r.served && y.id in r.served
                    && KeyOfCall(x) == KeyOfCall(y)
        ensures x.id == y.id
      {
        if x.id == c.id {
          SameIdSameCall(s.live, x, c);
          AloneMeansOnly(s, KeyOfCall(c), c.id, y);
        } else if y.id == c.id {
          SameIdSameCall(s.live, y, c);
          AloneMeansOnly(s, KeyOfCall(c), c.id, x);
        }
      }
    }
  }

  /** Calls of the live list that share a key all execute: siblings are never served. */
  lemma SiblingsExecute(
    s: State, maxAge: nat, c: Call, d: Call, params: Option<CallKey.Json>, effect: Effect, now: int)
    requires UniqueIds(s.live) && InLive(s.live, c) && InLive(s.live, d)
    requires c.id != d.id && KeyOfCall(c) == KeyOfCall(d)
    ensures !Begin(s, maxAge, c.id, c.name, params, effect, now).FromStore?
  {
    KeyIsTranscripts(s, c, params);
    if Alone(s, KeyOfCall(c), c.id) { AloneMeansOnly(s, KeyOfCall(c), c.id, d); }
  }

  // ---------------------------------------------------------------------------
  // The latest execution
  // ---------------------------------------------------------------------------

  function Latest(log: seq<Execution>, key: CallKey.Text): (r: Option<Execution>)
    ensures r.Some? ==> r.value in log && r.value.key == key
  {
    if log == [] then None
    else if log[|log| - 1].key == key then Some(log[|log| - 1])
    else Latest(log[..|log| - 1], key)
  }

  /** The store holds the latest execution of the key, unless it was dropped past its age. */
  ghost predicate Current(s: State, maxAge: nat, key: CallKey.Text) {
    var latest := Latest(s.log, key);
    && (latest.None? ==> key !in s.entries)
    && (latest.Some? ==>
          && (key in s.entries ==> s.entries[key] == Entry(latest.value.result, latest.value.at))
          && (key !in s.entries ==> s.clock - latest.value.at > maxAge))
  }

  ghost predicate AllCurrent(s: State, maxAge: nat) {
    forall key: CallKey.Text :: Current(s, maxAge, key)
  }

  lemma LatestAppend(log: seq<Execution>, e: Execution, key: CallKey.Text)
    ensures Latest(log + [e], key) == if e.key == key then Some(e) else Latest(log, key)
  {
    assert (log + [e])[..|log|] == log;
  }

  lemma BeginStaysCurrent(
    s: State, maxAge: nat, id: string, name: CallKey.Text, params: Option<CallKey.Json>, effect: Effect, now: int,
    key: CallKey.Text)
    requires Current(s, maxAge, key) && s.clock <= now
    ensures Current(Begun(s, maxAge, id, name, params, effect, now), maxAge, key)
  {
  }

  lemma EndStaysCurrent(s: State, maxAge: nat, k: CallKey.Text, outcome: Outcome, now: int, key: CallKey.Text)
    requires Current(s, maxAge, key) && s.clock <= now
    ensures Current(Ended(s, k, outcome, now), maxAge, key)
  {
    if outcome.Came? { LatestAppend(s.log, Execution(k, outcome.result, now), key); }
  }

  /**
   * A call is answered from the store exactly when it may be replayed, is alone with its key on the live lineage,
   * and its key was executed within the age limit; the answer is that of the latest successful execution.
   */
  lemma ServedIsLatest(
    s: State, maxAge: nat, c: Call, params: Option<CallKey.Json>, effect: Effect, now: int, r: Result)
    requires AllCurrent(s, maxAge) && s.clock <= now && UniqueIds(s.live) && InLive(s.live, c)
    ensures Begin(s, maxAge, c.id, c.name, params, effect, now) == FromStore(r) <==>
      && Replayable(c.name, effect)
      && (forall d | InLive(s.live, d) && KeyOfCall(d) == KeyOfCall(c) :: d.id == c.id)
      && var latest := Latest(s.log, KeyOfCall(c));
      latest.Some? && now - latest.value.at <= maxAge && latest.value.result == r
  {
    var key := KeyOfCall(c);
    KeyIsTranscripts(s, c, params);
    assert Current(s, maxAge, key);
    AloneExactly(s, key, c.id);
  }

  lemma AloneExactly(s: State, key: CallKey.Text, id: string)
    ensures Alone(s, key, id) <==> forall d | InLive(s.live, d) && KeyOfCall(d) == key :: d.id == id
  {
    LineageZero(s.live, key, Some(id));
    if forall d | InLive(s.live, d) && KeyOfCall(d) == key :: d.id == id {
      forall i, d | 0 <= i < |s.live| && d in s.live[i] ensures Some(id) == Some(d.id) || KeyOfCall(d) != key {
        assert InLive(s.live, d);
      }
    }
  }

  // ---------------------------------------------------------------------------
  // Runs
  // ---------------------------------------------------------------------------

  /** `Cut`: a fork, which leaves some of the calls. */
  datatype Step =
    | Grow(m: Calling)
    | Cut(left: seq<Calling>)
    | StartCall(c: Call, params: Option<CallKey.Json>, effect: Effect, now: int)
    | EndCall(key: CallKey.Text, outcome: Outcome, now: int)

  /** Call ids are never used again, a fork makes no calls, a call starts from its message, and time passes. */
  ghost predicate LegalStep(s: State, step: Step) {
    match step
    case Grow(m) => UniqueIds(s.live + [m]) && forall c | c in m :: c.id !in s.served
    case Cut(left) => UniqueIds(left) && forall c | InLive(left, c) :: InLive(s.live, c)
    case StartCall(c, _, _, now) => InLive(s.live, c) && s.clock <= now
    case EndCall(_, _, now) => s.clock <= now
  }

  function Take(s: State, maxAge: nat, step: Step): State {
    match step
    case Grow(m) => s.(live := s.live + [m])
    case Cut(left) => s.(live := left)
    case StartCall(c, params, effect, now) => Begun(s, maxAge, c.id, c.name, params, effect, now)
    case EndCall(key, outcome, now) => Ended(s, key, outcome, now)
  }

  function After(maxAge: nat, steps: seq<Step>): State {
    if steps == [] then State([], map[], {}, [], 0)
    else Take(After(maxAge, steps[..|steps| - 1]), maxAge, steps[|steps| - 1])
  }

  ghost predicate Legal(maxAge: nat, steps: seq<Step>) {
    steps != [] ==>
      Legal(maxAge, steps[..|steps| - 1]) && LegalStep(After(maxAge, steps[..|steps| - 1]), steps[|steps| - 1])
  }

  lemma GrowServesOnce(s: State, m: Calling)
    requires ServedOnce(s) && forall c | c in m :: c.id !in s.served
    ensures ServedOnce(s.(live := s.live + [m]))
  {
    forall c | InLive(s.live + [m], c) && c.id in s.served ensures InLive(s.live, c) {
      InLiveGrows(s.live, m, c);
    }
  }

  lemma StepServesOnce(s: State, maxAge: nat, step: Step)
    requires ServedOnce(s) && UniqueIds(s.live) && LegalStep(s, step)
    ensures ServedOnce(Take(s, maxAge, step)) && UniqueIds(Take(s, maxAge, step).live)
  {
    hide UniqueIds, Begun, Ended;
    match step
    case Grow(m) => GrowServesOnce(s, m);
    case Cut(left) =>
    case StartCall(c, params, effect, now) =>
      BeginServesOnce(s, maxAge, c, params, effect, now);
      StartKeepsLive(s, maxAge, c, params, effect, now);
    case EndCall(key, outcome, now) => EndKeeps(s, key, outcome, now);
  }

  lemma StartKeepsLive(s: State, maxAge: nat, c: Call, params: Option<CallKey.Json>, effect: Effect, now: int)
    ensures Begun(s, maxAge, c.id, c.name, params, effect, now).live == s.live
  {
  }

  lemma EndKeeps(s: State, key: CallKey.Text, outcome: Outcome, now: int)
    ensures var r := Ended(s, key, outcome, now);
      r.live == s.live && r.served == s.served
  {
  }

  lemma StepStaysCurrent(s: State, maxAge: nat, step: Step, key: CallKey.Text)
    requires Current(s, maxAge, key) && LegalStep(s, step)
    ensures Current(Take(s, maxAge, step), maxAge, key)
  {
    hide Begun, Ended;
    match step
    case StartCall(c, params, effect, now) =>
      BeginStaysCurrent(s, maxAge, c.id, c.name, params, effect, now, key);
    case EndCall(k, outcome, now) => EndStaysCurrent(s, maxAge, k, outcome, now, key);
    case _ =>
  }

  /**
   * Over every run, forks included, no two calls of the live list with the same key were both served from the
   * store, and what the store holds is the latest successful execution of each key.
   */
  lemma {:induction false} ReplayedAtMostOnce(maxAge: nat, steps: seq<Step>)
    requires Legal(maxAge, steps)
    ensures var s := After(maxAge, steps);
      ServedOnce(s) && UniqueIds(s.live) && AllCurrent(s, maxAge)
  {
    if steps != [] {
      var before, step := After(maxAge, steps[..|steps| - 1]), steps[|steps| - 1];
      ReplayedAtMostOnce(maxAge, steps[..|steps| - 1]);
      StepServesOnce(before, maxAge, step);
      forall key: CallKey.Text ensures Current(After(maxAge, steps), maxAge, key) {
        StepStaysCurrent(before, maxAge, step, key);
      }
    }
  }

  /** The calls of a run that came back without an error. */
  function Successes(steps: seq<Step>): seq<Execution> {
    if steps == [] then [] else
      var step := steps[|steps| - 1];
      Successes(steps[..|steps| - 1])
      + (if step.EndCall? && step.outcome.Came? && !step.outcome.result.isError
         then [Execution(step.key, step.outcome.result, step.now)] else [])
  }

  /** The executions a call may be answered from are exactly the run's successes, in order. */
  lemma {:induction false} LogIsSuccesses(maxAge: nat, steps: seq<Step>)
    ensures After(maxAge, steps).log == Successes(steps)
  {
    if steps != [] {
      hide KeyOfCall, ExecutedKey, NeverReplayed, LineageCount;
      LogIsSuccesses(maxAge, steps[..|steps| - 1]);
    }
  }

  /** Five tools never replay; every other does exactly when its call is redo-safe or repeatable. */
  lemma ReplayableMeans(name: string, effect: Effect)
    ensures name in {"load_skill", "tool_search", "no_reply", "browser", "session_record_tool"}
      ==> !Replayable(Units(name), effect)
    ensures effect.Undoable? || effect.Irreversible? ==> !Replayable(Units(name), effect)
    ensures Units(name) !in NeverReplayed() && (effect.RedoSafe? || effect.Repeatable?)
      ==> Replayable(Units(name), effect)
    ensures |NeverReplayed()| <= 5
  {
  }
}
