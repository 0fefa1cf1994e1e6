/** The tools a session has loaded: kept in step with what its live transcript says was loaded. */
module DynamicTools {
  import opened Transcript
  import opened Chronology
  import opened Forks

  datatype Tool = Tool(name: string, definition: string)

  datatype LoadResult = LoadResult(added: seq<Tool>, alreadyLoaded: seq<string>, unknown: seq<string>)

  function CatalogNames(catalog: seq<Tool>): set<string> {
    set k | 0 <= k < |catalog| :: catalog[k].name
  }

  /** The last catalog tool of that name. */
  function ByName(catalog: seq<Tool>, name: string): (r: Option<Tool>)
    ensures r.Some? ==> r.value.name == name
    ensures r.Some? <==> name in CatalogNames(catalog)
  {
    if catalog == [] then None
    else
      var rest := ByName(catalog[..|catalog| - 1], name);
      if catalog[|catalog| - 1].name == name then Some(catalog[|catalog| - 1]) else rest
  }

  /** The loaded part of the catalog, in catalog order. */
  function LoadedPart(catalog: seq<Tool>, loaded: set<string>): seq<Tool> {
    if catalog == [] then [] else
      var tool := catalog[|catalog| - 1];
      LoadedPart(catalog[..|catalog| - 1], loaded) + (if tool.name in loaded then [tool] else [])
  }

  function LoadsOf(m: Message): seq<string> {
    if m.ToolResult? then m.loads else []
  }

  /** The names the tool results of a list say they loaded, in order. */
  function LoadNames(ms: seq<Message>): seq<string> {
    if ms == [] then [] else LoadNames(ms[..|ms| - 1]) + LoadsOf(ms[|ms| - 1])
  }

  function NameSet(names: seq<string>): set<string> {
    set k | 0 <= k < |names| :: names[k]
  }

  function Loads(ms: seq<Message>): set<string> {
    NameSet(LoadNames(ms))
  }

  /** What a fresh registry seeded from the transcript would hold. */
  function Seeded(catalog: seq<Tool>, immediate: set<string>, live: seq<Message>): set<string> {
    immediate + (Loads(live) * CatalogNames(catalog))
  }

  /** Loading the names one by one. */
  function LoadEach(catalog: seq<Tool>, loaded: set<string>, names: seq<string>): (r: (set<string>, LoadResult))
  {
    if names == [] then (loaded, LoadResult([], [], [])) else
      var (some, so) := LoadEach(catalog, loaded, names[..|names| - 1]);
      var name := names[|names| - 1];
      var tool := ByName(catalog, name);
      if tool.None? then (some, so.(unknown := so.unknown + [name]))
      else if name in some then (some, so.(alreadyLoaded := so.alreadyLoaded + [name]))
      else (some + {name}, so.(added := so.added + [tool.value]))
  }

  /** Unloading the names one by one: those kept by a message, or immediate, stay. */
  function UnloadEach(
    catalog: seq<Tool>, loaded: set<string>, names: seq<string>, stay: set<string>): (r: (set<string>, seq<Tool>))
  {
    if names == [] then (loaded, []) else
      var (some, removed) := UnloadEach(catalog, loaded, names[..|names| - 1], stay);
      var name := names[|names| - 1];
      if name in stay || name !in some then (some, removed)
      else
        var tool := ByName(catalog, name);
        (some - {name}, if tool.Some? then removed + [tool.value] else removed)
  }

  class DynamicToolRegistry {
    const catalog: seq<Tool>
    const immediate: set<string>
    var loaded: set<string>
    var current: seq<Tool>

    ghost predicate Valid()
      reads this
    {
      && immediate <= CatalogNames(catalog)
      && loaded <= CatalogNames(catalog)
      && current == LoadedPart(catalog, loaded)
    }

    /** The registry agrees with the transcript. */
    ghost predicate Follows(live: seq<Message>)
      reads this
    {
      Valid() && loaded == Seeded(catalog, immediate, live)
    }

    constructor (catalog: seq<Tool>, names: set<string>)
      ensures Valid() && this.catalog == catalog && immediate == names * CatalogNames(catalog) && loaded == immediate
      ensures Follows([])
    {
      this.catalog := catalog;
      immediate := names * CatalogNames(catalog);
      loaded := names * CatalogNames(catalog);
      current := LoadedPart(catalog, names * CatalogNames(catalog));
    }

    method ComputeCurrent() returns (tools: seq<Tool>)
      ensures tools == LoadedPart(catalog, loaded)
    {
      tools := [];
      var k := 0;
      while k < |catalog|
        invariant k <= |catalog| && tools == LoadedPart(catalog[..k], loaded)
      {
        assert catalog[..k + 1][..k] == catalog[..k];
        if catalog[k].name in loaded {
          tools := tools + [catalog[k]];
        }
        k := k + 1;
      }
      assert catalog[..k] == catalog;
    }

    method Load(names: seq<string>) returns (r: LoadResult)
      requires Valid()
      modifies this
      ensures Valid() && (loaded, r) == LoadEach(catalog, old(loaded), names)
    {
      r := LoadResult([], [], []);
      var k := 0;
      while k < |names|
        invariant k <= |names| && (loaded, r) == LoadEach(catalog, old(loaded), names[..k])
        invariant loaded <= CatalogNames(catalog) && current == old(current)
        invariant r.added == [] ==> loaded == old(loaded)
      {
        assert names[..k + 1][..k] == names[..k];
        var name := names[k];
        var tool := ByName(catalog, name);
        if tool.None? {
          r := r.(unknown := r.unknown + [name]);
        } else if name in loaded {
          r := r.(alreadyLoaded := r.alreadyLoaded + [name]);
        } else {
          loaded := loaded + {name};
          r := r.(added := r.added + [tool.value]);
        }
        k := k + 1;
      }
      assert names[..k] == names;
      if |r.added| > 0 {
        current := ComputeCurrent();
      }
    }

    /** Load the names of one message that the catalog has. */
    method SeedNames(names: seq<string>, before: seq<string>) returns (added: seq<string>)
      requires loaded <= CatalogNames(catalog)
      modifies this`loaded
      ensures loaded == old(loaded) + (NameSet(names) * CatalogNames(catalog))
      ensures NameSet(added) == NameSet(before) + (loaded - old(loaded))
    {
      added := before;
      var k := 0;
      while k < |names|
        invariant k <= |names|
        invariant loaded == old(loaded) + (NameSet(names[..k]) * CatalogNames(catalog))
        invariant NameSet(added) == NameSet(before) + (loaded - old(loaded))
      {
        hide CatalogNames;
        NameSetAppend(names[..k], names[k]);
        assert names[..k + 1] == names[..k] + [names[k]];
        if ByName(catalog, names[k]).Some? && names[k] !in loaded {
          NameSetAppend(added, names[k]);
          loaded := loaded + {names[k]};
          added := added + [names[k]];
        }
        k := k + 1;
      }
      assert names[..k] == names;
    }

    /** Load what the messages say was loaded; the names added. */
    method SeedFromTranscript(messages: seq<Message>) returns (added: seq<string>)
      requires Valid()
      modifies this
      ensures Valid() && loaded == old(loaded) + (Loads(messages) * CatalogNames(catalog))
      ensures NameSet(added) == loaded - old(loaded)
    {
      hide CatalogNames, NameSet;
      added := [];
      NoNames(added);
      var i := 0;
      while i < |messages|
        invariant i <= |messages| && current == old(current)
        invariant loaded == old(loaded) + (Loads(messages[..i]) * CatalogNames(catalog))
        invariant NameSet(added) == loaded - old(loaded)
      {
        assert messages[..i + 1][..i] == messages[..i];
        added := SeedNames(LoadsOf(messages[i]), added);
        NameSetConcat(LoadNames(messages[..i]), LoadsOf(messages[i]));
        i := i + 1;
      }
      assert messages[..i] == messages;
      NoNames(added);
      if |added| > 0 {
        current := ComputeCurrent();
      } else {
        assert loaded == old(loaded);
      }
    }

    /** Undo the loads that only a discarded message carried; the tools unloaded. */
    method UnloadDiscarded(discarded: seq<Message>, kept: seq<Message>) returns (removed: seq<Tool>)
      requires Valid()
      modifies this
      ensures Valid()
      ensures (loaded, removed) == UnloadEach(catalog, old(loaded), LoadNames(discarded), Loads(kept) + immediate)
    {
      hide LoadedPart, Loads, LoadNames;
      var keptLoads := Loads(kept);
      var names := LoadNames(discarded);
      removed := [];
      var k := 0;
      while k < |names|
        invariant k <= |names| && current == old(current)
        invariant (loaded, removed) == UnloadEach(catalog, old(loaded), names[..k], keptLoads + immediate)
        invariant loaded <= old(loaded) && (removed == [] ==> loaded == old(loaded))
      {
        assert names[..k + 1][..k] == names[..k];
        var name := names[k];
        if !(name in keptLoads || name in immediate || name !in loaded) {
          loaded := loaded - {name};
          var tool := ByName(catalog, name);
          if tool.Some? {
            removed := removed + [tool.value];
          }
        }
        k := k + 1;
      }
      assert names[..k] == names;
      if |removed| > 0 {
        current := ComputeCurrent();
      }
    }
  }

  lemma NameSetAppend(names: seq<string>, name: string)
    ensures NameSet(names + [name]) == NameSet(names) + {name}
  {
    NameSetConcat(names, [name]);
    assert NameSet([name]) == {name} by { assert [name][0] == name; }
  }

  lemma NameSetConcat(a: seq<string>, b: seq<string>)
    ensures NameSet(a + b) == NameSet(a) + NameSet(b)
  {
    forall x | x in NameSet(a) || x in NameSet(b) ensures x in NameSet(a + b) {
      if x in NameSet(a) {
        var k :| 0 <= k < |a| && a[k] == x;
        assert (a + b)[k] == x;
      } else {
        var k :| 0 <= k < |b| && b[k] == x;
        assert (a + b)[|a| + k] == x;
      }
    }
  }

  lemma NoNames(names: seq<string>)
    ensures NameSet(names) == {} <==> names == []
  {
    if names != [] { assert names[0] in NameSet(names); }
  }

  // ---------------------------------------------------------------------------
  // Loads and forks
  // ---------------------------------------------------------------------------

  lemma {:induction false} LoadNamesConcat(a: seq<Message>, b: seq<Message>)
    ensures LoadNames(a + b) == LoadNames(a) + LoadNames(b)
    ensures Loads(a + b) == Loads(a) + Loads(b)
  {
    if b == [] {
      assert a + b == a;
    } else {
      assert (a + b)[..|a + b| - 1] == a + b[..|b| - 1];
      LoadNamesConcat(a, b[..|b| - 1]);
    }
    NameSetConcat(LoadNames(a), LoadNames(b));
  }

  /** The names asked for are in the catalog exactly when they end up loaded; each is reported once. */
  lemma {:induction false} LoadIsUnion(catalog: seq<Tool>, loaded: set<string>, names: seq<string>)
    requires loaded <= CatalogNames(catalog)
    ensures var (after, r) := LoadEach(catalog, loaded, names);
      && after == loaded + (NameSet(names) * CatalogNames(catalog))
      && |r.added| + |r.alreadyLoaded| + |r.unknown| == |names|
      && (forall k :: 0 <= k < |r.added| ==> r.added[k].name !in loaded && r.added[k].name in after)
      && (forall k :: 0 <= k < |r.unknown| ==> r.unknown[k] !in CatalogNames(catalog))
      && (forall k :: 0 <= k < |r.alreadyLoaded| ==> r.alreadyLoaded[k] in after)
  {
    if names != [] {
      var init, name := names[..|names| - 1], names[|names| - 1];
      assert names == init + [name];
      NameSetAppend(init, name);
      LoadIsUnion(catalog, loaded, init);
    }
  }

  lemma {:induction false} UnloadIsDifference(
    catalog: seq<Tool>, loaded: set<string>, names: seq<string>, stay: set<string>)
    ensures var (after, removed) := UnloadEach(catalog, loaded, names, stay);
      && after == loaded - (NameSet(names) - stay)
      && (forall x :: x in CatalogNames(catalog) && x in loaded - after <==> exists t | t in removed :: t.name == x)
  {
    if names != [] {
      var init, name := names[..|names| - 1], names[|names| - 1];
      assert names == init + [name];
      NameSetAppend(init, name);
      UnloadIsDifference(catalog, loaded, init, stay);
    }
  }

  /**
   * A load carried by a tool result keeps the registry in step with the transcript exactly when the result names
   * what the load added, up to names that were loaded already or that the catalog lacks.
   */
  lemma LoadFollows(
    catalog: seq<Tool>, immediate: set<string>, live: seq<Message>, names: seq<string>, result: Message)
    requires immediate <= CatalogNames(catalog)
    ensures var loaded := Seeded(catalog, immediate, live);
      LoadEach(catalog, loaded, names).0 == Seeded(catalog, immediate, live + [result]) <==>
      NameSet(names) * CatalogNames(catalog) - loaded == NameSet(LoadsOf(result)) * CatalogNames(catalog) - loaded
  {
    var loaded := Seeded(catalog, immediate, live);
    LoadIsUnion(catalog, loaded, names);
    LoadNamesConcat(live, [result]);
    assert LoadNames([result]) == LoadsOf(result) by {
      assert [result][..0] == [];
      assert LoadNames([]) + LoadsOf(result) == LoadsOf(result);
    }
    SameBeyond(loaded, NameSet(names) * CatalogNames(catalog), NameSet(LoadsOf(result)) * CatalogNames(catalog));
    assert Seeded(catalog, immediate, live + [result]) == loaded + (NameSet(LoadsOf(result)) * CatalogNames(catalog));
  }

  lemma SameBeyond(s: set<string>, a: set<string>, b: set<string>)
    ensures s + a == s + b <==> a - s == b - s
  {
    assert a - s == (s + a) - s && b - s == (s + b) - s;
    assert s + a == s + (a - s) && s + b == s + (b - s);
  }

  lemma {:induction false} ResultsForLoads(ms: seq<Message>, ids: set<string>)
    ensures Loads(ResultsFor(ms, ids)) <= Loads(ms)
  {
    if ms != [] {
      var init, m := ms[..|ms| - 1], ms[|ms| - 1];
      ResultsForLoads(init, ids);
      assert ms == init + [m];
      LoadNamesConcat(init, [m]);
      if m.ToolResult? && m.callId in ids {
        LoadNamesConcat(ResultsFor(init, ids), [m]);
      } else {
        assert ResultsFor(init, ids) + [] == ResultsFor(init, ids);
      }
    }
  }

  lemma {:induction false} RedeliveredLoads(span: seq<Message>, kept: seq<Message>)
    ensures Loads(Redelivered(span, kept)) == {}
  {
    if span != [] {
      var rest := Redelivered(span[1..], kept);
      RedeliveredLoads(span[1..], kept);
      if span[0].Interjection? && span[0] !in kept {
        LoadNamesConcat([span[0]], rest);
        OneLoads(span[0]);
        NoNames(LoadsOf(span[0]));
      } else {
        assert [] + rest == rest;
      }
    }
  }

  lemma OneLoads(m: Message)
    ensures LoadNames([m]) == LoadsOf(m)
  {
    assert [m][..0] == [];
    assert LoadNames([]) + LoadsOf(m) == LoadsOf(m);
  }

  /** What a fork appends again loads nothing the discarded span did not. */
  lemma ExtraLoads(ms: seq<Message>, point: ForkPoint)
    requires ForkErrorOf(ms, point).None?
    ensures Loads(Extra(ms, point)) <= Loads(ms[point.index..])
  {
    hide Redelivered, ResultsFor, WithoutCalls;
    var edited := Edited(ms, point);
    var again := Redelivered(ms[point.index..], ms[..point.index] + edited);
    RedeliveredLoads(ms[point.index..], ms[..point.index] + edited);
    LoadNamesConcat(edited, again);
    NoNames([]);
    if point.edit.Some? {
      var calls := WithoutCalls(ms[point.index].calls, point.edit.value.remove);
      var m := ms[point.index].(prose := Empty, calls := calls);
      var results := ResultsFor(ms[point.index + 1..], IdsOf(calls));
      LoadNamesConcat([m], results);
      OneLoads(m);
      ResultsForLoads(ms[point.index + 1..], IdsOf(calls));
      assert ms[point.index..] == [ms[point.index]] + ms[point.index + 1..];
      LoadNamesConcat([ms[point.index]], ms[point.index + 1..]);
    }
  }

  /**
   * Forking and unloading commute with reloading: after any fork, undoing the discarded loads leaves exactly the
   * set a fresh registry seeded from the new transcript would hold.
   */
  lemma ForkFollows(catalog: seq<Tool>, immediate: set<string>, ms: seq<Message>, point: ForkPoint)
    requires immediate <= CatalogNames(catalog) && ForkErrorOf(ms, point).None?
    ensures var kept := KeptList(ms, point);
      UnloadEach(catalog, Seeded(catalog, immediate, ms), LoadNames(ms[point.index..]), Loads(kept) + immediate).0
      == Seeded(catalog, immediate, kept)
  {
    var prefix, span, extra, kept := ms[..point.index], ms[point.index..], Extra(ms, point), KeptList(ms, point);
    UnloadIsDifference(catalog, Seeded(catalog, immediate, ms), LoadNames(span), Loads(kept) + immediate);
    ExtraLoads(ms, point);
    LoadNamesConcat(prefix, span);
    LoadNamesConcat(prefix, extra);
    assert ms == prefix + span && kept == prefix + extra;
    FollowsAfter(CatalogNames(catalog), immediate, Loads(prefix), Loads(span), Loads(extra));
  }

  lemma FollowsAfter(
    names: set<string>, immediate: set<string>, prefix: set<string>, span: set<string>, extra: set<string>)
    requires extra <= span
    ensures (immediate + ((prefix + span) * names)) - (span - ((prefix + extra) + immediate))
         == immediate + ((prefix + extra) * names)
  {
  }

  /** A fork of the session, with the registry following it. */
  method ForkWithTools(agent: AgentSession, registry: DynamicToolRegistry, point: ForkPoint, reason: BranchReason)
    returns (r: ForkResult, removed: seq<Tool>)
    requires agent.Valid() && registry.Follows(agent.messages)
    modifies agent, registry
    ensures agent.Valid() && registry.Follows(agent.messages)
    ensures r.Refused? <==> ForkErrorOf(old(agent.messages), point).Some?
    ensures r.Refused? ==> agent.messages == old(agent.messages) && removed == []
    ensures r.Forked? ==> agent.messages == KeptList(old(agent.messages), point)
  {
    ghost var before := agent.messages;
    removed := [];
    r := agent.ForkSession(point, reason);
    if r.Forked? {
      var discarded := agent.branches[|agent.branches| - 1].messages;
      ForkFollows(registry.catalog, registry.immediate, before, point);
      removed := registry.UnloadDiscarded(discarded, agent.messages);
    }
  }

  /** A tool is among the current ones exactly when the catalog has it and its name is loaded. */
  lemma {:induction false} CurrentIsLoaded(catalog: seq<Tool>, loaded: set<string>)
    ensures forall t :: t in LoadedPart(catalog, loaded) <==> t in catalog && t.name in loaded
  {
    if catalog != [] {
      CurrentIsLoaded(catalog[..|catalog| - 1], loaded);
      assert catalog == catalog[..|catalog| - 1] + [catalog[|catalog| - 1]];
    }
  }
}
