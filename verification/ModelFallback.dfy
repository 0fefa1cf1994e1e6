/** Which member of a fallback chain serves an attempt. */
module ModelFallback {
  import opened Transcript

  datatype Member = Member(logicalId: string, healthKey: string, window: int, failureGroup: Option<string>)

  /** What the resolver reads of the world: model health, probe windows and budgets. */
  datatype View = View(unhealthy: set<string>, probeDue: set<string>, probers: set<string>, overBudget: set<string>)

  /** `attempts` is absent outside a request's pass. */
  datatype Deps = Deps(
    view: View,
    tried: set<string>,
    observed: Option<int>,
    attempts: Option<map<string, nat>>,
    quota: nat,
    refused: set<string>,
    excluded: set<string>,
    failedGroups: set<string>)

  datatype Reason =
    | Primary | BudgetFallback | HealthFallback | Canary | ContextFallback | Failover | RefusalFallback
    | GroupFallback | GroupLastResort | AllUnhealthy

  datatype Choice = Choice(index: nat, reason: Reason)

  // ---------------------------------------------------------------------------
  // The choice
  // ---------------------------------------------------------------------------

  predicate Exhausted(m: Member, d: Deps) {
    d.attempts.Some? && (if m.healthKey in d.attempts.value then d.attempts.value[m.healthKey] else 0) >= d.quota
  }

  predicate GroupSkipped(m: Member, d: Deps) {
    m.failureGroup.Some? && m.failureGroup.value in d.failedGroups
  }

  predicate Fits(m: Member, d: Deps) {
    d.observed.None? || d.observed.value <= m.window
  }

  predicate InBudget(m: Member, d: Deps) {
    m.logicalId !in d.view.overBudget
  }

  /** The request has not ruled the member out. */
  predicate Open(m: Member, d: Deps) {
    m.healthKey !in d.refused && m.healthKey !in d.excluded
  }

  predicate ViableIgnoringGroup(m: Member, d: Deps) {
    && m.logicalId !in d.tried
    && Open(m, d)
    && !Exhausted(m, d)
    && m.healthKey !in d.view.unhealthy
    && Fits(m, d)
    && InBudget(m, d)
  }

  predicate Viable(m: Member, d: Deps) {
    !GroupSkipped(m, d) && ViableIgnoringGroup(m, d)
  }

  /** The head's probe window is open, nobody else probes it, and a success could be used. */
  predicate CanaryOpen(head: Member, d: Deps) {
    && head.logicalId !in d.tried
    && Open(head, d)
    && !GroupSkipped(head, d)
    && !Exhausted(head, d)
    && head.healthKey !in d.view.probers
    && head.healthKey in d.view.unhealthy
    && head.healthKey in d.view.probeDue
    && InBudget(head, d)
    && Fits(head, d)
  }

  /** Why the head does not serve. */
  function HeadReason(head: Member, d: Deps): Reason {
    if head.healthKey in d.refused then RefusalFallback
    else if head.healthKey in d.view.unhealthy || head.healthKey in d.excluded then HealthFallback
    else if GroupSkipped(head, d) then GroupFallback
    else if !InBudget(head, d) then BudgetFallback
    else if !Fits(head, d) then ContextFallback
    else if Exhausted(head, d) then Failover
    else BudgetFallback
  }

  /** The first member from `k` on that passes. */
  function FirstFrom(members: seq<Member>, k: nat, pass: Member -> bool): (r: Option<nat>)
    requires k <= |members|
    ensures r.Some? ==> k <= r.value < |members| && pass(members[r.value])
    ensures r.Some? ==> forall j :: k <= j < r.value ==> !pass(members[j])
    ensures r.None? ==> forall j :: k <= j < |members| ==> !pass(members[j])
    decreases |members| - k
  {
    if k == |members| then None else if pass(members[k]) then Some(k) else FirstFrom(members, k + 1, pass)
  }

  /** Where a request goes when nothing is viable. */
  function Target(members: seq<Member>, d: Deps): (r: nat)
    requires members != []
    ensures r < |members|
  {
    var open := FirstFrom(members, 0, m => Open(m, d));
    var willing := FirstFrom(members, 0, (m: Member) => m.healthKey !in d.refused);
    if open.Some? then open.value else if willing.Some? then willing.value else 0
  }

  function Choose(members: seq<Member>, d: Deps): (r: Choice)
    requires members != []
    ensures r.index < |members|
  {
    var viable := FirstFrom(members, 0, m => Viable(m, d));
    var skipped := FirstFrom(members, 0, m => GroupSkipped(m, d) && ViableIgnoringGroup(m, d));
    if Viable(members[0], d) then Choice(0, Primary)
    else if CanaryOpen(members[0], d) then Choice(0, Canary)
    else if viable.Some? then Choice(viable.value, HeadReason(members[0], d))
    else if skipped.Some? then Choice(skipped.value, GroupLastResort)
    else Choice(Target(members, d), AllUnhealthy)
  }

  method FindFirst(members: seq<Member>, pass: Member -> bool) returns (r: Option<nat>)
    ensures r == FirstFrom(members, 0, pass)
  {
    var i := 0;
    while i < |members|
      invariant i <= |members| && FirstFrom(members, i, pass) == FirstFrom(members, 0, pass)
    {
      if pass(members[i]) {
        return Some(i);
      }
      i := i + 1;
    }
    return None;
  }

  method ChooseChainMember(members: seq<Member>, d: Deps) returns (r: Choice)
    requires members != []
    ensures r == Choose(members, d)
  {
    if Viable(members[0], d) {
      return Choice(0, Primary);
    }
    if CanaryOpen(members[0], d) {
      return Choice(0, Canary);
    }
    var viable := FindFirst(members, m => Viable(m, d));
    if viable.Some? {
      return Choice(viable.value, HeadReason(members[0], d));
    }
    var skipped := FindFirst(members, m => GroupSkipped(m, d) && ViableIgnoringGroup(m, d));
    if skipped.Some? {
      return Choice(skipped.value, GroupLastResort);
    }
    var target := FindFirst(members, m => Open(m, d));
    if target.None? {
      target := FindFirst(members, (m: Member) => m.healthKey !in d.refused);
    }
    return Choice(if target.Some? then target.value else 0, AllUnhealthy);
  }

  // ---------------------------------------------------------------------------
  // What a choice means
  // ---------------------------------------------------------------------------

  predicate NamesHeadFault(reason: Reason, head: Member, d: Deps) {
    match reason
    case RefusalFallback => head.healthKey in d.refused
    case HealthFallback => head.healthKey in d.view.unhealthy || head.healthKey in d.excluded
    case GroupFallback => GroupSkipped(head, d)
    case BudgetFallback => !InBudget(head, d) || head.logicalId in d.tried
    case ContextFallback => !Fits(head, d)
    case Failover => Exhausted(head, d)
    case _ => true
  }

  predicate FallbackReason(reason: Reason) {
    !reason.Primary? && !reason.Canary? && !reason.GroupLastResort? && !reason.AllUnhealthy?
  }

  /**
   * A fallback goes to the first viable member, past a head that is not, and its reason names something wrong
   * with the head; the last resort is the first member its failure group alone rules out; and a request is
   * left to an unviable member exactly when no member is viable, groups ignored, and the head cannot be a canary.
   */
  lemma ChoiceIsRight(members: seq<Member>, d: Deps)
    requires members != []
    ensures var c := Choose(members, d);
      && (c.reason.Primary? ==> c.index == 0 && Viable(members[0], d))
      && (c.reason.Canary? ==> c.index == 0 && !Viable(members[0], d) && CanaryOpen(members[0], d))
      && (FallbackReason(c.reason) ==>
            && c.index > 0 && Viable(members[c.index], d)
            && (forall j :: 0 <= j < c.index ==> !Viable(members[j], d))
            && !CanaryOpen(members[0], d)
            && NamesHeadFault(c.reason, members[0], d))
      && (c.reason.GroupLastResort? ==>
            && GroupSkipped(members[c.index], d) && ViableIgnoringGroup(members[c.index], d)
            && (forall j :: 0 <= j < |members| ==> !Viable(members[j], d))
            && (forall j :: 0 <= j < c.index ==> !ViableIgnoringGroup(members[j], d)))
      && (c.reason.AllUnhealthy? <==>
            (forall j :: 0 <= j < |members| ==> !ViableIgnoringGroup(members[j], d)) && !CanaryOpen(members[0], d))
  {
    var viable := FirstFrom(members, 0, m => Viable(m, d));
    var skipped := FirstFrom(members, 0, m => GroupSkipped(m, d) && ViableIgnoringGroup(m, d));
    if viable.None? {
      assert forall j :: 0 <= j < |members| ==> !Viable(members[j], d);
    }
  }

  /** The reason of a fallback is the first of the head's faults: refused, unwell, its group, budget, window, quota. */
  lemma ReasonIsFirstFault(members: seq<Member>, d: Deps)
    requires members != [] && FallbackReason(Choose(members, d).reason)
    ensures var head, reason := members[0], Choose(members, d).reason;
      var refused := head.healthKey in d.refused;
      var unwell := head.healthKey in d.view.unhealthy || head.healthKey in d.excluded;
      && (reason.RefusalFallback? <==> refused)
      && (reason.HealthFallback? <==> !refused && unwell)
      && (reason.GroupFallback? <==> !refused && !unwell && GroupSkipped(head, d))
      && (reason.ContextFallback? <==>
            !refused && !unwell && !GroupSkipped(head, d) && InBudget(head, d) && !Fits(head, d))
      && (reason.Failover? <==>
            !refused && !unwell && !GroupSkipped(head, d) && InBudget(head, d) && Fits(head, d) && Exhausted(head, d))
      && (reason.BudgetFallback? <==>
            && !refused && !unwell && !GroupSkipped(head, d)
            && (!InBudget(head, d) || (Fits(head, d) && !Exhausted(head, d) && head.logicalId in d.tried)))
  {
    ChoiceIsRight(members, d);
  }

  /** The member such a request is left to: the first that is open, else the first that did not refuse, or the head. */
  lemma LastChance(members: seq<Member>, d: Deps)
    requires members != [] && Choose(members, d).reason.AllUnhealthy?
    ensures var i := Choose(members, d).index;
      && ((exists j | 0 <= j < |members| :: Open(members[j], d)) ==>
            Open(members[i], d) && forall j | 0 <= j < i :: !Open(members[j], d))
      && ((forall j | 0 <= j < |members| :: !Open(members[j], d)) ==>
            if exists j | 0 <= j < |members| :: members[j].healthKey !in d.refused
            then members[i].healthKey !in d.refused && forall j | 0 <= j < i :: members[j].healthKey in d.refused
            else i == 0)
  {
  }

  /** Some member could take an attempt: it is viable, its failure group aside, or it is a head due for its probe. */
  ghost predicate Servable(members: seq<Member>, d: Deps)
    requires members != []
  {
    CanaryOpen(members[0], d) || exists j | 0 <= j < |members| :: ViableIgnoringGroup(members[j], d)
  }

  /** The member that serves while one can: a good head or one due for its probe, else the first viable one. */
  ghost predicate Serves(members: seq<Member>, d: Deps, i: nat)
    requires i < |members|
  {
    if Viable(members[0], d) || CanaryOpen(members[0], d) then i == 0
    else if exists j | 0 <= j < |members| :: Viable(members[j], d)
    then Viable(members[i], d) && forall j | 0 <= j < i :: !Viable(members[j], d)
    else ViableIgnoringGroup(members[i], d) && forall j | 0 <= j < i :: !ViableIgnoringGroup(members[j], d)
  }

  lemma ChooseServes(members: seq<Member>, d: Deps)
    requires members != []
    ensures var c := Choose(members, d);
      && (c.reason.AllUnhealthy? <==> !Servable(members, d))
      && (Servable(members, d) ==> forall i | 0 <= i < |members| :: Serves(members, d, i) <==> i == c.index)
  {
    ChoiceIsRight(members, d);
    hide Choose, ViableIgnoringGroup, CanaryOpen, GroupSkipped;
  }

  /** What is wrong with a member, its failure group aside. */
  ghost predicate Faulty(m: Member, d: Deps) {
    || m.healthKey in d.refused + d.excluded + d.view.unhealthy || m.logicalId in d.tried + d.view.overBudget
    || (d.observed.Some? && d.observed.value > m.window)
    || (d.attempts.Some? &&
          (d.quota == 0 || (m.healthKey in d.attempts.value && d.attempts.value[m.healthKey] >= d.quota)))
  }

  /** Bad health is all that is wrong with the head, and only a request can find out that it is well again. */
  ghost predicate CanProbe(head: Member, d: Deps) {
    && head.healthKey in d.view.unhealthy * d.view.probeDue - d.view.probers
    && !Faulty(head, d.(view := d.view.(unhealthy := {})))
    && (head.failureGroup.Some? ==> head.failureGroup.value !in d.failedGroups)
  }

  lemma FaultsOf(m: Member, d: Deps)
    ensures ViableIgnoringGroup(m, d) <==> !Faulty(m, d)
    ensures CanaryOpen(m, d) <==> CanProbe(m, d)
    ensures CanaryOpen(m, d) ==> !Viable(m, d)
  {
  }

  /**
   * Whoever serves has no fault, or is a head that the request probes; a member whose group failed serves only
   * when all others have a fault or a failed group; and the request is left to a faulty one only when all are.
   */
  lemma ServesWithoutFault(members: seq<Member>, d: Deps)
    requires members != []
    ensures var c := Choose(members, d);
      var grouped := forall j | 0 <= j < |members| ::
        Faulty(members[j], d) || (members[j].failureGroup.Some? && members[j].failureGroup.value in d.failedGroups);
      && (c.reason.AllUnhealthy? <==>
            !CanProbe(members[0], d) && forall j | 0 <= j < |members| :: Faulty(members[j], d))
      && (c.reason.Canary? <==> CanProbe(members[0], d))
      && (!c.reason.AllUnhealthy? && !c.reason.Canary? ==> !Faulty(members[c.index], d))
      && (c.reason.GroupLastResort? ==> grouped)
  {
    ChoiceIsRight(members, d);
    forall j | 0 <= j < |members|
      ensures ViableIgnoringGroup(members[j], d) <==> !Faulty(members[j], d)
      ensures CanaryOpen(members[j], d) <==> CanProbe(members[j], d)
      ensures CanaryOpen(members[j], d) ==> !Viable(members[j], d)
    {
      FaultsOf(members[j], d);
    }
    hide Faulty, CanProbe, ViableIgnoringGroup, CanaryOpen;
  }

  /** A request is never sent to a member it has ruled out while a member is open. */
  lemma NeverRuledOut(members: seq<Member>, d: Deps, j: nat)
    requires j < |members| && Open(members[j], d)
    ensures Open(members[Choose(members, d).index], d)
  {
    ChoiceIsRight(members, d);
  }

  // ---------------------------------------------------------------------------
  // Chains
  // ---------------------------------------------------------------------------

  datatype ModelConfig = ModelConfig(fallback: seq<string>)

  datatype ChainResult = Chain(ids: seq<string>) | UnknownModel(name: string)

  /** The names in first-seen order, after those of `seen`. */
  function Unseen(names: seq<string>, seen: seq<string>): seq<string> {
    if names == [] then [] else
      var before := Unseen(names[..|names| - 1], seen);
      var name := names[|names| - 1];
      if name in seen || name in before then before else before + [name]
  }

  /** The head, then its listed fallbacks, each once; an unknown name fails the whole chain. */
  method ResolveModelChain(head: string, models: map<string, ModelConfig>) returns (r: ChainResult)
    ensures r.Chain? <==>
      head in models && forall k | 0 <= k < |models[head].fallback| :: models[head].fallback[k] in models
    ensures r.Chain? ==> r.ids == [head] + Unseen(models[head].fallback, [head])
    ensures r.UnknownModel? ==>
      r.name !in models && (r.name == head || (head in models && r.name in models[head].fallback))
  {
    if head !in models {
      return UnknownModel(head);
    }
    var names := models[head].fallback;
    var chain: seq<string> := [head];
    var seen := {head};
    var k := 0;
    while k < |names|
      invariant k <= |names|
      invariant chain == [head] + Unseen(names[..k], [head])
      invariant forall x :: x in seen <==> x in chain
      invariant forall x :: x in seen ==> x in models
      invariant forall j :: 0 <= j < k ==> names[j] in models
    {
      assert names[..k + 1][..k] == names[..k];
      var name := names[k];
      if name !in seen {
        if name !in models {
          return UnknownModel(name);
        }
        seen := seen + {name};
        chain := chain + [name];
      }
      k := k + 1;
    }
    assert names[..k] == names;
    return Chain(chain);
  }

  ghost predicate Distinct(s: seq<string>) {
    forall i, j :: 0 <= i < j < |s| ==> s[i] != s[j]
  }

  /** A chain holds each of its models once, the head first. */
  lemma {:induction false} ChainIsDistinct(names: seq<string>, head: string)
    ensures var chain := [head] + Unseen(names, [head]);
      && Distinct(chain)
      && (forall x :: x in chain <==> x == head || x in names)
  {
    if names != [] {
      var init, name := names[..|names| - 1], names[|names| - 1];
      ChainIsDistinct(init, head);
      assert names == init + [name];
      var before := [head] + Unseen(init, [head]);
      if name !in before {
        assert [head] + Unseen(names, [head]) == before + [name];
        assert Distinct(before + [name]);
      } else {
        assert name in [head] || name in Unseen(init, [head]);
        assert Unseen(names, [head]) == Unseen(init, [head]);
      }
    }
  }

  /** `x` is listed before `y` ever is. */
  ghost predicate ListedBefore(names: seq<string>, x: string, y: string) {
    exists a :: 0 <= a < |names| && names[a] == x && y !in names[..a]
  }

  lemma ListedBeforeKept(names: seq<string>, x: string, y: string, last: string)
    requires ListedBefore(names, x, y)
    ensures ListedBefore(names + [last], x, y)
  {
    var a :| 0 <= a < |names| && names[a] == x && y !in names[..a];
    assert (names + [last])[..a] == names[..a];
  }

  /** The fallbacks of a chain keep the order in which they are first listed. */
  lemma {:induction false} ChainKeepsOrder(names: seq<string>, head: string, i: nat, j: nat)
    requires i < j < |Unseen(names, [head])|
    ensures ListedBefore(names, Unseen(names, [head])[i], Unseen(names, [head])[j])
  {
    var init, name := names[..|names| - 1], names[|names| - 1];
    var before := Unseen(init, [head]);
    assert names == init + [name];
    ChainIsDistinct(init, head);
    if j < |before| {
      ChainKeepsOrder(init, head, i, j);
      ListedBeforeKept(init, before[i], before[j], name);
    } else {
      var chain := [head] + before;
      assert chain[0] != chain[i + 1] && chain[i + 1] in chain;
      var a :| 0 <= a < |init| && init[a] == before[i];
      assert name !in chain;
      assert names[..a] == init[..a];
    }
  }

  // ---------------------------------------------------------------------------
  // Dispatch within a request
  // ---------------------------------------------------------------------------

  /** What the resolver reads at a dispatch. */
  datatype Env = Env(view: View, observed: Option<int>, quota: nat)

  /** The member an attempt was sent to, and where the request could go if it fails. */
  datatype Served = Served(
    key: string,
    group: Option<string>,
    exhausted: bool,
    failoverOnFailure: bool,
    falloverAvailable: bool,
    refusalFalloverAvailable: bool)

  /** A request's pass over its chain. */
  datatype Pass = Pass(
    attempts: map<string, nat>,
    failedGroups: set<string>,
    refused: set<string>,
    excluded: set<string>)

  datatype Dispatched = Dispatched(pass: Pass, choice: Choice, served: Served)

  const NEW_PASS: Pass := Pass(map[], {}, {}, {})

  function BaseDeps(env: Env, pass: Pass): Deps {
    Deps(env.view, {}, env.observed, None, env.quota, pass.refused, pass.excluded, {})
  }

  function PassDeps(env: Env, pass: Pass): Deps {
    BaseDeps(env, pass).(attempts := Some(pass.attempts), failedGroups := pass.failedGroups)
  }

  function Used(pass: Pass, key: string): nat {
    if key in pass.attempts then pass.attempts[key] else 0
  }

  /** Every member this pass could use has failed, and a new pass would find one. */
  predicate StartsOver(members: seq<Member>, env: Env, pass: Pass)
    requires members != []
  {
    && pass.attempts != map[]
    && Choose(members, PassDeps(env, pass)).reason.AllUnhealthy?
    && !Choose(members, BaseDeps(env, pass)).reason.AllUnhealthy?
  }

  predicate Availability(members: seq<Member>, d: Deps)
    requires members != []
  {
    !Choose(members, d).reason.AllUnhealthy?
  }

  function Dispatch(members: seq<Member>, env: Env, pass: Pass): Dispatched
    requires members != []
  {
    if |members| == 1 then
      var key := members[0].healthKey;
      var used := Used(pass, key) + 1;
      Dispatched(pass.(attempts := pass.attempts[key := used]), Choice(0, Primary),
                 Served(key, members[0].failureGroup, used >= env.quota, false, false, false))
    else
      var over := StartsOver(members, env, pass);
      var start := if over then pass.(attempts := map[], failedGroups := {}) else pass;
      var choice := Choose(members, if over then BaseDeps(env, pass) else PassDeps(env, pass));
      var m := members[choice.index];
      var used := Used(start, m.healthKey) + 1;
      var sent := start.(attempts := start.attempts[m.healthKey := used]);
      var next := Choose(members, PassDeps(env, sent));
      var base := BaseDeps(env, pass);
      Dispatched(sent, choice,
                 Served(m.healthKey, m.failureGroup, used >= env.quota,
                        !next.reason.AllUnhealthy? && members[next.index].healthKey != m.healthKey,
                        Availability(members, base.(excluded := pass.excluded + {m.healthKey})),
                        Availability(members, base.(refused := pass.refused + {m.healthKey}))))
  }

  /** Shared by the resolver and the retry loop, which both update it in place. */
  class RequestAttemptState {
    var attempts: map<string, nat>
    var failedGroups: set<string>
    var refused: set<string>
    var excluded: set<string>
    var served: Option<Served>

    function Now(): Pass
      reads this
    {
      Pass(attempts, failedGroups, refused, excluded)
    }

    constructor ()
      ensures Now() == NEW_PASS && served == None
    {
      attempts, failedGroups, refused, excluded, served := map[], {}, {}, {}, None;
    }

    /** The composed stream function: choose a member for the attempt, and note where a failure could go. */
    method Resolve(members: seq<Member>, env: Env) returns (choice: Choice)
      requires members != []
      modifies this
      ensures var d := Dispatch(members, env, old(Now()));
        Now() == d.pass && served == Some(d.served) && choice == d.choice
    {
      hide Choose;
      if |members| == 1 {
        var only := members[0];
        var count := Used(Now(), only.healthKey) + 1;
        attempts := attempts[only.healthKey := count];
        served := Some(Served(only.healthKey, only.failureGroup, count >= env.quota, false, false, false));
        return Choice(0, Primary);
      }
      var base := BaseDeps(env, Now());
      choice := ChooseChainMember(members, PassDeps(env, Now()));
      if attempts != map[] && choice.reason.AllUnhealthy? {
        var again := ChooseChainMember(members, base);
        if !again.reason.AllUnhealthy? {
          attempts := map[];
          failedGroups := {};
          choice := again;
        }
      }
      var m := members[choice.index];
      var used := Used(Now(), m.healthKey) + 1;
      attempts := attempts[m.healthKey := used];
      var next := ChooseChainMember(members, PassDeps(env, Now()));
      var onFailure := ChooseChainMember(members, base.(excluded := excluded + {m.healthKey}));
      var onRefusal := ChooseChainMember(members, base.(refused := refused + {m.healthKey}));
      served := Some(Served(m.healthKey, m.failureGroup, used >= env.quota,
                            !next.reason.AllUnhealthy? && members[next.index].healthKey != m.healthKey,
                            !onFailure.reason.AllUnhealthy?, !onRefusal.reason.AllUnhealthy?));
    }
  }

  /** The health keys of a chain. */
  function Keys(members: seq<Member>): set<string> {
    set m | m in members :: m.healthKey
  }

  /**
   * Another member can take the request only if the one just served was neither refused nor excluded: so
   * every fallover rules out a key that was still open.
   */
  lemma FalloverNeedsOpenServed(members: seq<Member>, env: Env, pass: Pass)
    requires members != []
    ensures var s := Dispatch(members, env, pass).served;
      && s.key in Keys(members)
      && (s.falloverAvailable || s.refusalFalloverAvailable ==> s.key !in pass.refused && s.key !in pass.excluded)
  {
    hide Choose;
    if |members| > 1 {
      var d := Dispatch(members, env, pass);
      var m := members[d.choice.index];
      var base := BaseDeps(env, pass);
      var a := base.(excluded := pass.excluded + {m.healthKey});
      var b := base.(refused := pass.refused + {m.healthKey});
      AvailableMeansOpen(members, a);
      AvailableMeansOpen(members, b);
      if d.served.falloverAvailable || d.served.refusalFalloverAvailable {
        var j :| 0 <= j < |members| && (Open(members[j], a) || Open(members[j], b));
        OpenLess(members[j], base, a);
        OpenLess(members[j], base, b);
        NeverRuledOut(members, base, j);
        NeverRuledOut(members, PassDeps(env, pass), j);
      }
    }
  }

  /** What a choice depends on when quotas and failed groups do not count. */
  function Unmetered(env: Env, refused: set<string>, excluded: set<string>): Deps {
    Deps(env.view, {}, env.observed, None, env.quota, refused, excluded, {})
  }

  /** And when those of the pass do. */
  function Metered(env: Env, pass: Pass): Deps {
    Deps(env.view, {}, env.observed, Some(pass.attempts), env.quota, pass.refused, pass.excluded, pass.failedGroups)
  }

  /**
   * Another member can take the request over after a failure, or after a refusal, exactly when one could serve with
   * the served key ruled out, quotas and failed groups aside; and the next attempt would go elsewhere exactly when
   * another key serves then.
   */
  lemma FalloverExactlyWhen(members: seq<Member>, env: Env, pass: Pass)
    requires |members| > 1
    ensures var d := Dispatch(members, env, pass);
      && (d.served.falloverAvailable <==>
            Servable(members, Unmetered(env, pass.refused, pass.excluded + {d.served.key})))
      && (d.served.refusalFalloverAvailable <==>
            Servable(members, Unmetered(env, pass.refused + {d.served.key}, pass.excluded)))
      && (d.served.failoverOnFailure <==>
            && Servable(members, Metered(env, d.pass))
            && exists i | 0 <= i < |members| ::
                 Serves(members, Metered(env, d.pass), i) && members[i].healthKey != d.served.key)
      && (d.served.exhausted <==> Used(d.pass, d.served.key) >= env.quota)
  {
    hide Choose, Servable, Serves;
    var d := Dispatch(members, env, pass);
    var base := BaseDeps(env, pass);
    ChooseServes(members, base.(excluded := pass.excluded + {d.served.key}));
    ChooseServes(members, base.(refused := pass.refused + {d.served.key}));
    ChooseServes(members, PassDeps(env, d.pass));
    assert Serves(members, PassDeps(env, d.pass), Choose(members, PassDeps(env, d.pass)).index)
      || !Servable(members, PassDeps(env, d.pass));
  }

  /**
   * An attempt goes to the member that serves in the pass; when none can, and one could in a new pass, a new pass
   * begins with it; else it is a last chance. The pass counts it.
   */
  lemma DispatchServes(members: seq<Member>, env: Env, pass: Pass)
    requires |members| > 1
    ensures var d := Dispatch(members, env, pass);
      var key := members[d.choice.index].healthKey;
      var again := pass.(attempts := map[key := 1], failedGroups := {});
      var onward := pass.(attempts := pass.attempts[key := Used(pass, key) + 1]);
      && d.served.key == key && d.served.group == members[d.choice.index].failureGroup
      && if Servable(members, Metered(env, pass)) then
           Serves(members, Metered(env, pass), d.choice.index) && d.pass == onward
         else if pass.attempts != map[] && Servable(members, Unmetered(env, pass.refused, pass.excluded)) then
           Serves(members, Unmetered(env, pass.refused, pass.excluded), d.choice.index) && d.pass == again
         else d.choice.reason.AllUnhealthy? && d.pass == onward
  {
    hide Choose, Servable, Serves;
    ChooseServes(members, PassDeps(env, pass));
    ChooseServes(members, BaseDeps(env, pass));
  }

  /** A chain of one never falls over. */
  lemma OneNeverFallsOver(m: Member, env: Env, pass: Pass)
    ensures var s := Dispatch([m], env, pass).served;
      && s.key == m.healthKey
      && !s.falloverAvailable && !s.refusalFalloverAvailable && !s.failoverOnFailure
  {
  }

  lemma OpenLess(m: Member, d: Deps, e: Deps)
    requires d.refused <= e.refused && d.excluded <= e.excluded
    ensures Open(m, e) ==> Open(m, d)
  {
  }

  lemma AvailableMeansOpen(members: seq<Member>, d: Deps)
    requires members != []
    ensures Availability(members, d) ==> exists j :: 0 <= j < |members| && Open(members[j], d)
  {
    ChoiceIsRight(members, d);
  }

  // ---------------------------------------------------------------------------
  // Passes
  // ---------------------------------------------------------------------------

  /** What happens to a pass: an attempt is sent, failures leave their marks, or a rule starts the request over. */
  datatype PassStep =
    | Send(env: Env)
    | Mark(failedGroups: set<string>, refused: set<string>, excluded: set<string>)
    | Redo

  function Stepped(members: seq<Member>, pass: Pass, step: PassStep): Pass
    requires members != []
  {
    match step
    case Send(env) => Dispatch(members, env, pass).pass
    case Mark(groups, refused, excluded) => Pass(pass.attempts, groups, refused, excluded)
    case Redo => pass.(attempts := map[], refused := {})
  }

  /** A request's pass after the steps. */
  function PassOf(members: seq<Member>, steps: seq<PassStep>): Pass
    requires members != []
  {
    if steps == [] then NEW_PASS else Stepped(members, PassOf(members, steps[..|steps| - 1]), steps[|steps| - 1])
  }

  ghost predicate QuotaIs(steps: seq<PassStep>, quota: nat) {
    forall k | 0 <= k < |steps| && steps[k].Send? :: steps[k].env.quota == quota
  }

  /** The attempts of the present pass that went to the member because no member was viable. */
  function Desperate(members: seq<Member>, steps: seq<PassStep>, key: string): nat
    requires members != []
  {
    if steps == [] then 0 else
      var init := steps[..|steps| - 1];
      var before := Desperate(members, init, key);
      match steps[|steps| - 1]
      case Send(env) =>
        var d := Dispatch(members, env, PassOf(members, init));
        (if StartsOver(members, env, PassOf(members, init)) then 0 else before)
        + (if d.choice.reason.AllUnhealthy? && d.served.key == key then 1 else 0)
      case Mark(_, _, _) => before
      case Redo => 0
  }

  /** One dispatch counts one attempt, on the member it serves, and an attempt past the quota is a desperate one. */
  lemma DispatchCounts(members: seq<Member>, env: Env, pass: Pass, key: string)
    requires |members| > 1
    ensures var d, over := Dispatch(members, env, pass), StartsOver(members, env, pass);
      && Used(d.pass, key) == (if over then 0 else Used(pass, key)) + (if d.served.key == key then 1 else 0)
      && (!over && !d.choice.reason.AllUnhealthy? && d.served.key == key ==> Used(d.pass, key) <= env.quota)
      && (over ==> !d.choice.reason.AllUnhealthy?)
  {
    hide Target, HeadReason;
    ChoiceIsRight(members, PassDeps(env, pass));
  }

  /**
   * In every reachable pass, however often it was started over, a member has at most the quota of attempts, the same
   * for the head and the others, beyond those it got because no member at all was viable.
   */
  lemma {:induction false} WithinQuota(members: seq<Member>, quota: nat, steps: seq<PassStep>, key: string)
    requires |members| > 1 && QuotaIs(steps, quota)
    ensures Used(PassOf(members, steps), key) <= (if quota > 1 then quota else 1) + Desperate(members, steps, key)
  {
    hide Dispatch, StartsOver;
    if steps != [] {
      var init, last := steps[..|steps| - 1], steps[|steps| - 1];
      WithinQuota(members, quota, init, key);
      if last.Send? { DispatchCounts(members, last.env, PassOf(members, init), key); }
    }
  }

  /** One attempt per pass for every member but the head, no desperate ones counted. */
  ghost predicate OneEach(members: seq<Member>, steps: seq<PassStep>)
    requires members != []
  {
    forall j | 0 < j < |members| && members[j].healthKey != members[0].healthKey ::
      Used(PassOf(members, steps), members[j].healthKey) <= 1 + Desperate(members, steps, members[j].healthKey)
  }

  ghost predicate OneEachAlways(quota: nat) {
    forall members: seq<Member>, steps: seq<PassStep> | |members| > 1 && QuotaIs(steps, quota) ::
      OneEach(members, steps)
  }

  const HEAD: Member := Member("head", "head", 0, None)
  const SPARE: Member := Member("spare", "spare", 0, None)

  /** With the head down and a quota of two or more, the next member gets two attempts in one pass. */
  lemma ServedTwice(quota: nat)
    requires quota >= 2
    ensures var send := Send(Env(View({"head"}, {}, {}, {}), None, quota));
      QuotaIs([send, send], quota) && !OneEach([HEAD, SPARE], [send, send])
  {
    hide Dispatch;
    var members := [HEAD, SPARE];
    var env := Env(View({"head"}, {}, {}, {}), None, quota);
    var steps := [Send(env), Send(env)];
    SpareServes(env, NEW_PASS);
    SentOnce(members, Send(env));
    SpareServes(env, PassOf(members, [Send(env)]));
    assert steps[..1] == [Send(env)];
    assert Desperate(members, steps, "spare") == Desperate(members, [Send(env)], "spare") == 0;
    assert Used(PassOf(members, steps), members[1].healthKey) == 2;
  }

  lemma SentOnce(members: seq<Member>, step: PassStep)
    requires members != []
    ensures PassOf(members, [step]) == Stepped(members, NEW_PASS, step)
    ensures step.Send? ==>
      var d := Dispatch(members, step.env, NEW_PASS);
      Desperate(members, [step], d.served.key) == if d.choice.reason.AllUnhealthy? then 1 else 0
  {
    hide Dispatch, StartsOver;
    assert [step][..0] == [];
  }

  lemma SpareServes(env: Env, pass: Pass)
    requires env.view == View({"head"}, {}, {}, {}) && env.observed == None && Used(pass, "spare") < env.quota
    requires pass.refused == {} && pass.excluded == {} && pass.failedGroups == {}
    ensures var d := Dispatch([HEAD, SPARE], env, pass);
      && d.served.key == "spare" && !d.choice.reason.AllUnhealthy?
      && !StartsOver([HEAD, SPARE], env, pass)
      && d.pass == pass.(attempts := pass.attempts["spare" := Used(pass, "spare") + 1])
  {
    hide Target, HeadReason;
    var members, d := [HEAD, SPARE], PassDeps(env, pass);
    assert Viable(members[1], d) && !Viable(members[0], d);
    ChoiceIsRight(members, d);
  }

  /** One attempt per pass for the members after the head is a rule of the code exactly for a quota of at most one. */
  lemma OneEachExactlyWhen(quota: nat)
    ensures OneEachAlways(quota) <==> quota <= 1
  {
    if quota <= 1 {
      forall members: seq<Member>, steps: seq<PassStep> | |members| > 1 && QuotaIs(steps, quota)
        ensures OneEach(members, steps)
      {
        forall j | 0 < j < |members| && members[j].healthKey != members[0].healthKey
          ensures Used(PassOf(members, steps), members[j].healthKey)
            <= 1 + Desperate(members, steps, members[j].healthKey)
        {
          WithinQuota(members, quota, steps, members[j].healthKey);
        }
      }
    } else {
      ServedTwice(quota);
    }
  }

  // ---------------------------------------------------------------------------
  // Fetch consumers
  // ---------------------------------------------------------------------------

  datatype FetchOutcome = Got | Environmental | ContentError | Skip | Threw | AbortThrown | NotAdmitted

  /** One iteration: what the resolver reads, and how the attempt ends. */
  datatype Round = Round(view: View, outcome: FetchOutcome)

  datatype Verdict = Clean | Strike | Neutral

  datatype FetchEvent =
    | Acquired(member: nat)
    | Attempted(member: nat)
    | Noted(member: nat, verdict: Verdict)
    | Released(member: nat)

  datatype FetchEnd = Value(member: nat) | Rethrown | CallerAborted | AllFailed

  datatype FetchRun = FetchRun(log: seq<FetchEvent>, end: FetchEnd)

  function FetchDeps(view: View, tried: set<string>): Deps {
    Deps(view, tried, None, None, 2, {}, {}, {})
  }

  function FetchChoice(members: seq<Member>, view: View, tried: set<string>): (r: nat)
    requires members != []
    ensures r < |members|
  {
    if |members| == 1 then 0 else Choose(members, FetchDeps(view, tried)).index
  }

  function NotedBy(i: nat, outcome: FetchOutcome): seq<FetchEvent> {
    match outcome
    case AbortThrown => []
    case NotAdmitted => []
    case Got => [Noted(i, Clean)]
    case Environmental => [Noted(i, Strike)]
    case Threw => [Noted(i, Strike)]
    case _ => [Noted(i, Neutral)]
  }

  /** What one attempt does to the slot and the model's health. */
  function RoundLog(i: nat, outcome: FetchOutcome): seq<FetchEvent> {
    if outcome.NotAdmitted? then [] else
      [Acquired(i), Attempted(i)] + NotedBy(i, outcome) + [Released(i)]
  }

  predicate Continues(outcome: FetchOutcome) {
    outcome.Environmental? || outcome.Skip? || outcome.Threw?
  }

  function EndOf(i: nat, outcome: FetchOutcome): FetchEnd {
    match outcome
    case Got => Value(i)
    case AbortThrown => CallerAborted
    case _ => Rethrown
  }

  /** The loop over the chain: `rounds` are the iterations still allowed. */
  function Fetch(members: seq<Member>, rounds: seq<Round>, tried: set<string>): FetchRun
    requires members != []
    decreases |rounds|
  {
    if rounds == [] then FetchRun([], AllFailed) else
      var i := FetchChoice(members, rounds[0].view, tried);
      if members[i].logicalId in tried then FetchRun([], AllFailed)
      else if Continues(rounds[0].outcome) then
        var rest := Fetch(members, rounds[1..], tried + {members[i].logicalId});
        After(RoundLog(i, rounds[0].outcome), rest)
      else FetchRun(RoundLog(i, rounds[0].outcome), EndOf(i, rounds[0].outcome))
  }

  /** What happened before, then the run. */
  function After(log: seq<FetchEvent>, run: FetchRun): FetchRun {
    run.(log := log + run.log)
  }

  lemma AfterBoth(a: seq<FetchEvent>, b: seq<FetchEvent>, run: FetchRun)
    ensures After(a, After(b, run)) == After(a + b, run)
    ensures After(a, FetchRun([], run.end)) == FetchRun(a, run.end)
  {
    assert a + (b + run.log) == (a + b) + run.log;
    assert a + [] == a;
  }

  /**
   * One slot at a time, taken for the attempt that follows and given back once, after it; `held` is the slot in
   * hand at the end of the log.
   */
  ghost predicate Holds(log: seq<FetchEvent>, held: Option<nat>) {
    if log == [] then held == None else
      var init := log[..|log| - 1];
      match log[|log| - 1]
      case Acquired(i) => held == Some(i) && Holds(init, None)
      case Attempted(i) => held == Some(i) && Holds(init, held)
      case Noted(i, _) => held == Some(i) && Holds(init, held)
      case Released(i) => held == None && Holds(init, Some(i))
  }

  /** The slot an event needs in hand, and the one it leaves. */
  function Before(e: FetchEvent): Option<nat> {
    if e.Acquired? then None else Some(e.member)
  }

  function Leaves(e: FetchEvent): Option<nat> {
    if e.Released? then None else Some(e.member)
  }

  function Add(log: seq<FetchEvent>, e: FetchEvent): (r: seq<FetchEvent>)
    ensures r == log + [e]
    ensures Holds(log, Before(e)) ==> Holds(r, Leaves(e))
  {
    assert (log + [e])[..|log|] == log;
    log + [e]
  }

  /** One attempt: each way out of it notes the outcome and gives the slot back for itself. */
  method FetchAttempt(i: nat, outcome: FetchOutcome, before: seq<FetchEvent>)
    returns (log: seq<FetchEvent>, end: Option<FetchEnd>)
    requires Holds(before, None)
    ensures Holds(log, None)
    ensures log == before + RoundLog(i, outcome)
    ensures end == if Continues(outcome) then None else Some(EndOf(i, outcome))
  {
    hide Holds;
    if outcome.NotAdmitted? {
      return before, Some(Rethrown);
    }
    log := Add(before, Acquired(i));
    log := Add(log, Attempted(i));
    match outcome {
      case AbortThrown =>
        log := Add(log, Released(i));
        return log, Some(CallerAborted);
      case Threw =>
        log := Add(log, Noted(i, Strike));
        log := Add(log, Released(i));
        return log, None;
      case Got =>
        log := Add(log, Noted(i, Clean));
        log := Add(log, Released(i));
        return log, Some(Value(i));
      case ContentError =>
        log := Add(log, Noted(i, Neutral));
        log := Add(log, Released(i));
        return log, Some(Rethrown);
      case Skip =>
        log := Add(log, Noted(i, Neutral));
        log := Add(log, Released(i));
        return log, None;
      case Environmental =>
        log := Add(log, Noted(i, Strike));
        log := Add(log, Released(i));
        return log, None;
      case NotAdmitted => assert false;
    }
  }

  method RunFetchWithFallback(members: seq<Member>, rounds: seq<Round>) returns (run: FetchRun)
    requires members != [] && |rounds| == |members|
    ensures Holds(run.log, None)
    ensures run == Fetch(members, rounds, {})
  {
    hide Choose, Holds, RoundLog, EndOf, Continues;
    var tried: set<string> := {};
    var log: seq<FetchEvent> := [];
    var n := 0;
    NothingHeld();
    assert rounds[0..] == rounds && [] + Fetch(members, rounds, {}).log == Fetch(members, rounds, {}).log;
    while n < |members|
      invariant n <= |members| && Holds(log, None)
      invariant Fetch(members, rounds, {}) == After(log, Fetch(members, rounds[n..], tried))
    {
      var round := rounds[n];
      assert rounds[n..][0] == round && rounds[n..][1..] == rounds[n + 1..];
      var i := 0;
      if |members| != 1 {
        var choice := ChooseChainMember(members, FetchDeps(round.view, tried));
        i := choice.index;
      }
      var m := members[i];
      AfterBoth(log, RoundLog(i, round.outcome), Fetch(members, rounds[n + 1..], tried + {m.logicalId}));
      if m.logicalId in tried {
        AfterBoth(log, [], FetchRun([], AllFailed));
        return FetchRun(log, AllFailed);
      }
      tried := tried + {m.logicalId};
      var end;
      log, end := FetchAttempt(i, round.outcome, log);
      if end.Some? {
        return FetchRun(log, end.value);
      }
      n := n + 1;
    }
    AfterBoth(log, [], FetchRun([], AllFailed));
    return FetchRun(log, AllFailed);
  }

  lemma NothingHeld()
    ensures Holds([], None)
  {
  }

  /** The members attempted, in order. */
  function Attempts(log: seq<FetchEvent>): seq<nat> {
    if log == [] then [] else
      Attempts(log[..|log| - 1]) + (if log[|log| - 1].Attempted? then [log[|log| - 1].member] else [])
  }

  lemma {:induction false} HoldsConcat(a: seq<FetchEvent>, b: seq<FetchEvent>, held: Option<nat>)
    requires Holds(a, None) && Holds(b, held)
    ensures Holds(a + b, held)
  {
    if b == [] {
      assert a + b == a;
    } else {
      var init := b[..|b| - 1];
      assert (a + b)[..|a + b| - 1] == a + init;
      HoldsConcat(a, init, Before(b[|b| - 1]));
    }
  }

  lemma {:induction false} AttemptsConcat(a: seq<FetchEvent>, b: seq<FetchEvent>)
    ensures Attempts(a + b) == Attempts(a) + Attempts(b)
  {
    if b == [] {
      assert a + b == a;
    } else {
      assert (a + b)[..|a + b| - 1] == a + b[..|b| - 1];
      AttemptsConcat(a, b[..|b| - 1]);
    }
  }

  lemma RoundHolds(i: nat, outcome: FetchOutcome)
    ensures Holds(RoundLog(i, outcome), None)
  {
    hide Holds;
    NothingHeld();
    if !outcome.NotAdmitted? {
      var sent := Add(Add([], Acquired(i)), Attempted(i));
      if outcome.AbortThrown? {
        assert RoundLog(i, outcome) == Add(sent, Released(i));
      } else {
        assert RoundLog(i, outcome) == Add(Add(sent, NotedBy(i, outcome)[0]), Released(i));
      }
    }
  }

  lemma RoundAttempts(i: nat, outcome: FetchOutcome)
    ensures Attempts(RoundLog(i, outcome)) == if outcome.NotAdmitted? then [] else [i]
  {
    hide Attempts;
    NothingAttempted();
    if !outcome.NotAdmitted? {
      var sent, noted := [Acquired(i), Attempted(i)], NotedBy(i, outcome);
      assert [] + [Acquired(i)] == [Acquired(i)] && [Acquired(i)] + [Attempted(i)] == sent;
      AddAttempt([], Acquired(i));
      AddAttempt([Acquired(i)], Attempted(i));
      if noted == [] {
        assert sent + noted == sent;
      } else {
        assert noted == [noted[0]];
        AddAttempt(sent, noted[0]);
      }
      AddAttempt(sent + noted, Released(i));
    }
  }

  lemma NothingAttempted()
    ensures Attempts([]) == []
  {
  }

  lemma AddAttempt(log: seq<FetchEvent>, e: FetchEvent)
    ensures Attempts(log + [e]) == Attempts(log) + if e.Attempted? then [e.member] else []
  {
    assert (log + [e])[..|log|] == log;
  }

  lemma RoundIsBracketed(i: nat, outcome: FetchOutcome, rest: seq<FetchEvent>)
    requires Holds(rest, None)
    ensures Holds(RoundLog(i, outcome) + rest, None)
    ensures Attempts(RoundLog(i, outcome) + rest) == (if outcome.NotAdmitted? then [] else [i]) + Attempts(rest)
  {
    RoundHolds(i, outcome);
    RoundAttempts(i, outcome);
    HoldsConcat(RoundLog(i, outcome), rest, None);
    AttemptsConcat(RoundLog(i, outcome), rest);
  }

  ghost predicate FreshIds(members: seq<Member>, attempts: seq<nat>, tried: set<string>) {
    && (forall k | 0 <= k < |attempts| :: attempts[k] < |members| && members[attempts[k]].logicalId !in tried)
    && (forall j, k | 0 <= j < k < |attempts| && attempts[j] < |members| && attempts[k] < |members| ::
          members[attempts[j]].logicalId != members[attempts[k]].logicalId)
  }

  lemma FreshIdsStep(members: seq<Member>, i: nat, rest: seq<nat>, tried: set<string>)
    requires i < |members| && members[i].logicalId !in tried && FreshIds(members, rest, tried + {members[i].logicalId})
    ensures FreshIds(members, [i] + rest, tried)
  {
  }

  /** A call attempts each member at most once, and gives back every slot it took, once, before the next. */
  lemma {:induction false} FetchAttemptsOnce(members: seq<Member>, rounds: seq<Round>, tried: set<string>)
    requires members != []
    ensures var run := Fetch(members, rounds, tried);
      Holds(run.log, None) && FreshIds(members, Attempts(run.log), tried)
    decreases |rounds|
  {
    if rounds != [] {
      var i := FetchChoice(members, rounds[0].view, tried);
      var id, outcome := members[i].logicalId, rounds[0].outcome;
      if id !in tried {
        if Continues(outcome) {
          var rest := Fetch(members, rounds[1..], tried + {id});
          FetchAttemptsOnce(members, rounds[1..], tried + {id});
          RoundIsBracketed(i, outcome, rest.log);
          FreshIdsStep(members, i, Attempts(rest.log), tried);
        } else {
          RoundIsBracketed(i, outcome, []);
          assert RoundLog(i, outcome) + [] == RoundLog(i, outcome);
        }
      }
    }
  }

  /** The call's outcome: which round ended it, and that every round before moved on. */
  lemma {:induction false} FetchEndsRight(members: seq<Member>, rounds: seq<Round>, tried: set<string>)
    requires members != []
    ensures var run := Fetch(members, rounds, tried);
      !run.end.AllFailed? ==>
        exists k | 0 <= k < |rounds| ::
          && (forall j | 0 <= j < k :: MovesOn(rounds[j].outcome))
          && !MovesOn(rounds[k].outcome)
          && (run.end.Value? <==> rounds[k].outcome.Got?)
          && (run.end.CallerAborted? <==> rounds[k].outcome.AbortThrown?)
          && (run.end.Rethrown? <==> rounds[k].outcome.ContentError? || rounds[k].outcome.NotAdmitted?)
    ensures var run := Fetch(members, rounds, tried);
      run.end.AllFailed? ==> forall k | 0 <= k < |Attempts(run.log)| && k < |rounds| :: MovesOn(rounds[k].outcome)
    decreases |rounds|
  {
    hide Choose;
    if rounds != [] {
      var i := FetchChoice(members, rounds[0].view, tried);
      var id, outcome := members[i].logicalId, rounds[0].outcome;
      if id !in tried {
        if MovesOn(outcome) {
          var rest := Fetch(members, rounds[1..], tried + {id});
          FetchEndsRight(members, rounds[1..], tried + {id});
          FetchAttemptsOnce(members, rounds[1..], tried + {id});
          RoundIsBracketed(i, outcome, rest.log);
          if !rest.end.AllFailed? {
            var k :| 0 <= k < |rounds[1..]| && (forall j | 0 <= j < k :: MovesOn(rounds[1..][j].outcome))
              && !MovesOn(rounds[1..][k].outcome)
              && (rest.end.Value? <==> rounds[1..][k].outcome.Got?)
              && (rest.end.CallerAborted? <==> rounds[1..][k].outcome.AbortThrown?)
              && (rest.end.Rethrown? <==> rounds[1..][k].outcome.ContentError? || rounds[1..][k].outcome.NotAdmitted?);
            assert rounds[k + 1] == rounds[1..][k];
            forall j | 0 <= j < k + 1 ensures MovesOn(rounds[j].outcome) {
              if j > 0 { assert rounds[j] == rounds[1..][j - 1]; }
            }
          } else {
            forall k | 0 <= k < |Attempts(rest.log)| + 1 && k < |rounds| ensures MovesOn(rounds[k].outcome) {
              if k > 0 { assert rounds[k] == rounds[1..][k - 1]; }
            }
          }
        } else {
          assert !MovesOn(rounds[0].outcome);
        }
      }
    }
  }

  /** An environmental failure, a throw and a skip leave the call to the next member. */
  predicate MovesOn(outcome: FetchOutcome) {
    match outcome
    case Environmental => true
    case Threw => true
    case Skip => true
    case Got => false
    case ContentError => false
    case AbortThrown => false
    case NotAdmitted => false
  }

  /** A fetch notes a success, a strike for an environmental failure or a throw, and nothing of weight otherwise. */
  lemma RoundNotes(i: nat, outcome: FetchOutcome, verdict: Verdict)
    ensures Noted(i, verdict) in RoundLog(i, outcome) <==>
      match outcome
      case Got => verdict == Clean
      case Environmental => verdict == Strike
      case Threw => verdict == Strike
      case ContentError => verdict == Neutral
      case Skip => verdict == Neutral
      case AbortThrown => false
      case NotAdmitted => false
  {
    if Noted(i, verdict) in NotedBy(i, outcome) {
      assert Noted(i, verdict) == NotedBy(i, outcome)[0];
    }
    if NotedBy(i, outcome) != [] {
      assert RoundLog(i, outcome)[2] == NotedBy(i, outcome)[0];
    }
  }

  function IdsOf(members: seq<Member>, attempts: seq<nat>): set<string> {
    set k | 0 <= k < |attempts| && attempts[k] < |members| :: members[attempts[k]].logicalId
  }

  /**
   * A call gives up only when its rounds, one per member, are used up, or when at its next choice no member left
   * untried is viable.
   */
  lemma {:induction false} FetchGivesUpLast(members: seq<Member>, rounds: seq<Round>, tried: set<string>)
    requires |members| > 1 && Fetch(members, rounds, tried).end.AllFailed?
    ensures var attempts := Attempts(Fetch(members, rounds, tried).log);
      && |attempts| <= |rounds|
      && (|attempts| == |rounds| ||
          forall j | 0 <= j < |members| ::
            !Viable(members[j], FetchDeps(rounds[|attempts|].view, tried + IdsOf(members, attempts))))
    decreases |rounds|
  {
    hide Choose, Holds, RoundLog, FreshIds;
    if rounds != [] {
      var i := FetchChoice(members, rounds[0].view, tried);
      var id := members[i].logicalId;
      if id in tried {
        ChoiceIsRight(members, FetchDeps(rounds[0].view, tried));
        assert tried + IdsOf(members, []) == tried;
      } else {
        var rest := Fetch(members, rounds[1..], tried + {id});
        FetchAttemptsOnce(members, rounds[1..], tried + {id});
        RoundIsBracketed(i, rounds[0].outcome, rest.log);
        FetchGivesUpLast(members, rounds[1..], tried + {id});
        IdsOfMore(members, i, Attempts(rest.log));
        assert (tried + {id}) + IdsOf(members, Attempts(rest.log)) == tried + IdsOf(members, [i] + Attempts(rest.log));
      }
    }
  }

  lemma IdsOfMore(members: seq<Member>, i: nat, rest: seq<nat>)
    requires i < |members|
    ensures IdsOf(members, [i] + rest) == {members[i].logicalId} + IdsOf(members, rest)
  {
    var all := [i] + rest;
    assert all[0] == i;
    forall x | x in IdsOf(members, rest) ensures x in IdsOf(members, all) {
      var k :| 0 <= k < |rest| && rest[k] < |members| && members[rest[k]].logicalId == x;
      assert all[k + 1] == rest[k];
    }
  }
}
