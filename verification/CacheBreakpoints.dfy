/** Prompt-cache breakpoints of a chat-completions request: where they go, and that the next request repeats them. */
module CacheBreakpoints {
  import opened Transcript

  datatype Role = System | Developer | UserRole | AssistantRole | OtherRole

  datatype Part = TextPart(text: string, marked: bool) | OtherPart(kind: string)

  datatype Content = Plain(text: string) | Parts(parts: seq<Part>) | NoContent

  datatype ChatMessage = ChatMessage(role: Role, content: Content)

  /** The text patterns and the token estimate, whatever they are. */
  datatype Reader = Reader(summary: string -> bool, trigger: string -> bool, estimate: string -> nat)

  const MIN_CUMULATIVE_TOKENS: nat := 1024

  function PartsText(parts: seq<Part>): string {
    if parts == [] then []
    else PartsText(parts[..|parts| - 1]) + (if parts[|parts| - 1].TextPart? then parts[|parts| - 1].text else [])
  }

  function TextOf(m: ChatMessage): string {
    match m.content
    case Plain(text) => text
    case Parts(parts) => PartsText(parts)
    case NoContent => []
  }

  // ---------------------------------------------------------------------------
  // Marking a message
  // ---------------------------------------------------------------------------

  /** The last text part that is not empty. */
  function LastText(parts: seq<Part>): (r: Option<nat>)
    ensures r.Some? ==> r.value < |parts| && parts[r.value].TextPart?
  {
    if parts == [] then None
    else
      var p := parts[|parts| - 1];
      if p.TextPart? && p.text != [] then Some(|parts| - 1) else LastText(parts[..|parts| - 1])
  }

  /** The message with the marker on its last text part; `None` when it has none. */
  function Marked(m: ChatMessage): Option<ChatMessage> {
    match m.content
    case Plain(text) => if text == [] then None else Some(m.(content := Parts([TextPart(text, true)])))
    case Parts(parts) =>
      var k := LastText(parts);
      if k.None? then None
      else Some(m.(content := Parts(parts[k.value := TextPart(parts[k.value].text, true)])))
    case NoContent => None
  }

  method MarkChatMessage(m: ChatMessage) returns (marked: Option<ChatMessage>)
    ensures marked == Marked(m)
  {
    if m.content.Plain? {
      if m.content.text == [] {
        return None;
      }
      return Some(m.(content := Parts([TextPart(m.content.text, true)])));
    }
    if !m.content.Parts? {
      return None;
    }
    var parts := m.content.parts;
    var i := |parts|;
    assert parts[..i] == parts;
    while i > 0
      invariant i <= |parts| && LastText(parts[..i]) == LastText(parts)
    {
      assert parts[..i][..i - 1] == parts[..i - 1];
      if parts[i - 1].TextPart? && parts[i - 1].text != [] {
        return Some(m.(content := Parts(parts[i - 1 := TextPart(parts[i - 1].text, true)])));
      }
      i := i - 1;
    }
    return None;
  }

  // ---------------------------------------------------------------------------
  // The positions
  // ---------------------------------------------------------------------------

  predicate IsSummary(r: Reader, m: ChatMessage) {
    m.role.UserRole? && r.summary(TextOf(m))
  }

  predicate IsTrigger(r: Reader, m: ChatMessage) {
    m.role.UserRole? && r.trigger(TextOf(m))
  }

  /** The first trigger of the messages. */
  function TriggerAt(r: Reader, ms: seq<ChatMessage>): (t: Option<nat>)
    ensures t.Some? ==> t.value < |ms| && IsTrigger(r, ms[t.value])
  {
    if ms == [] then None
    else
      var before := TriggerAt(r, ms[..|ms| - 1]);
      if before.Some? then before else if IsTrigger(r, ms[|ms| - 1]) then Some(|ms| - 1) else None
  }

  /** The first summary, up to the trigger. */
  function SummaryAt(r: Reader, ms: seq<ChatMessage>): (s: Option<nat>)
    ensures s.Some? ==> s.value < |ms| && ms[s.value].role.UserRole?
  {
    if ms == [] then None
    else
      var init := ms[..|ms| - 1];
      var before := SummaryAt(r, init);
      if before.Some? || TriggerAt(r, init).Some? then before
      else if IsSummary(r, ms[|ms| - 1]) then Some(|ms| - 1) else None
  }

  /** The `n`-th user message before `i`, going back. */
  function UserBefore(ms: seq<ChatMessage>, i: nat, n: nat): (r: Option<nat>)
    requires i <= |ms| && n > 0
    ensures r.Some? ==> r.value < i && ms[r.value].role.UserRole?
  {
    if i == 0 then None
    else if !ms[i - 1].role.UserRole? then UserBefore(ms, i - 1, n)
    else if n == 1 then Some(i - 1)
    else UserBefore(ms, i - 1, n - 1)
  }

  /** The last timeline batch that the next session repeats: the second user message before the trigger. */
  function StableAt(r: Reader, ms: seq<ChatMessage>): (s: Option<nat>)
    ensures s.Some? ==> s.value < |ms| && ms[s.value].role.UserRole?
  {
    var t := TriggerAt(r, ms);
    if t.None? then None else
      var second := UserBefore(ms, t.value, 2);
      if second == SummaryAt(r, ms) then None else second
  }

  function SystemAt(ms: seq<ChatMessage>): Option<nat> {
    if ms != [] && (ms[0].role.System? || ms[0].role.Developer?) then Some(0) else None
  }

  function Tokens(r: Reader, ms: seq<ChatMessage>): nat {
    if ms == [] then 0 else Tokens(r, ms[..|ms| - 1]) + r.estimate(TextOf(ms[|ms| - 1]))
  }

  /** The last assistant message past the first message. */
  function LastAssistantAt(ms: seq<ChatMessage>): (r: Option<nat>)
    ensures r.Some? ==> 0 < r.value < |ms|
  {
    if |ms| <= 1 then None
    else if ms[|ms| - 1].role.AssistantRole? then Some(|ms| - 1)
    else LastAssistantAt(ms[..|ms| - 1])
  }

  /** Where the previous request ended: just before the last assistant message. */
  function PreviousEnd(ms: seq<ChatMessage>): (r: Option<nat>)
    ensures r.Some? ==> r.value < |ms|
  {
    var a := LastAssistantAt(ms);
    if a.Some? && !ms[a.value - 1].role.AssistantRole? then Some(a.value - 1) else None
  }

  /** A position whose prefix is long enough. */
  function Counted(r: Reader, ms: seq<ChatMessage>, at: Option<nat>): set<nat>
    requires at.Some? ==> at.value < |ms|
  {
    if at.Some? && Tokens(r, ms[..at.value + 1]) >= MIN_CUMULATIVE_TOKENS then {at.value} else {}
  }

  predicate Large(r: Reader, ms: seq<ChatMessage>) {
    Tokens(r, ms) >= MIN_CUMULATIVE_TOKENS
  }

  /** The system, summary and stable positions, and the last message: what the next request should repeat. */
  function Lasting(r: Reader, ms: seq<ChatMessage>): set<nat>
    requires ms != []
  {
    Counted(r, ms, SystemAt(ms)) + Counted(r, ms, SummaryAt(r, ms)) + Counted(r, ms, StableAt(r, ms))
    + (if Large(r, ms) then {|ms| - 1} else {})
  }

  function Targets(r: Reader, ms: seq<ChatMessage>): set<nat>
    requires ms != []
  {
    Lasting(r, ms) + (if Large(r, ms) && PreviousEnd(ms).Some? then {PreviousEnd(ms).value} else {})
  }

  function InjectedAt(m: ChatMessage, target: bool): ChatMessage {
    if target && Marked(m).Some? then Marked(m).value else m
  }

  function Injected(r: Reader, ms: seq<ChatMessage>): (out: seq<ChatMessage>)
    ensures |out| == |ms|
  {
    if ms == [] then [] else
      var targets := Targets(r, ms);
      seq(|ms|, i requires 0 <= i < |ms| => InjectedAt(ms[i], i in targets))
  }

  // ---------------------------------------------------------------------------
  // The injector
  // ---------------------------------------------------------------------------

  method Scan(r: Reader, ms: seq<ChatMessage>) returns (summary: Option<nat>, trigger: Option<nat>)
    ensures summary == SummaryAt(r, ms) && trigger == TriggerAt(r, ms)
  {
    summary, trigger := None, None;
    var i := 0;
    while i < |ms|
      invariant i <= |ms|
      invariant summary == SummaryAt(r, ms[..i]) && trigger == TriggerAt(r, ms[..i]) == None
    {
      assert ms[..i + 1][..i] == ms[..i];
      if ms[i].role.UserRole? {
        var text := TextOf(ms[i]);
        if summary.None? && r.summary(text) {
          summary := Some(i);
        }
        if r.trigger(text) {
          trigger := Some(i);
          TriggerEnds(r, ms, i + 1);
          return;
        }
      }
      i := i + 1;
    }
    assert ms[..i] == ms;
  }

  method FindStable(ms: seq<ChatMessage>, trigger: Option<nat>, summary: Option<nat>) returns (stable: Option<nat>)
    requires trigger.Some? ==> trigger.value < |ms|
    ensures stable == if trigger.None? || UserBefore(ms, trigger.value, 2) == summary then None
                      else UserBefore(ms, trigger.value, 2)
  {
    stable := None;
    if trigger.None? {
      return;
    }
    var i: nat := trigger.value;
    var users := 0;
    while i > 0
      invariant i <= trigger.value && 0 <= users < 2
      invariant UserBefore(ms, i, 2 - users) == UserBefore(ms, trigger.value, 2)
    {
      if ms[i - 1].role.UserRole? {
        users := users + 1;
        if users == 2 {
          return if Some(i - 1) == summary then None else Some(i - 1);
        }
      }
      i := i - 1;
    }
  }

  method FindPreviousEnd(ms: seq<ChatMessage>) returns (end: Option<nat>)
    ensures end == PreviousEnd(ms)
  {
    var i := |ms|;
    assert ms[..i] == ms;
    while i > 1
      invariant i <= |ms| && LastAssistantAt(ms[..i]) == LastAssistantAt(ms)
    {
      assert ms[..i][..i - 1] == ms[..i - 1];
      if ms[i - 1].role.AssistantRole? {
        return if ms[i - 2].role.AssistantRole? then None else Some(i - 2);
      }
      i := i - 1;
    }
    return None;
  }

  /** The running token count up to and including every message. */
  method CumulativeTokens(r: Reader, ms: seq<ChatMessage>) returns (cumulative: seq<nat>)
    ensures |cumulative| == |ms| && forall i :: 0 <= i < |ms| ==> cumulative[i] == Tokens(r, ms[..i + 1])
  {
    cumulative := [];
    var running := 0;
    var i := 0;
    while i < |ms|
      invariant i <= |ms| && |cumulative| == i && running == Tokens(r, ms[..i])
      invariant forall j :: 0 <= j < i ==> cumulative[j] == Tokens(r, ms[..j + 1])
    {
      assert ms[..i + 1][..i] == ms[..i];
      running := running + r.estimate(TextOf(ms[i]));
      cumulative := cumulative + [running];
      i := i + 1;
    }
  }

  method FindTargets(r: Reader, ms: seq<ChatMessage>) returns (targets: set<nat>)
    requires ms != []
    ensures targets == Targets(r, ms)
  {
    hide Tokens, TriggerAt, SummaryAt, UserBefore, LastAssistantAt;
    var summary, trigger := Scan(r, ms);
    var stable := FindStable(ms, trigger, summary);
    var system := SystemAt(ms);
    var cumulative := CumulativeTokens(r, ms);
    assert ms[..|ms|] == ms;
    targets := {};
    if system.Some? && cumulative[system.value] >= MIN_CUMULATIVE_TOKENS {
      targets := targets + {system.value};
    }
    if summary.Some? && cumulative[summary.value] >= MIN_CUMULATIVE_TOKENS {
      targets := targets + {summary.value};
    }
    if stable.Some? && cumulative[stable.value] >= MIN_CUMULATIVE_TOKENS {
      targets := targets + {stable.value};
    }
    if cumulative[|ms| - 1] >= MIN_CUMULATIVE_TOKENS {
      targets := targets + {|ms| - 1};
      var end := FindPreviousEnd(ms);
      if end.Some? {
        targets := targets + {end.value};
      }
    }
  }

  method InjectChatCompletionsBreakpoints(r: Reader, ms: seq<ChatMessage>) returns (out: seq<ChatMessage>)
    ensures out == Injected(r, ms)
  {
    out := ms;
    if ms == [] {
      return;
    }
    var targets := FindTargets(r, ms);
    TargetsInRange(r, ms);
    var left := targets;
    while left != {}
      invariant left <= targets && |out| == |ms|
      invariant forall i | 0 <= i < |ms| :: out[i] == InjectedAt(ms[i], i in targets - left)
      decreases left
    {
      var k :| k in left;
      left := left - {k};
      var marked := MarkChatMessage(out[k]);
      if marked.Some? {
        out := out[k := marked.value];
      }
    }
    assert targets - left == targets;
  }

  lemma {:induction false} TriggerEnds(r: Reader, ms: seq<ChatMessage>, k: nat)
    requires k <= |ms| && TriggerAt(r, ms[..k]).Some?
    ensures TriggerAt(r, ms) == TriggerAt(r, ms[..k]) && SummaryAt(r, ms) == SummaryAt(r, ms[..k])
    decreases |ms|
  {
    if k == |ms| {
      assert ms[..k] == ms;
    } else {
      assert ms[..|ms| - 1][..k] == ms[..k];
      TriggerEnds(r, ms[..|ms| - 1], k);
    }
  }

  lemma TargetsInRange(r: Reader, ms: seq<ChatMessage>)
    requires ms != []
    ensures forall i | i in Targets(r, ms) :: i < |ms|
  {
  }

  // ---------------------------------------------------------------------------
  // Which positions these are
  // ---------------------------------------------------------------------------

  /** The user messages in a stretch of the list. */
  function Users(ms: seq<ChatMessage>): nat {
    if ms == [] then 0 else Users(ms[..|ms| - 1]) + (if ms[|ms| - 1].role.UserRole? then 1 else 0)
  }

  lemma {:induction false} TriggerIsFirst(r: Reader, ms: seq<ChatMessage>)
    ensures var t := TriggerAt(r, ms);
      && (t.Some? ==> IsTrigger(r, ms[t.value]) && forall j | 0 <= j < t.value :: !IsTrigger(r, ms[j]))
      && (t.None? ==> forall j | 0 <= j < |ms| :: !IsTrigger(r, ms[j]))
  {
    if ms != [] {
      var init := ms[..|ms| - 1];
      TriggerIsFirst(r, init);
      assert forall j | 0 <= j < |init| :: init[j] == ms[j];
    }
  }

  /** The messages the search for the summary reads: up to the first trigger. */
  ghost predicate Read(r: Reader, ms: seq<ChatMessage>, j: int) {
    0 <= j < |ms| && (TriggerAt(r, ms).Some? ==> j <= TriggerAt(r, ms).value)
  }

  lemma {:induction false} SummaryIsFirst(r: Reader, ms: seq<ChatMessage>)
    ensures var s := SummaryAt(r, ms);
      && (s.Some? ==> Read(r, ms, s.value) && IsSummary(r, ms[s.value])
                      && forall j | 0 <= j < s.value :: !IsSummary(r, ms[j]))
      && (s.None? ==> forall j | Read(r, ms, j) :: !IsSummary(r, ms[j]))
  {
    if ms != [] {
      var init := ms[..|ms| - 1];
      SummaryIsFirst(r, init);
      TriggerIsFirst(r, ms);
      assert forall j | 0 <= j < |init| :: init[j] == ms[j];
      assert forall j | Read(r, init, j) :: Read(r, ms, j);
      if TriggerAt(r, init).Some? { assert TriggerAt(r, ms) == TriggerAt(r, init); }
    }
  }

  /** `i` is a user message with exactly `n - 1` user messages between it and `t`. */
  ghost predicate NthUserBefore(ms: seq<ChatMessage>, t: nat, n: nat, i: int)
    requires t <= |ms|
  {
    0 <= i < t && ms[i].role.UserRole? && Users(ms[i + 1..t]) == n - 1
  }

  lemma NthStep(ms: seq<ChatMessage>, t: nat, n: nat, i: int)
    requires 0 < t <= |ms| && n > 0
    ensures !ms[t - 1].role.UserRole? ==> (NthUserBefore(ms, t, n, i) <==> NthUserBefore(ms, t - 1, n, i))
    ensures ms[t - 1].role.UserRole? && n > 1 ==> (NthUserBefore(ms, t, n, i) <==> NthUserBefore(ms, t - 1, n - 1, i))
    ensures ms[t - 1].role.UserRole? && n == 1 ==> (NthUserBefore(ms, t, n, i) <==> i == t - 1)
  {
    if 0 <= i < t - 1 {
      var all := ms[i + 1..t];
      assert all[..|all| - 1] == ms[i + 1..t - 1] && all[|all| - 1] == ms[t - 1];
    } else if i == t - 1 {
      assert ms[i + 1..t] == [];
    }
  }

  lemma {:induction false} UserBeforeIs(ms: seq<ChatMessage>, t: nat, n: nat, i: int)
    requires t <= |ms| && n > 0
    ensures (UserBefore(ms, t, n).Some? && UserBefore(ms, t, n).value == i) <==> NthUserBefore(ms, t, n, i)
    decreases t
  {
    if t > 0 {
      NthStep(ms, t, n, i);
      if !ms[t - 1].role.UserRole? {
        UserBeforeIs(ms, t - 1, n, i);
      } else if n > 1 {
        UserBeforeIs(ms, t - 1, n - 1, i);
      }
    }
  }

  /**
   * The stable position is the second user message before the first trigger, that is the one with exactly one user
   * message in between, unless it is the summary.
   */
  lemma StableIsSecondUser(r: Reader, ms: seq<ChatMessage>, i: nat)
    ensures StableAt(r, ms) == Some(i) <==>
      exists t | 0 <= t < |ms| && IsTrigger(r, ms[t]) && (forall j | 0 <= j < t :: !IsTrigger(r, ms[j])) ::
        NthUserBefore(ms, t, 2, i) && SummaryAt(r, ms) != Some(i)
  {
    hide UserBefore, NthUserBefore, SummaryAt;
    TriggerIsFirst(r, ms);
    var t := TriggerAt(r, ms);
    if t.Some? { UserBeforeIs(ms, t.value, 2, i); }
  }

  lemma {:induction false} LastAssistantIs(ms: seq<ChatMessage>)
    ensures var a := LastAssistantAt(ms);
      && (a.Some? ==> ms[a.value].role.AssistantRole? && forall j | a.value < j < |ms| :: !ms[j].role.AssistantRole?)
      && (a.None? ==> forall j | 0 < j < |ms| :: !ms[j].role.AssistantRole?)
  {
    if |ms| > 1 && !ms[|ms| - 1].role.AssistantRole? { LastAssistantIs(ms[..|ms| - 1]); }
  }

  /** The last assistant message follows `i`. */
  ghost predicate BeforeLastAnswer(ms: seq<ChatMessage>, i: nat) {
    && i + 1 < |ms| && ms[i + 1].role.AssistantRole? && !ms[i].role.AssistantRole?
    && forall j | i + 1 < j < |ms| :: !ms[j].role.AssistantRole?
  }

  /**
   * Exactly these positions are targets: a leading system message, the summary and the stable position, each with
   * enough tokens up to it; and in a request with enough tokens in all, the last message and the one just before the
   * last answer.
   */
  lemma TargetsExactly(r: Reader, ms: seq<ChatMessage>, i: nat)
    requires ms != [] && i < |ms|
    ensures i in Targets(r, ms) <==>
      || (Tokens(r, ms[..i + 1]) >= 1024
          && ((i == 0 && (ms[0].role.System? || ms[0].role.Developer?))
              || SummaryAt(r, ms) == Some(i) || StableAt(r, ms) == Some(i)))
      || (Tokens(r, ms) >= 1024 && (i == |ms| - 1 || BeforeLastAnswer(ms, i)))
  {
    hide Tokens, StableAt, SummaryAt, LastAssistantAt;
    LastAssistantIs(ms);
  }

  /** The marker goes on the last text part with text. */
  lemma {:induction false} LastTextIs(parts: seq<Part>)
    ensures var k := LastText(parts);
      && (k.Some? ==> parts[k.value].TextPart? && parts[k.value].text != []
                      && forall j | k.value < j < |parts| :: !parts[j].TextPart? || parts[j].text == [])
      && (k.None? ==> forall j | 0 <= j < |parts| :: !parts[j].TextPart? || parts[j].text == [])
  {
    if parts != [] && !(parts[|parts| - 1].TextPart? && parts[|parts| - 1].text != []) {
      LastTextIs(parts[..|parts| - 1]);
    }
  }

  // ---------------------------------------------------------------------------
  // The next request
  // ---------------------------------------------------------------------------

  /** The next request of the loop: the same messages, the answer, and what the tools and the chat added. */
  ghost predicate Follows(ms: seq<ChatMessage>, next: seq<ChatMessage>) {
    && ms != []
    && ms < next && next[|ms|].role.AssistantRole?
    && forall i | |ms| < i < |next| :: !next[i].role.AssistantRole?
  }

  lemma {:induction false} TokensGrow(r: Reader, ms: seq<ChatMessage>, next: seq<ChatMessage>)
    requires ms <= next
    ensures Tokens(r, ms) <= Tokens(r, next)
    decreases |next|
  {
    if |ms| < |next| {
      TokensGrow(r, ms, next[..|next| - 1]);
    } else {
      assert ms == next;
    }
  }

  /** What was found before the next request's new messages is found again. */
  lemma {:induction false} FoundAgain(r: Reader, ms: seq<ChatMessage>, next: seq<ChatMessage>)
    requires ms <= next
    ensures TriggerAt(r, ms).Some? ==> TriggerAt(r, next) == TriggerAt(r, ms) && SummaryAt(r, next) == SummaryAt(r, ms)
    ensures SummaryAt(r, ms).Some? ==> SummaryAt(r, next) == SummaryAt(r, ms)
    decreases |next|
  {
    if |ms| < |next| {
      FoundAgain(r, ms, next[..|next| - 1]);
    } else {
      assert ms == next;
    }
  }

  lemma {:induction false} UserBeforeAgain(ms: seq<ChatMessage>, next: seq<ChatMessage>, i: nat, n: nat)
    requires ms <= next && i <= |ms| && n > 0
    ensures UserBefore(ms, i, n) == UserBefore(next, i, n)
  {
    if i > 0 {
      UserBeforeAgain(ms, next, i - 1, n);
      if n > 1 { UserBeforeAgain(ms, next, i - 1, n - 1); }
    }
  }

  lemma StableAgain(r: Reader, ms: seq<ChatMessage>, next: seq<ChatMessage>)
    requires ms <= next && StableAt(r, ms).Some?
    ensures StableAt(r, next) == StableAt(r, ms)
  {
    FoundAgain(r, ms, next);
    UserBeforeAgain(ms, next, TriggerAt(r, ms).value, 2);
  }

  lemma CountedAgain(r: Reader, ms: seq<ChatMessage>, next: seq<ChatMessage>, at: Option<nat>)
    requires ms <= next && (at.Some? ==> at.value < |ms|)
    ensures Counted(r, next, at) == Counted(r, ms, at)
  {
    if at.Some? { assert next[..at.value + 1] == ms[..at.value + 1]; }
  }

  lemma {:induction false} AnswerIsLast(ms: seq<ChatMessage>, next: seq<ChatMessage>)
    requires Follows(ms, next)
    ensures LastAssistantAt(next) == Some(|ms|)
    decreases |next|
  {
    if |next| > |ms| + 1 {
      var init := next[..|next| - 1];
      assert Follows(ms, init);
      AnswerIsLast(ms, init);
    }
  }

  /** Every lasting position but the last message is found again; the last message is, unless it is an assistant's. */
  lemma LastingAgain(r: Reader, ms: seq<ChatMessage>, next: seq<ChatMessage>, i: nat)
    requires Follows(ms, next) && i in Lasting(r, ms)
    requires i == |ms| - 1 ==> !ms[i].role.AssistantRole?
    ensures i in Targets(r, next)
  {
    hide Tokens, TriggerAt, SummaryAt, UserBefore, LastAssistantAt, Counted;
    if i in Counted(r, ms, SystemAt(ms)) {
      CountedAgain(r, ms, next, SystemAt(ms));
    } else if i in Counted(r, ms, SummaryAt(r, ms)) {
      CountedSome(r, ms, SummaryAt(r, ms), i);
      FoundAgain(r, ms, next);
      CountedAgain(r, ms, next, SummaryAt(r, ms));
    } else if i in Counted(r, ms, StableAt(r, ms)) {
      CountedSome(r, ms, StableAt(r, ms), i);
      StableAgain(r, ms, next);
      CountedAgain(r, ms, next, StableAt(r, ms));
    } else {
      TokensGrow(r, ms, next);
      AnswerIsLast(ms, next);
    }
  }

  lemma CountedSome(r: Reader, ms: seq<ChatMessage>, at: Option<nat>, i: nat)
    requires (at.Some? ==> at.value < |ms|) && i in Counted(r, ms, at)
    ensures at == Some(i)
  {
  }

  predicate MarkedIn(r: Reader, ms: seq<ChatMessage>, i: nat)
    requires ms != []
  {
    i < |ms| && i in Targets(r, ms) && Marked(ms[i]).Some?
  }

  /** Every lasting mark of a request is there again in the next, on the same text. */
  ghost predicate Repeats(r: Reader, ms: seq<ChatMessage>, next: seq<ChatMessage>)
    requires ms != [] && next != []
  {
    forall i | i in Lasting(r, ms) && i < |ms| && Marked(ms[i]).Some? ::
      MarkedIn(r, next, i) && Injected(r, next)[i] == Injected(r, ms)[i]
  }

  /**
   * The next request of an agent loop repeats every system, summary, stable and last-message breakpoint of this
   * one exactly when this one does not end in an assistant message that carries a mark. No trigger
   * item is needed.
   */
  lemma BreakpointsRepeat(r: Reader, ms: seq<ChatMessage>, next: seq<ChatMessage>)
    requires Follows(ms, next)
    ensures Repeats(r, ms, next) <==>
      !(ms[|ms| - 1].role.AssistantRole? && Large(r, ms) && Marked(ms[|ms| - 1]).Some?)
  {
    hide Tokens, TriggerAt, SummaryAt, UserBefore, LastAssistantAt, Counted, Marked;
    var n := |ms| - 1;
    if ms[n].role.AssistantRole? && Large(r, ms) && Marked(ms[n]).Some? {
      AssistantEndIsLost(r, ms, next);
    } else {
      forall i | i in Lasting(r, ms) && i < |ms| && Marked(ms[i]).Some?
        ensures MarkedIn(r, next, i) && Injected(r, next)[i] == Injected(r, ms)[i]
      {
        if i == n && ms[n].role.AssistantRole? { OnlyLargeEnds(r, ms); }
        LastingAgain(r, ms, next, i);
      }
    }
  }

  /** A long enough request that ends in the start of an answer: its last mark is not repeated. */
  lemma PrefillIsNotRepeated()
    ensures var r := Reader(_ => false, _ => false, _ => MIN_CUMULATIVE_TOKENS);
      var m := ChatMessage(AssistantRole, Plain("a"));
      Follows([m], [m, m]) && !Repeats(r, [m], [m, m])
  {
    var r := Reader(_ => false, _ => false, _ => MIN_CUMULATIVE_TOKENS);
    var m := ChatMessage(AssistantRole, Plain("a"));
    assert [m][..0] == [] && Tokens(r, [m]) == MIN_CUMULATIVE_TOKENS;
    assert [m] < [m, m];
    BreakpointsRepeat(r, [m], [m, m]);
  }

  /** An assistant message is a lasting position only as the last of a large request. */
  lemma OnlyLargeEnds(r: Reader, ms: seq<ChatMessage>)
    requires ms != [] && ms[|ms| - 1].role.AssistantRole?
    ensures |ms| - 1 in Lasting(r, ms) <==> Large(r, ms)
  {
    hide Tokens, TriggerAt, UserBefore;
  }

  lemma AssistantEndIsLost(r: Reader, ms: seq<ChatMessage>, next: seq<ChatMessage>)
    requires Follows(ms, next) && ms[|ms| - 1].role.AssistantRole? && Large(r, ms)
    ensures |ms| - 1 in Lasting(r, ms) && |ms| - 1 !in Targets(r, next)
  {
    hide Tokens, TriggerAt, UserBefore, LastAssistantAt;
    AnswerIsLast(ms, next);
    assert next[|ms| - 1] == ms[|ms| - 1];
  }

  // ---------------------------------------------------------------------------
  // Erasing the markers
  // ---------------------------------------------------------------------------

  function ErasePart(p: Part): Part {
    if p.TextPart? then p.(marked := false) else p
  }

  function EraseParts(parts: seq<Part>): (r: seq<Part>)
    ensures |r| == |parts| && forall i :: 0 <= i < |parts| ==> r[i] == ErasePart(parts[i])
  {
    seq(|parts|, i requires 0 <= i < |parts| => ErasePart(parts[i]))
  }

  /** Without markers, and with text content as one text part. */
  function Erased(m: ChatMessage): ChatMessage {
    match m.content
    case Plain(text) => if text == [] then m else m.(content := Parts([TextPart(text, false)]))
    case Parts(parts) => m.(content := Parts(EraseParts(parts)))
    case NoContent => m
  }

  lemma MarkedErases(m: ChatMessage)
    requires Marked(m).Some?
    ensures Erased(Marked(m).value) == Erased(m)
    ensures TextOf(Marked(m).value) == TextOf(m) && Marked(m).value.role == m.role
  {
    match m.content
    case Plain(text) =>
      var one := [TextPart(text, true)];
      assert EraseParts(one) == [TextPart(text, false)];
      assert one[..0] == [] && PartsText([]) == [];
      assert PartsText(one) == text;
    case Parts(parts) =>
      var k := LastText(parts).value;
      var next := parts[k := TextPart(parts[k].text, true)];
      assert EraseParts(next) == EraseParts(parts);
      SameText(parts, next);
  }

  lemma {:induction false} SameText(a: seq<Part>, b: seq<Part>)
    requires EraseParts(a) == EraseParts(b)
    ensures PartsText(a) == PartsText(b)
  {
    if a != [] {
      var n := |a| - 1;
      assert |b| == |a|;
      assert EraseParts(a)[n] == EraseParts(b)[n];
      assert EraseParts(a[..n]) == EraseParts(a)[..n];
      assert EraseParts(b[..n]) == EraseParts(b)[..n];
      SameText(a[..n], b[..n]);
    }
  }

  /** The injector changes nothing but markers: erased, its output is its input, message by message. */
  lemma InjectionErases(r: Reader, ms: seq<ChatMessage>, i: nat)
    requires i < |ms|
    ensures var out := Injected(r, ms);
      && Erased(out[i]) == Erased(ms[i])
      && TextOf(out[i]) == TextOf(ms[i])
      && (out[i] != ms[i] ==> i in Targets(r, ms) && Some(out[i]) == Marked(ms[i]))
  {
    hide Targets, Erased, TextOf, Marked;
    if Marked(ms[i]).Some? { MarkedErases(ms[i]); }
  }
}
