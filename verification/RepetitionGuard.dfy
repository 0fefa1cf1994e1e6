/** The online detector of exact periodic runs in a streamed content block. */
module RepetitionGuard {
  import opened Transcript

  datatype Config = Config(minChars: nat, maxPeriod: nat, minRepeats: nat)

  datatype Trip = Trip(contentIndex: int, period: nat, runChars: nat, blockChars: nat)

  /** The run counters are unsigned 32-bit cells. */
  const CELL: nat := 0x1_0000_0000

  // ---------------------------------------------------------------------------
  // What the detector must find
  // ---------------------------------------------------------------------------

  /** The consecutive trailing units equal to the one `p` positions earlier. */
  function Run(text: seq<CodeUnit>, p: nat): (r: nat)
    requires p > 0
    ensures r > 0 ==> r + p <= |text|
  {
    var n := |text|;
    if n <= p || text[n - 1] != text[n - 1 - p] then 0 else Run(text[..n - 1], p) + 1
  }

  /** The run that trips period `p`. */
  function Threshold(cfg: Config, p: nat): (r: nat)
    ensures r >= 1
  {
    var copies := (cfg.minRepeats - 1) * p;
    var most := if cfg.minChars >= copies then cfg.minChars else copies;
    if most >= 1 then most else 1
  }

  /** Period `p` trips on the text: its run has reached the threshold, if a counter can show that value at all. */
  predicate Fires(cfg: Config, text: seq<CodeUnit>, p: nat) {
    1 <= p <= cfg.maxPeriod && Threshold(cfg, p) <= CELL && Run(text, p) >= Threshold(cfg, p)
  }

  /** The smallest period from `p` up that trips. */
  function FirstPeriod(cfg: Config, text: seq<CodeUnit>, p: nat): (r: Option<nat>)
    requires p > 0
    ensures r.Some? ==> p <= r.value && Fires(cfg, text, r.value)
    ensures r.Some? ==> forall q :: p <= q < r.value ==> !Fires(cfg, text, q)
    ensures r.None? ==> forall q :: p <= q ==> !Fires(cfg, text, q)
    decreases cfg.maxPeriod + 1 - p
  {
    if p > cfg.maxPeriod then None else if Fires(cfg, text, p) then Some(p) else FirstPeriod(cfg, text, p + 1)
  }

  /** The trip of the shortest prefix that trips. */
  function FirstTrip(cfg: Config, block: int, text: seq<CodeUnit>): Option<Trip> {
    if text == [] then None else
      var before := FirstTrip(cfg, block, text[..|text| - 1]);
      if before.Some? then before else
        var p := FirstPeriod(cfg, text, 1);
        if p.Some? then Some(Trip(block, p.value, Run(text, p.value), |text|)) else None
  }

  /** Nothing up to here trips. */
  ghost predicate Quiet(cfg: Config, text: seq<CodeUnit>) {
    forall k, p | 0 <= k <= |text| && p > 0 :: !Fires(cfg, text[..k], p)
  }

  /** The trip is at the first unit where any period trips, with the smallest such period, its run just reached. */
  ghost predicate IsFirst(cfg: Config, text: seq<CodeUnit>, t: Trip) {
    && 0 < t.blockChars <= |text|
    && t.period > 0
    && Quiet(cfg, text[..t.blockChars - 1])
    && Fires(cfg, text[..t.blockChars], t.period)
    && (forall q :: 0 < q < t.period ==> !Fires(cfg, text[..t.blockChars], q))
    && t.runChars == Run(text[..t.blockChars], t.period) == Threshold(cfg, t.period)
  }

  lemma QuietExtends(cfg: Config, text: seq<CodeUnit>)
    requires text != []
    ensures Quiet(cfg, text) <==>
      Quiet(cfg, text[..|text| - 1]) && forall p | p > 0 :: !Fires(cfg, text, p)
  {
    var n := |text| - 1;
    assert text[..n + 1] == text;
    if Quiet(cfg, text) {
      forall k, p | 0 <= k <= n && p > 0 ensures !Fires(cfg, text[..n][..k], p) {
        assert text[..n][..k] == text[..k];
      }
    }
    if Quiet(cfg, text[..n]) && forall p | p > 0 :: !Fires(cfg, text, p) {
      forall k, p | 0 <= k <= |text| && p > 0 ensures !Fires(cfg, text[..k], p) {
        if k <= n { assert text[..n][..k] == text[..k]; }
      }
    }
  }

  /** `FirstTrip` is the first trip, and `None` only when no prefix trips. */
  lemma {:induction false} FirstTripIsExact(cfg: Config, block: int, text: seq<CodeUnit>)
    ensures var r := FirstTrip(cfg, block, text);
      && (r.None? <==> Quiet(cfg, text))
      && (r.Some? ==> r.value.contentIndex == block && IsFirst(cfg, text, r.value))
  {
    hide Threshold;
    if text == [] {
      assert text[..0] == text;
    } else {
      var n := |text| - 1;
      var init := text[..n];
      FirstTripIsExact(cfg, block, init);
      QuietExtends(cfg, text);
      var before := FirstTrip(cfg, block, init);
      if before.Some? {
        var k := before.value.blockChars;
        assert init[..k] == text[..k] && init[..k - 1] == text[..k - 1];
      } else {
        var p := FirstPeriod(cfg, text, 1);
        if p.Some? {
          assert text[..n + 1] == text;
          assert init[..n] == init;
          assert !Fires(cfg, init[..n], p.value);
        }
      }
    }
  }

  lemma FirstIsUnique(cfg: Config, text: seq<CodeUnit>, s: Trip, t: Trip)
    requires IsFirst(cfg, text, s) && IsFirst(cfg, text, t) && s.contentIndex == t.contentIndex
    ensures s == t
  {
    LaterIsNotFirst(cfg, text, s, t);
    LaterIsNotFirst(cfg, text, t, s);
  }

  lemma LaterIsNotFirst(cfg: Config, text: seq<CodeUnit>, s: Trip, t: Trip)
    requires IsFirst(cfg, text, s) && IsFirst(cfg, text, t)
    ensures t.blockChars <= s.blockChars
  {
    QuietBelow(cfg, text, t.blockChars - 1, s.blockChars);
  }

  lemma QuietBelow(cfg: Config, text: seq<CodeUnit>, k: nat, j: nat)
    requires k <= |text| && j <= |text| && Quiet(cfg, text[..k])
    ensures j <= k ==> forall p | p > 0 :: !Fires(cfg, text[..j], p)
  {
    if j <= k {
      assert text[..k][..j] == text[..j];
    }
  }

  /** How a text is split into deltas is of no matter: a quiet part never changes what the rest finds. */
  lemma {:induction false} SplitDoesNotMatter(cfg: Config, block: int, a: seq<CodeUnit>, b: seq<CodeUnit>)
    ensures FirstTrip(cfg, block, a).Some? ==> FirstTrip(cfg, block, a + b) == FirstTrip(cfg, block, a)
    ensures FirstTrip(cfg, block, a + b).Some? && FirstTrip(cfg, block, a).None?
      ==> FirstTrip(cfg, block, a + b).value.blockChars > |a|
  {
    if b == [] {
      assert a + b == a;
    } else {
      assert (a + b)[..|a + b| - 1] == a + b[..|b| - 1];
      SplitDoesNotMatter(cfg, block, a, b[..|b| - 1]);
    }
  }

  // ---------------------------------------------------------------------------
  // What a trip means for the text
  // ---------------------------------------------------------------------------

  /** The last `n` units each equal the one `p` earlier. */
  ghost predicate Periodic(text: seq<CodeUnit>, p: nat, n: nat) {
    && n + p <= |text|
    && forall j | |text| - n <= j < |text| :: text[j] == text[j - p]
  }

  lemma PeriodicEnd(text: seq<CodeUnit>, p: nat, n: nat)
    requires p > 0 && n > 0
    ensures Periodic(text, p, n) ==> |text| > p && text[|text| - 1] == text[|text| - 1 - p]
  {
  }

  lemma {:induction false} RunIsPeriodic(text: seq<CodeUnit>, p: nat, n: nat)
    requires p > 0 && n > 0
    ensures Run(text, p) >= n <==> Periodic(text, p, n)
  {
    var l := |text|;
    PeriodicEnd(text, p, n);
    if l > p && text[l - 1] == text[l - 1 - p] {
      var init := text[..l - 1];
      if n > 1 {
        RunIsPeriodic(init, p, n - 1);
        assert Periodic(text, p, n) <==> Periodic(init, p, n - 1) by {
          if Periodic(init, p, n - 1) {
            forall j | l - n <= j < l ensures text[j] == text[j - p] {
              if j < l - 1 { assert init[j] == init[j - p]; }
            }
          }
        }
      }
    }
  }

  function Copies(u: seq<CodeUnit>, n: nat): (r: seq<CodeUnit>)
    ensures |r| == n * |u|
  {
    if n == 0 then [] else Copies(u, n - 1) + u
  }

  ghost predicate EndsWith(text: seq<CodeUnit>, tail: seq<CodeUnit>) {
    |tail| <= |text| && text[|text| - |tail|..] == tail
  }

  lemma EndsWithMore(text: seq<CodeUnit>, a: seq<CodeUnit>, b: seq<CodeUnit>)
    ensures EndsWith(text, a + b) <==> EndsWith(text, b) && EndsWith(text[..|text| - |b|], a)
  {
    if EndsWith(text, b) {
      var init := text[..|text| - |b|];
      assert text == init + b;
      if EndsWith(init, a) {
        assert text[|text| - |a + b|..] == a + b;
      }
    }
    if EndsWith(text, a + b) {
      assert text[|text| - |b|..] == (a + b)[|a|..];
      assert text[..|text| - |b|][|text| - |b| - |a|..] == (a + b)[..|a|];
    }
  }

  lemma Product(n: nat, p: nat)
    ensures (n + 1) * p == n * p + p && n * p >= 0
  {}

  /** A run of `n` periods is `n + 1` copies of the unit that ends the text. */
  lemma CopiesArePeriodic(text: seq<CodeUnit>, u: seq<CodeUnit>, n: nat)
    requires u != [] && EndsWith(text, u)
    ensures EndsWith(text, Copies(u, n + 1)) <==> Periodic(text, |u|, n * |u|)
  {
    hide Copies, EndsWith, Periodic;
    if Periodic(text, |u|, n * |u|) { PeriodsAreCopies(text, u, n); }
    if EndsWith(text, Copies(u, n + 1)) { CopiesRepeat(text, u, n); }
  }

  lemma OneCopy(u: seq<CodeUnit>, n: nat)
    ensures Copies(u, n + 1) == Copies(u, n) + u && Copies(u, 0) + u == u
  {
  }

  lemma {:induction false} PeriodsAreCopies(text: seq<CodeUnit>, u: seq<CodeUnit>, n: nat)
    requires u != [] && EndsWith(text, u) && Periodic(text, |u|, n * |u|)
    ensures EndsWith(text, Copies(u, n + 1))
  {
    hide Copies, EndsWith, Periodic;
    OneCopy(u, n);
    Fits(text, u);
    if n > 0 {
      Product(n - 1, |u|);
      LastPeriod(text, |u|, (n - 1) * |u|, u);
      PeriodsAreCopies(text[..|text| - |u|], u, n - 1);
      EndsWithMore(text, Copies(u, n), u);
    }
  }

  lemma {:induction false} CopiesRepeat(text: seq<CodeUnit>, u: seq<CodeUnit>, n: nat)
    requires u != [] && EndsWith(text, u) && EndsWith(text, Copies(u, n + 1))
    ensures Periodic(text, |u|, n * |u|)
  {
    hide Copies, EndsWith, Periodic;
    OneCopy(u, n);
    Fits(text, u);
    if n == 0 {
      NoPeriods(text, |u|);
    } else {
      var init := text[..|text| - |u|];
      EndsWithMore(text, Copies(u, n), u);
      OneCopy(u, n - 1);
      EndsWithMore(init, Copies(u, n - 1), u);
      CopiesRepeat(init, u, n - 1);
      Product(n - 1, |u|);
      OnePeriodMore(text, |u|, (n - 1) * |u|, u);
    }
  }

  lemma Fits(text: seq<CodeUnit>, tail: seq<CodeUnit>)
    requires EndsWith(text, tail)
    ensures |tail| <= |text|
  {
  }

  lemma LastPeriod(text: seq<CodeUnit>, p: nat, m: nat, u: seq<CodeUnit>)
    requires |u| == p > 0 && EndsWith(text, u) && Periodic(text, p, m + p)
    ensures EndsWith(text[..|text| - p], u) && Periodic(text[..|text| - p], p, m)
  {
    var init := text[..|text| - p];
    forall j | 0 <= j < p ensures init[|init| - p..][j] == u[j] {
      assert u[j] == text[|text| - p + j];
    }
    assert init[|init| - p..] == u;
  }

  lemma OnePeriodMore(text: seq<CodeUnit>, p: nat, m: nat, u: seq<CodeUnit>)
    requires |u| == p > 0 && EndsWith(text, u) && EndsWith(text[..|text| - p], u) && Periodic(text[..|text| - p], p, m)
    ensures Periodic(text, p, m + p)
  {
    var init := text[..|text| - p];
    forall j | |text| - (m + p) <= j < |text| ensures text[j] == text[j - p] {
      if j < |init| {
        assert init[j] == init[j - p];
      } else {
        var k := j - |init|;
        assert text[|text| - p..][k] == u[k] && init[|init| - p..][k] == u[k];
      }
    }
  }

  /**
   * Period `p` trips exactly when the text ends in `minRepeats` identical copies of its last `p` units and its
   * last `minChars` units (at least one) repeat at that distance, provided a counter can reach the threshold.
   */
  lemma TripMeansCopies(cfg: Config, text: seq<CodeUnit>, p: nat)
    requires 1 <= p <= cfg.maxPeriod && cfg.minRepeats >= 1 && Threshold(cfg, p) <= CELL
    ensures Fires(cfg, text, p) <==>
      && p <= |text|
      && EndsWith(text, Copies(text[|text| - p..], cfg.minRepeats))
      && Periodic(text, p, if cfg.minChars > 0 then cfg.minChars else 1)
  {
    hide Run, Periodic, Copies, EndsWith, Threshold;
    var n, chars := cfg.minRepeats - 1, if cfg.minChars > 0 then cfg.minChars else 1;
    var run := Run(text, p);
    Product(n, p);
    ThresholdIs(cfg, p, run);
    RunIsPeriodic(text, p, chars);
    NoPeriods(text, p);
    if n > 0 {
      Product(n - 1, p);
      RunIsPeriodic(text, p, n * p);
    }
    if p <= |text| {
      UnitEnds(text, p);
      CopiesArePeriodic(text, text[|text| - p..], n);
    } else {
      TooShort(text, p, chars);
    }
  }

  lemma ThresholdIs(cfg: Config, p: nat, run: nat)
    requires cfg.minRepeats >= 1
    ensures run >= Threshold(cfg, p) <==>
      run >= (if cfg.minChars > 0 then cfg.minChars else 1) && run >= (cfg.minRepeats - 1) * p
  {
  }

  lemma NoPeriods(text: seq<CodeUnit>, p: nat)
    ensures p <= |text| ==> Periodic(text, p, 0)
  {
  }

  lemma UnitEnds(text: seq<CodeUnit>, p: nat)
    requires p <= |text|
    ensures EndsWith(text, text[|text| - p..])
  {
  }

  lemma TooShort(text: seq<CodeUnit>, p: nat, n: nat)
    requires p > |text|
    ensures !Periodic(text, p, n)
  {
  }

  // ---------------------------------------------------------------------------
  // The detector
  // ---------------------------------------------------------------------------

  /** One content block: the last `maxPeriod` units and the run of every period. */
  class BlockState {
    const cfg: Config
    const ring: array<CodeUnit>
    const runs: array<nat>
    var length: nat
    ghost var text: seq<CodeUnit>  // everything the block streamed

    ghost predicate Valid()
      reads this, ring, runs
    {
      Shaped() && Counts(text, 1, runs.Length)
    }

    ghost predicate RingHolds()
      requires ring.Length == cfg.maxPeriod + 1
      reads this, ring
    {
      forall j | 0 <= j < |text| && |text| - ring.Length <= j :: ring[j % ring.Length] == text[j]
    }

    constructor (cfg: Config)
      ensures Valid() && this.cfg == cfg && text == [] && fresh(ring) && fresh(runs)
    {
      this.cfg := cfg;
      ring := new CodeUnit[cfg.maxPeriod + 1](_ => 0);
      runs := new nat[cfg.maxPeriod + 1](_ => 0);
      length, text := 0, [];
    }

    ghost function Parts(): set<object> {
      {this, ring, runs}
    }

    /** The counters of the periods from `lo` to below `hi` hold the runs of `t`. */
    ghost predicate Counts(t: seq<CodeUnit>, lo: nat, hi: nat)
      requires 1 <= lo && hi <= runs.Length
      reads runs
    {
      forall q | lo <= q < hi :: runs[q] == Run(t, q) % CELL
    }

    lemma SlotOf(p: nat)
      requires Shaped()
      requires 1 <= p <= cfg.maxPeriod && p <= length
      ensures 0 <= (length - p) % ring.Length < ring.Length
      ensures ring[(length - p) % ring.Length] == text[length - p]
    {
    }

    /** The arrays are in shape, and the ring holds the text. */
    ghost predicate Shaped()
      reads this, ring
    {
      && ring.Length == cfg.maxPeriod + 1 && runs.Length == cfg.maxPeriod + 1
      && ring as object != runs as object
      && length == |text|
      && Quiet(cfg, text)
      && RingHolds()
    }

    /** Compare the unit with the one `p` earlier, and count it; `run` is the value just counted, if any. */
    method CountOne(c: CodeUnit, p: nat) returns (run: nat)
      requires Shaped() && 1 <= p <= cfg.maxPeriod && p <= length
      requires Counts(text + [c], 1, p) && Counts(text, p, runs.Length)
      modifies runs
      ensures Counts(text + [c], 1, p + 1) && Counts(text, p + 1, runs.Length)
      ensures Fires(cfg, text + [c], p) ==> run == Run(text + [c], p)
      ensures run > 0 && run >= cfg.minChars && run >= (cfg.minRepeats - 1) * p <==> Fires(cfg, text + [c], p)
    {
      hide Run, Threshold, Fires, Quiet, RingHolds;
      ghost var were := runs[..];
      SlotOf(p);
      RunStep(text, c, p);
      NoRun(cfg, text + [c], p);
      if ring[(length - p) % ring.Length] == c {
        run := runs[p] + 1;
        CounterIsExact(cfg, text, c, p, run);
        AtThreshold(cfg, p, run);
        runs[p] := run % CELL;  // the cell wraps; the value compared does not
      } else {
        run := 0;
        runs[p] := 0;
      }
      assert forall q | 0 <= q < runs.Length && q != p :: runs[q] == were[q];
    }

    /** Count one more unit against every period; the first that trips, if any. */
    method Count(c: CodeUnit) returns (p: nat, run: nat)
      requires Shaped() && Counts(text, 1, runs.Length)
      modifies runs
      ensures p == 0 ==> NoneFires(cfg, text + [c], cfg.maxPeriod + 1) && Counts(text + [c], 1, runs.Length)
      ensures p > 0 ==>
        Fires(cfg, text + [c], p) && run == Run(text + [c], p) && NoneFires(cfg, text + [c], p)
    {
      hide Quiet, RingHolds, Threshold;
      var top := if cfg.maxPeriod < length then cfg.maxPeriod else length;
      p := 1;
      while p <= top
        invariant 1 <= p <= top + 1
        invariant Counts(text + [c], 1, p) && Counts(text, p, runs.Length)
        invariant NoneFires(cfg, text + [c], p)
      {
        run := CountOne(c, p);
        if run > 0 && run >= cfg.minChars && run >= (cfg.minRepeats - 1) * p {
          return;
        }
        p := p + 1;
      }
      assert forall q | p <= q <= cfg.maxPeriod :: Run(text, q) == 0 && Run(text + [c], q) == 0;
      p, run := 0, 0;
    }

    /** Stream one unit that trips nothing. */
    method Keep(c: CodeUnit)
      requires Shaped()
      requires NoneFires(cfg, text + [c], cfg.maxPeriod + 1) && Counts(text + [c], 1, runs.Length)
      modifies this, ring
      ensures Valid() && text == old(text) + [c]
    {
      assert (text + [c])[..|text|] == text;
      QuietExtends(cfg, text + [c]);
      RingStep(length, ring.Length);
      ring[length % ring.Length] := c;
      length := length + 1;
      text := text + [c];
    }

    /** Feed one delta, unit by unit, up to the first trip. */
    method Stream(contentIndex: int, delta: seq<CodeUnit>) returns (trip: Option<Trip>)
      requires Valid()
      modifies Parts()
      ensures trip == FirstTrip(cfg, contentIndex, old(text) + delta)
      ensures trip.None? ==> Valid() && text == old(text) + delta
    {
      hide FirstTrip, Run, Fires, Threshold, Quiet, RingHolds, Counts;
      var k := 0;
      while k < |delta|
        invariant k <= |delta| && Valid() && text == old(text) + delta[..k]
      {
        var p, run := Count(delta[k]);
        if p > 0 {
          TripSettles(cfg, contentIndex, text, delta[k], delta[k + 1..], p);
          assert text + [delta[k]] + delta[k + 1..] == old(text) + delta;
          return Some(Trip(contentIndex, p, run, length + 1));
        }
        assert text + [delta[k]] == old(text) + delta[..k + 1];
        Keep(delta[k]);
        k := k + 1;
      }
      assert delta[..k] == delta;
      FirstTripIsExact(cfg, contentIndex, text);
      return None;
    }
  }

  /** The last `size` positions have different slots. */
  lemma RingStep(n: nat, size: nat)
    requires size > 0
    ensures forall j | 0 <= j < n && n < j + size :: j % size != n % size
  {
    forall j | 0 <= j < n && n < j + size ensures j % size != n % size {
      if j % size == n % size {
        var a, b := j / size, n / size;
        assert n - j == (b - a) * size;
        NoMultiple(b - a, size, n - j);
      }
    }
  }

  lemma NoMultiple(k: int, size: int, d: int)
    requires size > 0 && d == k * size
    ensures d <= 0 || d >= size
  {
  }

  /** The unit that makes a quiet text trip settles the trip of everything that follows. */
  lemma TripSettles(cfg: Config, block: int, text: seq<CodeUnit>, c: CodeUnit, rest: seq<CodeUnit>, p: nat)
    requires Quiet(cfg, text) && Fires(cfg, text + [c], p) && NoneFires(cfg, text + [c], p)
    ensures FirstTrip(cfg, block, text + [c] + rest) == Some(Trip(block, p, Run(text + [c], p), |text| + 1))
  {
    FirstTripIsExact(cfg, block, text);
    assert (text + [c])[..|text|] == text;
    SplitDoesNotMatter(cfg, block, text + [c], rest);
  }

  /** A delta-by-delta detector over all content blocks of an attempt. */
  class RepetitionDetector {
    const cfg: Config
    var blocks: map<int, BlockState>
    ghost var texts: map<int, seq<CodeUnit>>  // what each block streamed
    ghost var Repr: set<object>

    ghost predicate Owns(k: int)
      requires k in blocks
      reads this, Repr
    {
      && blocks[k].Parts() <= Repr
      && this !in blocks[k].Parts()
      && blocks[k].cfg == cfg && blocks[k].Valid()
      && k in texts && texts[k] == blocks[k].text
    }

    /** Meaningful until the first trip. */
    ghost predicate Valid()
      reads this, Repr
    {
      && this in Repr
      && texts.Keys == blocks.Keys
      && (forall k | k in blocks :: Owns(k))
      && forall j, k | j in blocks && k in blocks && j != k :: blocks[j].Parts() !! blocks[k].Parts()
    }

    constructor (cfg: Config)
      ensures Valid() && fresh(Repr) && this.cfg == cfg && texts == map[]
    {
      this.cfg := cfg;
      blocks, texts, Repr := map[], map[], {this};
    }

    ghost function TextOf(block: int): seq<CodeUnit>
      reads this
    {
      if block in texts then texts[block] else []
    }

    /** A block of its own for every content index. */
    method BlockFor(contentIndex: int) returns (block: BlockState)
      requires Valid()
      modifies this
      ensures Valid() && fresh(Repr - old(Repr)) && contentIndex in blocks && blocks[contentIndex] == block
      ensures Owns(contentIndex) && texts == old(texts)[contentIndex := old(TextOf(contentIndex))]
    {
      hide BlockState.Valid;
      if contentIndex !in blocks {
        block := new BlockState(cfg);
        blocks := blocks[contentIndex := block];
        texts := texts[contentIndex := []];
        Repr := Repr + block.Parts();
        forall k | k in blocks && k != contentIndex ensures Owns(k) {
          OtherStays(k);
        }
      }
      block := blocks[contentIndex];
    }

    /** A block none of whose parts changed is in order still. */
    twostate lemma OtherStays(k: int)
      requires k in old(blocks) && old(Owns(k)) && unchanged(old(blocks[k].Parts())) && old(Repr) <= Repr
      requires k in blocks && blocks[k] == old(blocks)[k] && k in texts && texts[k] == old(texts)[k]
      ensures Owns(k)
    {
      hide BlockState.Shaped, BlockState.Counts;
    }

    /** Only block `k` and its text changed. */
    twostate lemma StaysValid(k: int)
      requires old(Valid()) && blocks == old(blocks) && Repr == old(Repr) && k in blocks && Owns(k)
      requires texts == old(texts)[k := blocks[k].text]
      requires forall o | o in Repr && o != this && o !in blocks[k].Parts() :: unchanged(o)
      ensures Valid()
    {
      hide BlockState.Valid, BlockState.Parts;
      forall j | j in blocks && j != k ensures Owns(j) {
        assert old(Owns(j));
        assert blocks[j].Parts() !! blocks[k].Parts();
        OtherStays(j);
      }
    }

    /** Feed one delta; the trip, if it tripped. */
    method Push(contentIndex: int, delta: seq<CodeUnit>) returns (trip: Option<Trip>)
      requires Valid()
      modifies Repr
      ensures fresh(Repr - old(Repr))
      ensures trip == FirstTrip(cfg, contentIndex, old(TextOf(contentIndex)) + delta)
      ensures trip.None? ==>
        Valid() && texts == old(texts)[contentIndex := old(TextOf(contentIndex)) + delta]
    {
      hide FirstTrip, BlockState.Valid, BlockState.Parts;
      assert this in Repr;
      hide Valid;
      var block := BlockFor(contentIndex);
      label Found:
      trip := block.Stream(contentIndex, delta);
      if trip.None? {
        texts := texts[contentIndex := block.text];
        StaysValid@Found(contentIndex);
      }
    }
  }

  ghost predicate NoneFires(cfg: Config, text: seq<CodeUnit>, p: nat) {
    forall q | 1 <= q < p :: !Fires(cfg, text, q)
  }

  /** One unit more: the run grows by one, or starts over. */
  lemma RunStep(text: seq<CodeUnit>, c: CodeUnit, p: nat)
    requires p > 0
    ensures Run(text + [c], p) == if |text| >= p && text[|text| - p] == c then Run(text, p) + 1 else 0
  {
    assert (text + [c])[..|text|] == text;
  }

  lemma NoRun(cfg: Config, text: seq<CodeUnit>, p: nat)
    requires p > 0
    ensures Run(text, p) == 0 ==> !Fires(cfg, text, p)
  {
  }

  /** On a quiet text the counter compares as the run itself would, or the threshold is out of its reach. */
  lemma CounterIsExact(cfg: Config, text: seq<CodeUnit>, c: CodeUnit, p: nat, run: nat)
    requires 1 <= p <= cfg.maxPeriod && Quiet(cfg, text)
    requires |text| >= p && text[|text| - p] == c && run == Run(text, p) % CELL + 1
    ensures run % CELL == Run(text + [c], p) % CELL
    ensures run >= Threshold(cfg, p) <==> Fires(cfg, text + [c], p)
    ensures Fires(cfg, text + [c], p) ==> run == Run(text + [c], p)
  {
    var before, after, t := Run(text, p), Run(text + [c], p), Threshold(cfg, p);
    assert after == before + 1 by { RunStep(text, c, p); }
    assert t <= CELL ==> before < t by { QuietNow(cfg, text, p); }
    CellStep(before, t);
    assert Fires(cfg, text + [c], p) <==> t <= CELL && after >= t;
  }

  lemma QuietNow(cfg: Config, text: seq<CodeUnit>, p: nat)
    requires Quiet(cfg, text) && p > 0
    ensures !Fires(cfg, text, p)
  {
    assert text[..|text|] == text;
  }

  lemma CellStep(r: nat, t: nat)
    requires t >= 1 && (t <= CELL ==> r < t)
    ensures var v := r % CELL + 1;
      && v % CELL == (r + 1) % CELL
      && (v >= t <==> t <= CELL && r + 1 >= t)
      && (t <= CELL ==> v == r + 1)
  {
  }

  lemma AtThreshold(cfg: Config, p: nat, run: nat)
    requires run >= 1
    ensures run >= Threshold(cfg, p) <==> run >= cfg.minChars && run >= (cfg.minRepeats - 1) * p
  {
  }
}
