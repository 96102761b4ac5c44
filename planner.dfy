/**
 * The monthly date-plan generator: every catalogue idea is scored against
 * the weather, the couple's energy, the budget tier and the ratings of past
 * dates; ideas scoring -50 or less are dropped, the rest are ranked, the
 * best `max(count, 10)` form a pool, the pool is shuffled and the first
 * `count` ideas are returned, relabelled "Date 1: …", "Date 2: …".
 *
 * `Math.random` is the injected `random`: its k-th value is the k-th draw.
 */
module Planner {
  import opened Wrappers
  import opened Sorting
  import opened Text
  import opened Events
  import opened Catalog

  datatype Energy = Chill | Energetic

  datatype Weather = Sunny | Rainy

  /** The planning context; an absent `pastEvents` behaves as an empty list. */
  datatype PlannerContext = PlannerContext(energy: Option<Energy>, weather: Option<Weather>, pastEvents: seq<Event>)

  /** The default context `{}`. */
  const EmptyContext: PlannerContext := PlannerContext(None, None, [])

  /**
   * A catalogue idea with its score (`{ ...idea, score }`). `entry` is the
   * idea's position in the catalogue: it is not a field of the source's
   * objects and only lets the model say which catalogue entry a plan is.
   */
  datatype ScoredIdea = ScoredIdea(entry: nat, idea: DateIdea, score: real)

  function ScoreOf(c: ScoredIdea): real {
    c.score
  }

  /** The budget tier of an average spend per date. */
  function TierOf(avg: real): (t: Tier)
    ensures t == Tier.Low <==> avg < 40.0
    ensures t == Tier.High <==> avg > 120.0
    ensures t == Tier.Mid <==> 40.0 <= avg <= 120.0
  {
    var t := if avg < 40.0 then Tier.Low else Tier.Mid;
    if avg > 120.0 then Tier.High else t
  }

  /**
   * The tier of `totalBudget / count`. With `count == 0` the division gives
   * +Infinity, -Infinity or NaN, which the two comparisons place as High,
   * Low and Mid.
   */
  function TargetTier(totalBudget: real, count: int): (t: Tier)
    ensures count == 0 ==> (t == Tier.High <==> totalBudget > 0.0) && (t == Tier.Low <==> totalBudget < 0.0)
    ensures count > 0 ==>
      (t == Tier.Low <==> totalBudget < 40.0 * count as real) && (t == Tier.High <==> totalBudget > 120.0 * count as real)
    ensures count < 0 ==>
      (t == Tier.Low <==> totalBudget > 40.0 * count as real) && (t == Tier.High <==> totalBudget < 120.0 * count as real)
  {
    if count == 0 then
      if totalBudget > 0.0 then Tier.High
      else if totalBudget < 0.0 then Tier.Low
      else Tier.Mid
    else
      DivThreshold(totalBudget, count as real, 40.0);
      DivThreshold(totalBudget, count as real, 120.0);
      TierOf(totalBudget / count as real)
  }

  /** Comparing a quotient with a threshold is comparing the dividend with the scaled threshold. */
  lemma DivThreshold(b: real, c: real, k: real)
    requires c != 0.0
    ensures c > 0.0 ==> (b / c < k <==> b < k * c) && (b / c > k <==> b > k * c)
    ensures c < 0.0 ==> (b / c < k <==> b > k * c) && (b / c > k <==> b < k * c)
  {
    var q := b / c;
    assert q * c == b;
    assert q * c - k * c == (q - k) * c;
  }

  /** `getTierVal`: Low, Mid and High as 1, 2 and 3. */
  function TierVal(t: Tier): (v: int)
    ensures 1 <= v <= 3
  {
    match t
    case Low => 1
    case Mid => 2
    case High => 3
  }

  /** Distinct tiers have distinct values, and only Low and High lie two apart. */
  lemma TierValDistance(a: Tier, b: Tier)
    ensures TierVal(a) == TierVal(b) <==> a == b
    ensures Abs(TierVal(a) - TierVal(b)) == 2 <==> {a, b} == {Tier.Low, Tier.High}
  {
  }

  /** The soft budget filter: same tier, adjacent tier, or too far off. */
  function TierTerm(tier: Tier, target: Tier): real {
    if tier == target then 10.0
    else if Abs(TierVal(tier) - TierVal(target)) == 1 then 2.0
    else -10.0
  }

  lemma TierTermCases(tier: Tier, target: Tier)
    ensures TierTerm(tier, target) == 10.0 <==> tier == target
    ensures TierTerm(tier, target) == 2.0 <==> tier != target && (tier == Tier.Mid || target == Tier.Mid)
    ensures TierTerm(tier, target) == -10.0 <==> {tier, target} == {Tier.Low, Tier.High}
  {
  }

  function WeatherTerm(weather: Option<Weather>, env: Environment): real {
    if weather == Some(Sunny) && env == Outdoor then 2.0 else 0.0
  }

  function EnergyTerm(energy: Option<Energy>, level: EnergyLevel): real {
    if energy == Some(Energy.Chill) then (if level == EnergyLevel.High then -5.0 else 3.0)
    else if energy == Some(Energetic) then (if level == EnergyLevel.Low then -5.0 else 3.0)
    else 0.0
  }

  /** `DATE_IDEAS.find(i => title.includes(i.title.split(' ')[0]))`, as a position in `ideas`. */
  function FindIdeaFor(ideas: seq<DateIdea>, title: string): (r: Option<nat>)
    ensures r.Some? ==> r.value < |ideas| && IsInfix(FirstWord(ideas[r.value].title), title)
    ensures r.Some? ==> forall j :: 0 <= j < r.value ==> !IsInfix(FirstWord(ideas[j].title), title)
    ensures r.None? <==> forall j :: 0 <= j < |ideas| ==> !IsInfix(FirstWord(ideas[j].title), title)
  {
    if ideas == [] then None
    else if IsInfix(FirstWord(ideas[0].title), title) then Some(0)
    else
      match FindIdeaFor(ideas[1..], title)
      case None => None
      case Some(k) => Some(k + 1)
  }

  /** `tags.filter(t => other.includes(t)).length`. */
  function CommonTagCount(tags: seq<string>, other: seq<string>): (n: nat)
    ensures n <= |tags|
  {
    if tags == [] then 0 else (if tags[0] in other then 1 else 0) + CommonTagCount(tags[1..], other)
  }

  /** A completed event with a rating: the only kind the learning layer reads. */
  predicate IsRatedCompletion(e: Event) {
    e.status == Completed && e.rating.Some?
  }

  /** What one past event adds to an idea's score. */
  function EventTerm(ideas: seq<DateIdea>, idea: DateIdea, e: Event): real {
    if IsRatedCompletion(e) then
      match FindIdeaFor(ideas, e.title)
      case None => 0.0
      case Some(k) =>
        var common := CommonTagCount(idea.tags, ideas[k].tags);
        if common > 0 then
          (if e.rating.value > 0.7 then 2.0 * common as real else 0.0)
          + (if e.rating.value < 0.4 then -2.0 * common as real else 0.0)
        else 0.0
    else 0.0
  }

  /** What the past events together add to an idea's score. */
  function HistoryTerm(ideas: seq<DateIdea>, idea: DateIdea, es: seq<Event>): real {
    if es == [] then 0.0 else HistoryTerm(ideas, idea, es[..|es| - 1]) + EventTerm(ideas, idea, es[|es| - 1])
  }

  /** The score of one idea: the rain exclusion, or the sum of the four terms. */
  function IdeaScore(ideas: seq<DateIdea>, idea: DateIdea, ctx: PlannerContext, target: Tier): real {
    if ctx.weather == Some(Rainy) && idea.environment == Outdoor then -100.0
    else
      WeatherTerm(ctx.weather, idea.environment) + EnergyTerm(ctx.energy, idea.energyLevel)
      + TierTerm(idea.budgetTier, target) + HistoryTerm(ideas, idea, ctx.pastEvents)
  }

  /** Each rated completion contributes +2 per shared tag above 0.7, -2 per shared tag below 0.4, else nothing. */
  lemma EventTermCases(ideas: seq<DateIdea>, idea: DateIdea, e: Event)
    ensures !IsRatedCompletion(e) ==> EventTerm(ideas, idea, e) == 0.0
    ensures IsRatedCompletion(e) && 0.4 <= e.rating.value <= 0.7 ==> EventTerm(ideas, idea, e) == 0.0
    ensures IsRatedCompletion(e) && FindIdeaFor(ideas, e.title).None? ==> EventTerm(ideas, idea, e) == 0.0
    ensures IsRatedCompletion(e) && FindIdeaFor(ideas, e.title).Some? ==>
      var k := CommonTagCount(idea.tags, ideas[FindIdeaFor(ideas, e.title).value].tags) as real;
      && (e.rating.value > 0.7 ==> EventTerm(ideas, idea, e) == 2.0 * k)
      && (e.rating.value < 0.4 ==> EventTerm(ideas, idea, e) == -2.0 * k)
  {
  }

  /** The rated completions among `es`, in order. */
  function RatedCompletions(es: seq<Event>): seq<Event> {
    if es == [] then []
    else RatedCompletions(es[..|es| - 1]) + (if IsRatedCompletion(es[|es| - 1]) then [es[|es| - 1]] else [])
  }

  lemma {:induction false} HistoryTermAppend(ideas: seq<DateIdea>, idea: DateIdea, a: seq<Event>, b: seq<Event>)
    ensures HistoryTerm(ideas, idea, a + b) == HistoryTerm(ideas, idea, a) + HistoryTerm(ideas, idea, b)
    decreases |b|
  {
    if b == [] {
      assert a + b == a;
    } else {
      assert (a + b)[..|a + b| - 1] == a + b[..|b| - 1];
      HistoryTermAppend(ideas, idea, a, b[..|b| - 1]);
    }
  }

  /** Only completed, rated events move a score: dropping all the others changes nothing. */
  lemma {:induction false} HistoryReadsOnlyRatedCompletions(ideas: seq<DateIdea>, idea: DateIdea, es: seq<Event>)
    ensures HistoryTerm(ideas, idea, es) == HistoryTerm(ideas, idea, RatedCompletions(es))
    decreases |es|
  {
    if es != [] {
      var init, last := es[..|es| - 1], es[|es| - 1];
      HistoryReadsOnlyRatedCompletions(ideas, idea, init);
      var tail := if IsRatedCompletion(last) then [last] else [];
      HistoryTermAppend(ideas, idea, RatedCompletions(init), tail);
      if tail != [] {
        assert tail[..0] == [];
      }
    }
  }

  /** Each past event moves a score by at most two points per tag of the idea. */
  lemma {:induction false} HistoryTermBounded(ideas: seq<DateIdea>, idea: DateIdea, es: seq<Event>)
    ensures -2.0 * (|idea.tags| * |es|) as real <= HistoryTerm(ideas, idea, es) <= 2.0 * (|idea.tags| * |es|) as real
    decreases |es|
  {
    if es != [] {
      HistoryTermBounded(ideas, idea, es[..|es| - 1]);
      assert (|idea.tags| * |es|) == |idea.tags| * (|es| - 1) + |idea.tags|;
    }
  }

  /** Under rain an outdoor idea gets the exclusion score, far below the -50 cut. */
  lemma RainExcludesOutdoor(ideas: seq<DateIdea>, idea: DateIdea, ctx: PlannerContext, target: Tier)
    requires ctx.weather == Some(Rainy) && idea.environment == Outdoor
    ensures IdeaScore(ideas, idea, ctx, target) == -100.0 <= -50.0
  {
  }

  /** Under rain every idea that survives the -50 cut is an indoor one. */
  lemma RainKeepsOnlyIndoor(ideas: seq<DateIdea>, idea: DateIdea, ctx: PlannerContext, target: Tier)
    requires ctx.weather == Some(Rainy) && IdeaScore(ideas, idea, ctx, target) > -50.0
    ensures idea.environment == Indoor
  {
  }

  /** With the default context only the tier term remains, so no idea is dropped. */
  lemma EmptyContextScore(ideas: seq<DateIdea>, idea: DateIdea, target: Tier)
    ensures IdeaScore(ideas, idea, EmptyContext, target) == TierTerm(idea.budgetTier, target) > -50.0
  {
  }

  /** Scores one idea the way the source's `map` callback does, accumulating into `score`. */
  method ScoreIdea(ideas: seq<DateIdea>, idea: DateIdea, ctx: PlannerContext, target: Tier) returns (score: real)
    ensures score == IdeaScore(ideas, idea, ctx, target)
    ensures ctx.weather == Some(Rainy) && idea.environment == Outdoor ==> score == -100.0
  {
    score := 0.0;
    if ctx.weather == Some(Rainy) && idea.environment == Outdoor {
      return -100.0;
    }
    if ctx.weather == Some(Sunny) && idea.environment == Outdoor {
      score := score + 2.0;
    }
    if ctx.energy == Some(Energy.Chill) && idea.energyLevel == EnergyLevel.High { score := score - 5.0; }
    if ctx.energy == Some(Energetic) && idea.energyLevel == EnergyLevel.Low { score := score - 5.0; }
    if ctx.energy == Some(Energy.Chill) && idea.energyLevel == EnergyLevel.Low { score := score + 3.0; }
    if ctx.energy == Some(Energetic) && idea.energyLevel == EnergyLevel.High { score := score + 3.0; }
    if idea.budgetTier == target {
      score := score + 10.0;
    } else if Abs(TierVal(idea.budgetTier) - TierVal(target)) == 1 {
      score := score + 2.0;
    } else {
      score := score - 10.0;
    }
    ghost var base := score;
    var events := ctx.pastEvents;
    var i := 0;
    while i < |events|
      invariant 0 <= i <= |events|
      invariant score == base + HistoryTerm(ideas, idea, events[..i])
    {
      score := LearnFromEvent(ideas, idea, events[i], score);
      assert events[..i + 1][..i] == events[..i];
      i := i + 1;
    }
    assert events[..i] == events;
  }

  /** The `forEach` callback of the learning layer: adds one past event's term to `score`. */
  method LearnFromEvent(ideas: seq<DateIdea>, idea: DateIdea, e: Event, score: real) returns (updated: real)
    ensures updated == score + EventTerm(ideas, idea, e)
  {
    updated := score;
    if e.status == Completed && e.rating.Some? {
      var original := FindIdeaFor(ideas, e.title);
      if original.Some? {
        var common := CommonTagCount(idea.tags, ideas[original.value].tags);
        if common > 0 {
          if e.rating.value > 0.7 { updated := updated + 2.0 * common as real; }
          if e.rating.value < 0.4 { updated := updated - 2.0 * common as real; }
        }
      }
    }
  }

  /** Every catalogue idea with its score, in catalogue order. */
  function ScoredCatalog(ideas: seq<DateIdea>, ctx: PlannerContext, target: Tier): seq<ScoredIdea> {
    seq(|ideas|, i requires 0 <= i < |ideas| => ScoredIdea(i, ideas[i], IdeaScore(ideas, ideas[i], ctx, target)))
  }

  /** The `DATE_IDEAS.map(…)` step. */
  method ScoreCatalog(ideas: seq<DateIdea>, ctx: PlannerContext, target: Tier) returns (scored: seq<ScoredIdea>)
    ensures scored == ScoredCatalog(ideas, ctx, target)
    ensures forall i :: 0 <= i < |scored| ==> scored[i].entry == i && scored[i].idea == ideas[i]
  {
    scored := [];
    var i := 0;
    while i < |ideas|
      invariant 0 <= i <= |ideas|
      invariant scored == ScoredCatalog(ideas, ctx, target)[..i]
    {
      var s := ScoreIdea(ideas, ideas[i], ctx, target);
      scored := scored + [ScoredIdea(i, ideas[i], s)];
      i := i + 1;
    }
  }

  /** `candidates.filter(c => c.score > -50)`. */
  function Viable(s: seq<ScoredIdea>): (r: seq<ScoredIdea>)
    ensures |r| <= |s|
    ensures forall x :: x in r <==> x in s && x.score > -50.0
    ensures (forall i :: 0 <= i < |s| ==> s[i].score > -50.0) ==> r == s
  {
    if s == [] then [] else (if s[0].score > -50.0 then [s[0]] else []) + Viable(s[1..])
  }

  /** Filtering a list without repetitions gives a list without repetitions. */
  lemma {:induction false} ViableDistinct(s: seq<ScoredIdea>)
    requires Distinct(s)
    ensures Distinct(Viable(s))
    decreases |s|
  {
    if s != [] {
      ViableDistinct(s[1..]);
      if s[0].score > -50.0 {
        assert s[0] !in s[1..];
      }
    }
  }

  /** The ideas that survive the -50 cut, for a given budget, count and context. */
  function ViableIdeas(ideas: seq<DateIdea>, totalBudget: real, count: int, ctx: PlannerContext): seq<ScoredIdea> {
    Viable(ScoredCatalog(ideas, ctx, TargetTier(totalBudget, count)))
  }

  /** The end index `slice(0, end)` uses on a list of length `len` (a negative end counts from the back). */
  function SliceEnd(len: nat, end: int): (r: nat)
    ensures r <= len
  {
    if end < 0 then Max(len + end, 0) else Min(end, len)
  }

  /** `Math.floor(r * m)` for a draw `r` in [0, 1): an index below `m`. */
  function SwapIndex(r: real, m: nat): (j: nat)
    requires 0.0 <= r < 1.0 && m > 0
    ensures j < m
  {
    assert r * m as real < m as real;
    (r * m as real).Floor
  }

  /** `s` with the elements at `i` and `j` exchanged. */
  function Swapped<T>(s: seq<T>, i: nat, j: nat): (r: seq<T>)
    requires i < |s| && j < |s|
    ensures |r| == |s|
  {
    s[i := s[j]][j := s[i]]
  }

  lemma SwappedPermutation<T>(s: seq<T>, i: nat, j: nat)
    requires i < |s| && j < |s|
    ensures multiset(Swapped(s, i, j)) == multiset(s)
  {
    var t := s[i := s[j]];
    assert multiset(t) == multiset(s) - multiset{s[i]} + multiset{s[j]};
    assert t[j] == (if i == j then s[j] else s[j]);
  }

  /**
   * The Fisher-Yates swaps from index `i` down to 1, the swap at index `i`
   * using the `draw`-th random value.
   */
  function ShuffleFrom<T>(s: seq<T>, i: int, draw: nat, random: nat -> real): (r: seq<T>)
    requires forall k :: 0.0 <= random(k) < 1.0
    requires i < |s|
    ensures |r| == |s|
    decreases i
  {
    if i <= 0 then s
    else ShuffleFrom(Swapped(s, i, SwapIndex(random(draw), i + 1)), i - 1, draw + 1, random)
  }

  /** `shuffle(arr)` with the draws of `random`. */
  function Shuffled<T>(s: seq<T>, random: nat -> real): (r: seq<T>)
    requires forall k :: 0.0 <= random(k) < 1.0
    ensures |r| == |s|
  {
    ShuffleFrom(s, |s| - 1, 0, random)
  }

  lemma {:induction false} ShuffleFromPermutation<T>(s: seq<T>, i: int, draw: nat, random: nat -> real)
    requires forall k :: 0.0 <= random(k) < 1.0
    requires i < |s|
    ensures multiset(ShuffleFrom(s, i, draw, random)) == multiset(s)
    decreases i
  {
    if i > 0 {
      var j := SwapIndex(random(draw), i + 1);
      SwappedPermutation(s, i, j);
      ShuffleFromPermutation(Swapped(s, i, j), i - 1, draw + 1, random);
    }
  }

  /** Whatever the draws, the shuffle rearranges its input. */
  lemma ShuffledPermutation<T>(s: seq<T>, random: nat -> real)
    requires forall k :: 0.0 <= random(k) < 1.0
    ensures multiset(Shuffled(s, random)) == multiset(s)
  {
    ShuffleFromPermutation(s, |s| - 1, 0, random);
  }

  /** `[array[i], array[j]] = [array[j], array[i]]`. */
  method SwapCells<T>(a: array<T>, i: nat, j: nat)
    requires i < a.Length && j < a.Length
    modifies a
    ensures a[..] == Swapped(old(a[..]), i, j)
  {
    a[i], a[j] := a[j], a[i];
  }

  /**
   * `shuffle`: copies `arr` and, for i from the last index down to 1, swaps
   * cell i with cell floor(random * (i + 1)); `arr` itself is a value and
   * stays as it was.
   */
  method Shuffle<T>(arr: seq<T>, random: nat -> real) returns (r: seq<T>)
    requires forall k :: 0.0 <= random(k) < 1.0
    ensures r == Shuffled(arr, random)
    ensures multiset(r) == multiset(arr)
  {
    var a := new T[|arr|](i requires 0 <= i < |arr| => arr[i]);
    assert a[..] == arr;
    var i := a.Length - 1;
    var draw := 0;
    while i > 0
      invariant -1 <= i < a.Length
      invariant ShuffleFrom(a[..], i, draw, random) == Shuffled(arr, random)
    {
      var j := SwapIndex(random(draw), i + 1);
      SwapCells(a, i, j);
      i := i - 1;
      draw := draw + 1;
    }
    r := a[..];
    ShuffledPermutation(arr, random);
  }

  /** The title of the `index`-th plan (0-based): "Date <index + 1>: <title up to its first ':', trimmed>". */
  function DateTitle(index: nat, title: string): string {
    "Date " + NatToString(index + 1) + ": " + Trim(Before(title, ':'))
  }

  /** A title without ':' and without surrounding white space is kept whole after the prefix. */
  lemma DateTitleKeepsPlainTitle(index: nat, title: string)
    requires ':' !in title
    requires title == [] || (!IsSpace(title[0]) && !IsSpace(title[|title| - 1]))
    ensures DateTitle(index, title) == "Date " + NatToString(index + 1) + ": " + title
  {
    assert Before(title, ':') == title;
    TrimUntouched(title);
  }

  /** The final `map`: every selected idea renamed after its position, all other fields copied. */
  function Relabel(s: seq<ScoredIdea>): seq<ScoredIdea> {
    seq(|s|, i requires 0 <= i < |s| => s[i].(idea := s[i].idea.(title := DateTitle(i, s[i].idea.title))))
  }

  /** Facts about the scored catalogue that the selection keeps. */
  lemma ScoredCatalogEntries(ideas: seq<DateIdea>, ctx: PlannerContext, target: Tier)
    ensures Distinct(ScoredCatalog(ideas, ctx, target))
    ensures forall c :: c in ScoredCatalog(ideas, ctx, target) ==>
      c.entry < |ideas| && ScoredCatalog(ideas, ctx, target)[c.entry] == c
  {
  }

  /** The best `size` viable ideas, in the order of the stable descending sort. */
  function TopPool(ideas: seq<DateIdea>, ctx: PlannerContext, target: Tier, size: nat): seq<ScoredIdea> {
    var sorted := SortDesc(Viable(ScoredCatalog(ideas, ctx, target)), ScoreOf);
    sorted[..Min(|sorted|, size)]
  }

  /** The shuffled pool cut to `count` ideas, before relabelling. */
  function Selection(ideas: seq<DateIdea>, totalBudget: real, count: int, ctx: PlannerContext, random: nat -> real): seq<ScoredIdea>
    requires forall k :: 0.0 <= random(k) < 1.0
  {
    var shuffled := Shuffled(TopPool(ideas, ctx, TargetTier(totalBudget, count), Max(count, 10)), random);
    shuffled[..SliceEnd(|shuffled|, count)]
  }

  /**
   * What `generateMonthlyPlan` returns, as a function of the catalogue, the
   * budget, the count, the context and the draws; the mood is not among them.
   */
  function MonthlyPlanSpec(ideas: seq<DateIdea>, totalBudget: real, count: int, ctx: PlannerContext, random: nat -> real): seq<ScoredIdea>
    requires forall k :: 0.0 <= random(k) < 1.0
  {
    Relabel(Selection(ideas, totalBudget, count, ctx, random))
  }

  /** The pool holds the best `size` viable ideas, without repetition, each beaten by fewer than `size` viable ideas. */
  lemma TopPoolFacts(ideas: seq<DateIdea>, ctx: PlannerContext, target: Tier, size: nat)
    ensures |TopPool(ideas, ctx, target, size)| == Min(|Viable(ScoredCatalog(ideas, ctx, target))|, size)
    ensures Distinct(TopPool(ideas, ctx, target, size))
    ensures forall x :: x in TopPool(ideas, ctx, target, size) ==>
      && x in Viable(ScoredCatalog(ideas, ctx, target))
      && CountAbove(Viable(ScoredCatalog(ideas, ctx, target)), ScoreOf, x.score) < size
  {
    var candidates := Viable(ScoredCatalog(ideas, ctx, target));
    var sorted := SortDesc(candidates, ScoreOf);
    var pool := TopPool(ideas, ctx, target, size);
    SortDescSorted(candidates, ScoreOf);
    SortDescPermutation(candidates, ScoreOf);
    ScoredCatalogEntries(ideas, ctx, target);
    ViableDistinct(ScoredCatalog(ideas, ctx, target));
    DistinctPermutation(candidates, sorted);
    forall x | x in pool
      ensures x in candidates && CountAbove(candidates, ScoreOf, x.score) < size
    {
      TopPoolMember(candidates, sorted, ScoreOf, |pool|, x);
    }
  }

  /**
   * The selection has `count` ideas capped by the pool size (a negative
   * `count` drops that many from the end of the pool), all from the pool and
   * none twice.
   */
  lemma SelectionFacts(ideas: seq<DateIdea>, totalBudget: real, count: int, ctx: PlannerContext, random: nat -> real)
    requires forall k :: 0.0 <= random(k) < 1.0
    ensures var sel := Selection(ideas, totalBudget, count, ctx, random);
      var pool := TopPool(ideas, ctx, TargetTier(totalBudget, count), Max(count, 10));
      && |sel| == SliceEnd(Min(|ViableIdeas(ideas, totalBudget, count, ctx)|, Max(count, 10)), count)
      && (forall x :: x in sel ==> x in pool)
      && Distinct(sel)
  {
    var target := TargetTier(totalBudget, count);
    var pool := TopPool(ideas, ctx, target, Max(count, 10));
    var shuffled := Shuffled(pool, random);
    var sel := shuffled[..SliceEnd(|shuffled|, count)];
    TopPoolFacts(ideas, ctx, target, Max(count, 10));
    ShuffledPermutation(pool, random);
    DistinctPermutation(pool, shuffled);
    forall x | x in sel
      ensures x in pool
    {
      assert x in multiset(shuffled);
    }
  }

  /**
   * A monthly plan has `count` entries, capped by the number of viable ideas
   * (a negative `count` drops that many from the end of the pool).
   */
  lemma MonthlyPlanLength(ideas: seq<DateIdea>, totalBudget: real, count: int, ctx: PlannerContext, random: nat -> real)
    requires forall k :: 0.0 <= random(k) < 1.0
    ensures var plans := MonthlyPlanSpec(ideas, totalBudget, count, ctx, random);
      && |plans| == SliceEnd(Min(|ViableIdeas(ideas, totalBudget, count, ctx)|, Max(count, 10)), count)
      && (count >= 0 ==> |plans| == Min(count, |ViableIdeas(ideas, totalBudget, count, ctx)|))
  {
    SelectionFacts(ideas, totalBudget, count, ctx, random);
  }

  /**
   * Every plan is a catalogue idea with only its title changed, carrying its
   * score, which is above -50, and fewer than `max(count, 10)` viable ideas
   * score higher.
   */
  lemma MonthlyPlanEntries(ideas: seq<DateIdea>, totalBudget: real, count: int, ctx: PlannerContext, random: nat -> real)
    requires forall k :: 0.0 <= random(k) < 1.0
    ensures var plans := MonthlyPlanSpec(ideas, totalBudget, count, ctx, random);
      forall i :: 0 <= i < |plans| ==>
        && plans[i].entry < |ideas|
        && plans[i].idea == ideas[plans[i].entry].(title := DateTitle(i, ideas[plans[i].entry].title))
        && plans[i].score == IdeaScore(ideas, ideas[plans[i].entry], ctx, TargetTier(totalBudget, count))
        && plans[i].score > -50.0
        && CountAbove(ViableIdeas(ideas, totalBudget, count, ctx), ScoreOf, plans[i].score) < Max(count, 10)
  {
    var target := TargetTier(totalBudget, count);
    var sel := Selection(ideas, totalBudget, count, ctx, random);
    var scored := ScoredCatalog(ideas, ctx, target);
    SelectionFacts(ideas, totalBudget, count, ctx, random);
    TopPoolFacts(ideas, ctx, target, Max(count, 10));
    ScoredCatalogEntries(ideas, ctx, target);
    forall i | 0 <= i < |sel|
      ensures sel[i] in scored && sel[i].score > -50.0
      ensures CountAbove(Viable(scored), ScoreOf, sel[i].score) < Max(count, 10)
    {
    }
  }

  /** No catalogue idea is planned twice. */
  lemma MonthlyPlanNoRepeats(ideas: seq<DateIdea>, totalBudget: real, count: int, ctx: PlannerContext, random: nat -> real)
    requires forall k :: 0.0 <= random(k) < 1.0
    ensures var plans := MonthlyPlanSpec(ideas, totalBudget, count, ctx, random);
      forall i, j :: 0 <= i < j < |plans| ==> plans[i].entry != plans[j].entry
  {
    var target := TargetTier(totalBudget, count);
    var sel := Selection(ideas, totalBudget, count, ctx, random);
    var scored := ScoredCatalog(ideas, ctx, target);
    SelectionFacts(ideas, totalBudget, count, ctx, random);
    TopPoolFacts(ideas, ctx, target, Max(count, 10));
    ScoredCatalogEntries(ideas, ctx, target);
    forall i, j | 0 <= i < j < |sel|
      ensures sel[i].entry != sel[j].entry
    {
      assert sel[i] in scored && sel[j] in scored;
      assert scored[sel[i].entry] == sel[i] != sel[j] == scored[sel[j].entry];
    }
  }

  /** Under rain every plan is an indoor idea. */
  lemma MonthlyPlanRainIndoor(ideas: seq<DateIdea>, totalBudget: real, count: int, ctx: PlannerContext, random: nat -> real)
    requires forall k :: 0.0 <= random(k) < 1.0
    requires ctx.weather == Some(Rainy)
    ensures var plans := MonthlyPlanSpec(ideas, totalBudget, count, ctx, random);
      forall i :: 0 <= i < |plans| ==> plans[i].idea.environment == Indoor
  {
    var plans := MonthlyPlanSpec(ideas, totalBudget, count, ctx, random);
    MonthlyPlanEntries(ideas, totalBudget, count, ctx, random);
    forall i | 0 <= i < |plans|
      ensures plans[i].idea.environment == Indoor
    {
      RainKeepsOnlyIndoor(ideas, ideas[plans[i].entry], ctx, TargetTier(totalBudget, count));
    }
  }

  /** The scoring, filtering, ranking and pool steps of `generateMonthlyPlan`. */
  method TopCandidates(ideas: seq<DateIdea>, ctx: PlannerContext, target: Tier, size: nat) returns (pool: seq<ScoredIdea>)
    ensures pool == TopPool(ideas, ctx, target, size)
  {
    var scored := ScoreCatalog(ideas, ctx, target);
    var candidates := Viable(scored);
    var arr := new ScoredIdea[|candidates|](i requires 0 <= i < |candidates| => candidates[i]);
    assert arr[..] == candidates;
    SortByKeyDesc(arr, ScoreOf);
    var sorted := arr[..];
    pool := sorted[..Min(|sorted|, size)];
  }

  /**
   * The body of `generateMonthlyPlan`, over a catalogue `ideas` (the source
   * always passes `DATE_IDEAS`). The mood is accepted and, as in the source,
   * never read: the result is `MonthlyPlanSpec`, which does not take it.
   */
  method MonthlyPlan(ideas: seq<DateIdea>, totalBudget: real, count: int, compositeMood: real, ctx: PlannerContext, random: nat -> real)
    returns (plans: seq<ScoredIdea>)
    requires forall k :: 0.0 <= random(k) < 1.0
    ensures plans == MonthlyPlanSpec(ideas, totalBudget, count, ctx, random)
  {
    var target := TargetTier(totalBudget, count);
    var pool := TopCandidates(ideas, ctx, target, Max(count, 10));
    var shuffled := Shuffle(pool, random);
    var selected := shuffled[..SliceEnd(|shuffled|, count)];
    plans := Relabel(selected);
  }

  /** `generateMonthlyPlan(totalBudget, count, compositeMood, ctx)` over the fixed catalogue. */
  method GenerateMonthlyPlan(totalBudget: real, count: int, compositeMood: real, ctx: PlannerContext, random: nat -> real)
    returns (plans: seq<ScoredIdea>)
    requires forall k :: 0.0 <= random(k) < 1.0
    ensures plans == MonthlyPlanSpec(DateIdeas, totalBudget, count, ctx, random)
  {
    plans := MonthlyPlan(DateIdeas, totalBudget, count, compositeMood, ctx, random);
  }

  /** With the default context every idea of the catalogue survives the cut. */
  lemma EmptyContextKeepsAll(ideas: seq<DateIdea>, totalBudget: real, count: int)
    ensures ViableIdeas(ideas, totalBudget, count, EmptyContext) == ScoredCatalog(ideas, EmptyContext, TargetTier(totalBudget, count))
  {
    var target := TargetTier(totalBudget, count);
    forall i | 0 <= i < |ideas|
      ensures ScoredCatalog(ideas, EmptyContext, target)[i].score > -50.0
    {
      EmptyContextScore(ideas, ideas[i], target);
    }
  }

  /** A one-date month with the default context over a non-empty catalogue has exactly one plan. */
  lemma DatePlanSingle(ideas: seq<DateIdea>, budget: real, random: nat -> real)
    requires |ideas| > 0
    requires forall k :: 0.0 <= random(k) < 1.0
    ensures |MonthlyPlanSpec(ideas, budget, 1, EmptyContext, random)| == 1
  {
    MonthlyPlanLength(ideas, budget, 1, EmptyContext, random);
    EmptyContextKeepsAll(ideas, budget, 1);
  }

  /**
   * That plan is a catalogue idea titled "Date 1: …" and scored by its
   * budget tier alone.
   */
  lemma DatePlanFacts(ideas: seq<DateIdea>, budget: real, random: nat -> real)
    requires |ideas| > 0
    requires forall k :: 0.0 <= random(k) < 1.0
    ensures var plans := MonthlyPlanSpec(ideas, budget, 1, EmptyContext, random);
      && |plans| == 1
      && plans[0].entry < |ideas|
      && plans[0].idea == ideas[plans[0].entry].(title := DateTitle(0, ideas[plans[0].entry].title))
      && plans[0].score == TierTerm(ideas[plans[0].entry].budgetTier, TierOf(budget))
  {
    MonthlyPlanEntries(ideas, budget, 1, EmptyContext, random);
    DatePlanSingle(ideas, budget, random);
    var plans := MonthlyPlanSpec(ideas, budget, 1, EmptyContext, random);
    EmptyContextScore(ideas, ideas[plans[0].entry], TierOf(budget));
  }

  /**
   * The body of `generateDatePlan` over a non-empty catalogue: the single
   * plan of a one-date month with the default context. The two moods are
   * averaged and, like the mood of `generateMonthlyPlan`, never read.
   */
  method DatePlan(ideas: seq<DateIdea>, budget: real, myMood: real, partnerMood: real, random: nat -> real)
    returns (plan: ScoredIdea)
    requires |ideas| > 0
    requires forall k :: 0.0 <= random(k) < 1.0
    ensures |MonthlyPlanSpec(ideas, budget, 1, EmptyContext, random)| == 1
    ensures plan == MonthlyPlanSpec(ideas, budget, 1, EmptyContext, random)[0]
  {
    var plans := MonthlyPlan(ideas, budget, 1, (myMood + partnerMood) / 2.0, EmptyContext, random);
    DatePlanSingle(ideas, budget, random);
    plan := plans[0];
  }

  /** `generateDatePlan(budget, myMood, partnerMood)` over the fixed catalogue. */
  method GenerateDatePlan(budget: real, myMood: real, partnerMood: real, random: nat -> real)
    returns (plan: ScoredIdea)
    requires forall k :: 0.0 <= random(k) < 1.0
    ensures |MonthlyPlanSpec(DateIdeas, budget, 1, EmptyContext, random)| == 1
    ensures plan == MonthlyPlanSpec(DateIdeas, budget, 1, EmptyContext, random)[0]
  {
    CatalogueSize();
    plan := DatePlan(DateIdeas, budget, myMood, partnerMood, random);
  }
}
