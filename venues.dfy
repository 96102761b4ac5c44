/**
 * Venue recommendation by emotion: a 0-1 "how special should it feel" value
 * picks a price level, an emotion category and a budget band; the couple's
 * past successful dates give a preferred price range; every venue the
 * provider returns is scored against these, tagged, ranked, and the best ten
 * are kept.
 *
 * The venue provider (a web search or mock data) is the input `places`;
 * `parseFloat` is the input `parse`, with `None` standing for NaN.
 */
module Venues {
  import opened Wrappers
  import opened Sorting
  import opened Text
  import opened Events

  /** The interest categories a venue search can ask for. */
  datatype Interest = Food | Nature | Art | Active | Music | Nightlife

  /** `'comfort' | 'spot_on' | 'treat'`. */
  datatype EmotionCategory = Comfort | SpotOn | Treat

  /** Price levels `$` to `$$$$`. */
  type PriceLevel = n: int | 1 <= n <= 4 witness 1

  datatype PriceRange = PriceRange(min: real, max: real)

  datatype PriceDistribution = PriceDistribution(low: nat, mid: nat, high: nat)

  datatype EmotionPattern = EmotionPattern(
    avgSuccessfulPrice: real,
    priceDistribution: PriceDistribution,
    successRate: real,
    preferredPriceRange: PriceRange)

  /**
   * The fields of a venue the ranking reads or writes; the optional fields
   * are `None` until the search fills them in.
   */
  datatype Place = Place(
    placeId: string,
    name: string,
    address: string,
    priceLevel: PriceLevel,
    estimatedCost: real,
    rating: real,
    userRatingsTotal: int,
    category: Option<Interest>,
    emotionTag: Option<EmotionCategory>,
    emotionScore: Option<real>,
    score: Option<real>)

  /** The match result a date is rated with when it felt right. */
  const SpotOnLabel: string := "Spot On ✨"

  // ---------------------------------------------------------------------
  // Emotion value to price level, budget band and category
  // ---------------------------------------------------------------------

  function EmotionToPriceLevel(emotionValue: real): (level: PriceLevel)
    ensures level == 1 <==> emotionValue < 0.25
    ensures level == 2 <==> 0.25 <= emotionValue < 0.75
    ensures level == 3 <==> 0.75 <= emotionValue < 0.95
    ensures level == 4 <==> 0.95 <= emotionValue
  {
    if emotionValue < 0.25 then 1
    else if emotionValue < 0.75 then 2
    else if emotionValue < 0.95 then 3
    else 4
  }

  /** A higher emotion value never asks for a cheaper venue. */
  lemma PriceLevelMonotone(a: real, b: real)
    requires a <= b
    ensures EmotionToPriceLevel(a) <= EmotionToPriceLevel(b)
  {
  }

  /** The base budget scaled by the band multipliers of the emotion value's price level. */
  function EmotionToBudgetRange(emotionValue: real, baseBudget: real): (r: PriceRange)
    ensures baseBudget >= 0.0 ==> 0.0 <= r.min <= r.max
    ensures baseBudget > 0.0 ==> r.min < r.max
  {
    match EmotionToPriceLevel(emotionValue)
    case 1 => PriceRange(baseBudget * 0.5, baseBudget * 1.2)
    case 2 => PriceRange(baseBudget * 0.8, baseBudget * 1.5)
    case 3 => PriceRange(baseBudget * 1.2, baseBudget * 2.0)
    case 4 => PriceRange(baseBudget * 1.5, baseBudget * 3.0)
  }

  /** With a non-negative budget, a higher emotion value moves both ends of the band up (or leaves them). */
  lemma BudgetRangeMonotone(a: real, b: real, baseBudget: real)
    requires a <= b && baseBudget >= 0.0
    ensures EmotionToBudgetRange(a, baseBudget).min <= EmotionToBudgetRange(b, baseBudget).min
    ensures EmotionToBudgetRange(a, baseBudget).max <= EmotionToBudgetRange(b, baseBudget).max
  {
    PriceLevelMonotone(a, b);
  }

  /**
   * For a positive budget, the `$` and `$$` bands contain the base budget,
   * while the `$$$` and `$$$$` bands lie wholly above it.
   */
  lemma BudgetBandAgainstBase(emotionValue: real, baseBudget: real)
    requires baseBudget > 0.0
    ensures var r := EmotionToBudgetRange(emotionValue, baseBudget);
      && (EmotionToPriceLevel(emotionValue) <= 2 <==> r.min <= baseBudget <= r.max)
      && (EmotionToPriceLevel(emotionValue) >= 3 <==> baseBudget < r.min)
  {
  }

  function GetEmotionCategory(emotionValue: real): (c: EmotionCategory)
    ensures c == Comfort <==> EmotionToPriceLevel(emotionValue) == 1
    ensures c == SpotOn <==> EmotionToPriceLevel(emotionValue) == 2
    ensures c == Treat <==> EmotionToPriceLevel(emotionValue) >= 3
  {
    if emotionValue < 0.25 then Comfort
    else if emotionValue < 0.75 then SpotOn
    else Treat
  }

  // ---------------------------------------------------------------------
  // Price tables
  // ---------------------------------------------------------------------

  /** Cost for two at a price level; an unknown level costs as `$$`. */
  function EstimateCostFromPriceLevel(priceLevel: int): (cost: real)
    ensures 30.0 <= cost <= 300.0
    ensures priceLevel !in {1, 2, 3, 4} ==> cost == 70.0
  {
    if priceLevel == 1 then 30.0
    else if priceLevel == 2 then 70.0
    else if priceLevel == 3 then 150.0
    else if priceLevel == 4 then 300.0
    else 70.0
  }

  /** Across the four levels the estimated cost strictly rises. */
  lemma CostRisesWithLevel(a: PriceLevel, b: PriceLevel)
    requires a < b
    ensures EstimateCostFromPriceLevel(a) < EstimateCostFromPriceLevel(b)
  {
  }

  datatype PriceInfo = PriceInfo(priceLevel: PriceLevel, estimatedCost: real)

  /**
   * The price part of turning a provider result into a venue: a missing or
   * zero `price_level` counts as 2, the cost is estimated from that value,
   * and the stored level is that value clamped into 1..4.
   */
  function TransformPrice(rawLevel: Option<int>): (info: PriceInfo)
    ensures rawLevel.None? || rawLevel == Some(0) ==> info == PriceInfo(2, 70.0)
    ensures rawLevel.Some? && 1 <= rawLevel.value <= 4 ==>
      info == PriceInfo(rawLevel.value, EstimateCostFromPriceLevel(rawLevel.value))
    ensures rawLevel.Some? && rawLevel.value < 0 ==> info == PriceInfo(1, 70.0)
    ensures rawLevel.Some? && rawLevel.value > 4 ==> info == PriceInfo(4, 70.0)
  {
    var level := if rawLevel.None? || rawLevel.value == 0 then 2 else rawLevel.value;
    PriceInfo(Min(4, Max(1, level)), EstimateCostFromPriceLevel(level))
  }

  /** `'$'.repeat(priceLevel)`. */
  function GetPriceLevelSymbol(priceLevel: PriceLevel): (symbol: string)
    ensures |symbol| == priceLevel
    ensures forall i :: 0 <= i < |symbol| ==> symbol[i] == '$'
  {
    Repeat('$', priceLevel)
  }

  // ---------------------------------------------------------------------
  // Success patterns of past dates
  // ---------------------------------------------------------------------

  /** A completed date rated above 0.7 that was judged "Spot On ✨". */
  predicate IsSuccessful(e: Event) {
    e.status == Completed && e.rating.Some? && e.rating.value > 0.7 && e.matchResult == Some(SpotOnLabel)
  }

  function Successful(es: seq<Event>): (r: seq<Event>)
    ensures |r| <= |es|
    ensures forall e :: e in r <==> e in es && IsSuccessful(e)
  {
    if es == [] then [] else (if IsSuccessful(es[0]) then [es[0]] else []) + Successful(es[1..])
  }

  /** `parseFloat(e.price) || 0`: NaN and 0 both become 0. */
  function PriceOrZero(e: Event, parse: string -> Option<real>): real {
    match parse(e.price)
    case None => 0.0
    case Some(p) => p
  }

  /** The positive prices of `es`, in order. */
  function PositivePrices(es: seq<Event>, parse: string -> Option<real>): (r: seq<real>)
    ensures |r| <= |es|
    ensures forall i :: 0 <= i < |r| ==> r[i] > 0.0
    ensures forall x :: x in r <==> exists e :: e in es && PriceOrZero(e, parse) == x && x > 0.0
  {
    if es == [] then []
    else (if PriceOrZero(es[0], parse) > 0.0 then [PriceOrZero(es[0], parse)] else []) + PositivePrices(es[1..], parse)
  }

  /** No positive price is left exactly when no event of `es` carries one. */
  lemma {:induction false} NoPositivePrices(es: seq<Event>, parse: string -> Option<real>)
    ensures |PositivePrices(es, parse)| == 0 <==> forall e :: e in es ==> PriceOrZero(e, parse) <= 0.0
  {
    if es != [] {
      NoPositivePrices(es[1..], parse);
      assert forall e :: e in es ==> e == es[0] || e in es[1..];
    }
  }

  function Sum(s: seq<real>): real {
    if s == [] then 0.0 else Sum(s[..|s| - 1]) + s[|s| - 1]
  }

  /** `Math.min(...s)` of a non-empty list. */
  function SeqMin(s: seq<real>): (m: real)
    requires s != []
    ensures m in s && forall i :: 0 <= i < |s| ==> m <= s[i]
  {
    if |s| == 1 then s[0]
    else
      var m := SeqMin(s[..|s| - 1]);
      assert forall i :: 0 <= i < |s| - 1 ==> s[..|s| - 1][i] == s[i];
      if s[|s| - 1] < m then s[|s| - 1] else m
  }

  /** `Math.max(...s)` of a non-empty list. */
  function SeqMax(s: seq<real>): (m: real)
    requires s != []
    ensures m in s && forall i :: 0 <= i < |s| ==> s[i] <= m
  {
    if |s| == 1 then s[0]
    else
      var m := SeqMax(s[..|s| - 1]);
      assert forall i :: 0 <= i < |s| - 1 ==> s[..|s| - 1][i] == s[i];
      if s[|s| - 1] > m then s[|s| - 1] else m
  }

  /** A sum of values that are all at least `lo` is at least `lo` times their number. */
  lemma {:induction false} SumAtLeast(s: seq<real>, lo: real)
    requires forall i :: 0 <= i < |s| ==> lo <= s[i]
    ensures |s| as real * lo <= Sum(s)
    decreases |s|
  {
    if s != [] {
      SumAtLeast(s[..|s| - 1], lo);
    }
  }

  /** A sum of values that are all at most `hi` is at most `hi` times their number. */
  lemma {:induction false} SumAtMost(s: seq<real>, hi: real)
    requires forall i :: 0 <= i < |s| ==> s[i] <= hi
    ensures Sum(s) <= |s| as real * hi
    decreases |s|
  {
    if s != [] {
      SumAtMost(s[..|s| - 1], hi);
    }
  }

  lemma DivAtLeast(total: real, n: real, lo: real)
    requires n > 0.0 && n * lo <= total
    ensures lo <= total / n
  {
    var q := total / n;
    assert q * n == total;
    assert (q - lo) * n >= 0.0;
  }

  lemma DivAtMost(total: real, n: real, hi: real)
    requires n > 0.0 && total <= n * hi
    ensures total / n <= hi
  {
    var q := total / n;
    assert q * n == total;
    assert (hi - q) * n >= 0.0;
  }

  /** The average of values that are all at least `lo` is at least `lo`. */
  lemma MeanAtLeast(s: seq<real>, lo: real)
    requires s != [] && forall i :: 0 <= i < |s| ==> lo <= s[i]
    ensures lo <= Sum(s) / |s| as real
  {
    SumAtLeast(s, lo);
    DivAtLeast(Sum(s), |s| as real, lo);
  }

  /** The average of values that are all at most `hi` is at most `hi`. */
  lemma MeanAtMost(s: seq<real>, hi: real)
    requires s != [] && forall i :: 0 <= i < |s| ==> s[i] <= hi
    ensures Sum(s) / |s| as real <= hi
  {
    SumAtMost(s, hi);
    DivAtMost(Sum(s), |s| as real, hi);
  }

  /** The average of a non-empty list lies between its minimum and its maximum. */
  lemma AverageBetween(s: seq<real>)
    requires s != []
    ensures SeqMin(s) <= Sum(s) / |s| as real <= SeqMax(s)
  {
    MeanAtLeast(s, SeqMin(s));
    MeanAtMost(s, SeqMax(s));
  }

  /** A share `part / whole` of a non-empty part is in (0, 1]. */
  lemma ShareInUnit(part: nat, whole: nat)
    requires 0 < part <= whole
    ensures 0.0 < part as real / whole as real <= 1.0
  {
    DivAtLeast(part as real, whole as real, 0.0);
    DivAtMost(part as real, whole as real, 1.0);
    assert part as real / whole as real != 0.0;
  }

  datatype Band = LowBand | MidBand | HighBand

  /** `parseFloat(e.price || '0')`: an empty price reads as "0". */
  function BandPrice(e: Event, parse: string -> Option<real>): Option<real> {
    parse(if e.price == "" then "0" else e.price)
  }

  /** Below 40, from 40 up to 100, or 100 and above; a NaN price falls in no band. */
  predicate InBand(e: Event, parse: string -> Option<real>, band: Band) {
    match BandPrice(e, parse)
    case None => false
    case Some(p) =>
      match band
      case LowBand => p < 40.0
      case MidBand => 40.0 <= p < 100.0
      case HighBand => p >= 100.0
  }

  /** No price is in two bands. */
  lemma BandsDisjoint(e: Event, parse: string -> Option<real>, a: Band, b: Band)
    requires InBand(e, parse, a) && InBand(e, parse, b)
    ensures a == b
  {
  }

  function CountInBand(es: seq<Event>, parse: string -> Option<real>, band: Band): (n: nat)
    ensures n <= |es|
  {
    if es == [] then 0 else (if InBand(es[0], parse, band) then 1 else 0) + CountInBand(es[1..], parse, band)
  }

  /** The three band counts together never exceed the number of events counted. */
  lemma {:induction false} BandCountsBounded(es: seq<Event>, parse: string -> Option<real>)
    ensures CountInBand(es, parse, LowBand) + CountInBand(es, parse, MidBand) + CountInBand(es, parse, HighBand) <= |es|
    decreases |es|
  {
    if es != [] {
      BandCountsBounded(es[1..], parse);
      var e := es[0];
      if InBand(e, parse, LowBand) && InBand(e, parse, MidBand) { BandsDisjoint(e, parse, LowBand, MidBand); }
      if InBand(e, parse, LowBand) && InBand(e, parse, HighBand) { BandsDisjoint(e, parse, LowBand, HighBand); }
      if InBand(e, parse, MidBand) && InBand(e, parse, HighBand) { BandsDisjoint(e, parse, MidBand, HighBand); }
    }
  }

  function PriceDistributionOf(es: seq<Event>, parse: string -> Option<real>): PriceDistribution {
    PriceDistribution(CountInBand(es, parse, LowBand), CountInBand(es, parse, MidBand), CountInBand(es, parse, HighBand))
  }

  /**
   * `analyzeEmotionPatterns`: `None` for no events, no successful event, or
   * no successful event with a positive price; otherwise the average, range
   * and bands of the successful prices and the share of successful events.
   */
  function AnalyzeEmotionPatterns(events: seq<Event>, parse: string -> Option<real>): (r: Option<EmotionPattern>)
    ensures r.None? <==>
      |events| == 0 || |Successful(events)| == 0 || |PositivePrices(Successful(events), parse)| == 0
    ensures r.Some? ==>
      0.0 < r.value.preferredPriceRange.min <= r.value.avgSuccessfulPrice <= r.value.preferredPriceRange.max
    ensures r.Some? ==> 0.0 < r.value.successRate <= 1.0
    ensures r.Some? ==>
      var d := r.value.priceDistribution;
      d.low + d.mid + d.high <= |Successful(events)|
  {
    if |events| == 0 then None
    else
      var successful := Successful(events);
      if |successful| == 0 then None
      else
        var prices := PositivePrices(successful, parse);
        if |prices| == 0 then None
        else
          AverageBetween(prices);
          BandCountsBounded(successful, parse);
          ShareInUnit(|successful|, |events|);
          Some(EmotionPattern(
            Sum(prices) / |prices| as real,
            PriceDistributionOf(successful, parse),
            |successful| as real / |events| as real,
            PriceRange(SeqMin(prices), SeqMax(prices))))
  }

  /** Rating an event above 0.7 as "Spot On ✨" makes it a success the pattern analysis counts. */
  lemma SpotOnRatingCountsAsSuccess(es: seq<Event>, id: string, rating: real, i: nat)
    requires rating > 0.7 && i < |es| && es[i].id == id
    ensures IsSuccessful(WithFinalRating(es, id, rating, SpotOnLabel)[i])
    ensures WithFinalRating(es, id, rating, SpotOnLabel)[i] in Successful(WithFinalRating(es, id, rating, SpotOnLabel))
  {
  }

  // ---------------------------------------------------------------------
  // Venue scoring and ranking
  // ---------------------------------------------------------------------

  /** Price-level fit, for food venues only. */
  function PriceMatchTerm(category: Interest, placeLevel: PriceLevel, level: PriceLevel): real {
    if category != Food then 0.0
    else if placeLevel == level then 20.0
    else if Abs(placeLevel - level) == 1 then 10.0
    else -10.0
  }

  /** Inside the band +15, above it -20, below it nothing. */
  function BudgetTerm(cost: real, band: PriceRange): real {
    if band.min <= cost <= band.max then 15.0
    else if cost > band.max then -20.0
    else 0.0
  }

  /** +25 for a food venue whose cost falls inside the couple's past successful price range. */
  function PatternTerm(category: Interest, pattern: Option<EmotionPattern>, cost: real): real {
    if pattern.Some? && category == Food
       && pattern.value.preferredPriceRange.min <= cost <= pattern.value.preferredPriceRange.max
    then 25.0
    else 0.0
  }

  function PopularityTerm(userRatingsTotal: int): real {
    if userRatingsTotal > 100 then 5.0 else 0.0
  }

  /** The score of one venue: the sum of the five terms. */
  function PlaceScore(p: Place, emotionValue: real, baseBudget: real, category: Interest, pattern: Option<EmotionPattern>): real {
    p.rating * 10.0
    + PriceMatchTerm(category, p.priceLevel, EmotionToPriceLevel(emotionValue))
    + BudgetTerm(p.estimatedCost, EmotionToBudgetRange(emotionValue, baseBudget))
    + PatternTerm(category, pattern, p.estimatedCost)
    + PopularityTerm(p.userRatingsTotal)
  }

  /** For a food search the price-level term is +20 on the level, +10 next to it, -10 further away. */
  lemma PriceMatchCases(placeLevel: PriceLevel, level: PriceLevel)
    ensures PriceMatchTerm(Food, placeLevel, level) == 20.0 <==> placeLevel == level
    ensures PriceMatchTerm(Food, placeLevel, level) == 10.0 <==> placeLevel - level in {-1, 1}
    ensures PriceMatchTerm(Food, placeLevel, level) == -10.0 <==> placeLevel - level !in {-1, 0, 1}
  {
  }

  /** Outside food searches neither the price level nor past dates matter. */
  lemma NonFoodScore(p: Place, emotionValue: real, baseBudget: real, category: Interest, pattern: Option<EmotionPattern>)
    requires category != Food
    ensures PlaceScore(p, emotionValue, baseBudget, category, pattern)
      == p.rating * 10.0 + BudgetTerm(p.estimatedCost, EmotionToBudgetRange(emotionValue, baseBudget)) + PopularityTerm(p.userRatingsTotal)
  {
  }

  /** Apart from ten times the rating, a venue's score moves by at most -30 or +65. */
  lemma PlaceScoreRange(p: Place, emotionValue: real, baseBudget: real, category: Interest, pattern: Option<EmotionPattern>)
    ensures p.rating * 10.0 - 30.0 <= PlaceScore(p, emotionValue, baseBudget, category, pattern) <= p.rating * 10.0 + 65.0
  {
  }

  /** Scores one venue the way the source's `map` callback does, accumulating into `score`. */
  method ScorePlace(p: Place, emotionValue: real, baseBudget: real, category: Interest, pattern: Option<EmotionPattern>)
    returns (score: real)
    ensures score == PlaceScore(p, emotionValue, baseBudget, category, pattern)
  {
    var priceLevel := EmotionToPriceLevel(emotionValue);
    var budgetRange := EmotionToBudgetRange(emotionValue, baseBudget);
    score := 0.0;
    score := score + p.rating * 10.0;
    if category == Food {
      if p.priceLevel == priceLevel {
        score := score + 20.0;
      } else if Abs(p.priceLevel - priceLevel) == 1 {
        score := score + 10.0;
      } else {
        score := score - 10.0;
      }
    }
    if p.estimatedCost >= budgetRange.min && p.estimatedCost <= budgetRange.max {
      score := score + 15.0;
    } else if p.estimatedCost > budgetRange.max {
      score := score - 20.0;
    }
    if pattern.Some? && category == Food {
      var price := p.estimatedCost;
      if price >= pattern.value.preferredPriceRange.min && price <= pattern.value.preferredPriceRange.max {
        score := score + 25.0;
      }
    }
    if p.userRatingsTotal > 100 {
      score := score + 5.0;
    }
  }

  /** The venue with its emotion tag, emotion score, category and score filled in. */
  function Tagged(p: Place, emotionValue: real, category: Interest, score: real): Place {
    p.(emotionTag := Some(GetEmotionCategory(emotionValue)), emotionScore := Some(emotionValue),
       category := Some(category), score := Some(score))
  }

  /** Every venue tagged and scored, in provider order. */
  function ScoredPlaces(places: seq<Place>, emotionValue: real, baseBudget: real, category: Interest, pattern: Option<EmotionPattern>): seq<Place> {
    seq(|places|, i requires 0 <= i < |places| =>
      Tagged(places[i], emotionValue, category, PlaceScore(places[i], emotionValue, baseBudget, category, pattern)))
  }

  /** The sort key `a.score || 0`. */
  function PlaceKey(p: Place): real {
    match p.score
    case None => 0.0
    case Some(s) => s
  }

  /** The pattern the search uses: past dates count for food searches only. */
  function SearchPattern(category: Interest, pastEvents: seq<Event>, parse: string -> Option<real>): Option<EmotionPattern> {
    if category == Food && |pastEvents| > 0 then AnalyzeEmotionPatterns(pastEvents, parse) else None
  }

  /** What `searchPlacesByEmotion` returns for the provider's `places`. */
  function SearchResult(places: seq<Place>, emotionValue: real, baseBudget: real, category: Interest, pattern: Option<EmotionPattern>): seq<Place> {
    var sorted := SortDesc(ScoredPlaces(places, emotionValue, baseBudget, category, pattern), PlaceKey);
    sorted[..Min(10, |sorted|)]
  }

  /** Every scored venue is a provider venue, tagged with the request and carrying its own score. */
  lemma ScoredPlaceFacts(places: seq<Place>, emotionValue: real, baseBudget: real, category: Interest,
                         pattern: Option<EmotionPattern>, x: Place)
    requires x in ScoredPlaces(places, emotionValue, baseBudget, category, pattern)
    ensures x.emotionTag == Some(GetEmotionCategory(emotionValue))
    ensures x.emotionScore == Some(emotionValue)
    ensures x.category == Some(category)
    ensures exists k :: (0 <= k < |places|
      && x == Tagged(places[k], emotionValue, category, PlaceKey(x))
      && PlaceKey(x) == PlaceScore(places[k], emotionValue, baseBudget, category, pattern))
  {
    var all := ScoredPlaces(places, emotionValue, baseBudget, category, pattern);
    var k :| 0 <= k < |all| && all[k] == x;
    assert x == Tagged(places[k], emotionValue, category, PlaceKey(x));
  }

  /**
   * At most ten venues come back, from the highest score down, and no venue
   * more often than the provider sent it.
   */
  lemma SearchResultShape(places: seq<Place>, emotionValue: real, baseBudget: real, category: Interest, pattern: Option<EmotionPattern>)
    ensures var r := SearchResult(places, emotionValue, baseBudget, category, pattern);
      && |r| == Min(10, |places|)
      && SortedDesc(r, PlaceKey)
      && multiset(r) <= multiset(ScoredPlaces(places, emotionValue, baseBudget, category, pattern))
  {
    var all := ScoredPlaces(places, emotionValue, baseBudget, category, pattern);
    var sorted := SortDesc(all, PlaceKey);
    var r := sorted[..Min(10, |sorted|)];
    SortDescSorted(all, PlaceKey);
    SortDescPermutation(all, PlaceKey);
    PrefixSubMultiset(sorted, |r|);
  }

  /** Every venue that comes back is a scored venue, and fewer than ten scored venues beat it. */
  lemma SearchResultTopTen(places: seq<Place>, emotionValue: real, baseBudget: real, category: Interest, pattern: Option<EmotionPattern>)
    ensures var r := SearchResult(places, emotionValue, baseBudget, category, pattern);
      var all := ScoredPlaces(places, emotionValue, baseBudget, category, pattern);
      forall x :: x in r ==> x in all && CountAbove(all, PlaceKey, PlaceKey(x)) < 10
  {
    var all := ScoredPlaces(places, emotionValue, baseBudget, category, pattern);
    var sorted := SortDesc(all, PlaceKey);
    var r := sorted[..Min(10, |sorted|)];
    SortDescSorted(all, PlaceKey);
    SortDescPermutation(all, PlaceKey);
    forall x | x in r
      ensures x in all && CountAbove(all, PlaceKey, PlaceKey(x)) < 10
    {
      TopPoolMember(all, sorted, PlaceKey, |r|, x);
    }
  }

  /** The source's `map` over the provider's venues: each one scored and tagged, in order. */
  method ScoreAll(places: seq<Place>, emotionValue: real, baseBudget: real, category: Interest, pattern: Option<EmotionPattern>)
    returns (scored: seq<Place>)
    ensures scored == ScoredPlaces(places, emotionValue, baseBudget, category, pattern)
  {
    scored := [];
    var i := 0;
    while i < |places|
      invariant 0 <= i <= |places| && |scored| == i
      invariant forall k :: 0 <= k < i ==>
        scored[k] == Tagged(places[k], emotionValue, category, PlaceScore(places[k], emotionValue, baseBudget, category, pattern))
    {
      var score := ScorePlace(places[i], emotionValue, baseBudget, category, pattern);
      scored := scored + [Tagged(places[i], emotionValue, category, score)];
      i := i + 1;
    }
  }

  /**
   * The scoring, sort and top-ten steps of `searchPlacesByEmotion`, over
   * the venues the provider returned.
   */
  method SearchPlacesByEmotion(
    emotionValue: real, baseBudget: real, category: Interest, pastEvents: seq<Event>,
    parse: string -> Option<real>, places: seq<Place>)
    returns (result: seq<Place>)
    ensures result == SearchResult(places, emotionValue, baseBudget, category, SearchPattern(category, pastEvents, parse))
  {
    var pattern := SearchPattern(category, pastEvents, parse);
    var scored := ScoreAll(places, emotionValue, baseBudget, category, pattern);
    var arr := new Place[|scored|](k requires 0 <= k < |scored| => scored[k]);
    assert arr[..] == scored;
    SortByKeyDesc(arr, PlaceKey);
    result := arr[..Min(10, arr.Length)];
  }
}
