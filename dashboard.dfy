/** The dashboard's derived figures: guarded rates, threshold classifiers, bar widths,
    the worst-endpoint ranking and the list truncations. */
module Dashboard {
  import opened Common
  import opened Sorting

  /** `safeRate`: a percentage, 0 when there is nothing to divide by. */
  function SafeRate(num: real, den: real): (r: real)
    ensures den <= 0.0 ==> r == 0.0
    ensures den > 0.0 ==> r * den == num * 100.0
  {
    if den > 0.0 then (num / den) * 100.0 else 0.0
  }

  /** A part of a whole is a percentage between 0 and 100. */
  lemma RateOfPartIsPercentage(num: real, den: real)
    requires 0.0 <= num <= den
    ensures 0.0 <= SafeRate(num, den) <= 100.0
  {
    if den > 0.0 {
      var r := SafeRate(num, den);
      assert r * den == num * 100.0;
      assert num * 100.0 <= den * 100.0;
    }
  }

  datatype Severity = Neutral | High | Medium | Low

  /** `severityFromScore`: a missing score is neutral, below 45 high, below 70 medium,
      otherwise low. */
  function SeverityFromScore(score: Option<real>): (s: Severity)
    ensures s == Neutral <==> score.None?
    ensures s == High <==> score.Some? && score.value < 45.0
    ensures s == Medium <==> score.Some? && 45.0 <= score.value < 70.0
    ensures s == Low <==> score.Some? && score.value >= 70.0
  {
    match score
    case None => Neutral
    case Some(v) => if v < 45.0 then High else if v < 70.0 then Medium else Low
  }

  function SeverityRank(s: Severity): nat
  {
    match s
    case Neutral => 0
    case Low => 1
    case Medium => 2
    case High => 3
  }

  /** A better score never raises the severity. */
  lemma SeverityFallsAsScoreRises(a: real, b: real)
    requires a <= b
    ensures SeverityRank(SeverityFromScore(Some(b))) <= SeverityRank(SeverityFromScore(Some(a)))
  {
  }

  datatype Tone = Good | Warning | Bad

  /** `scoreTone`: 70 and up is good, 40 and up a warning, below 40 bad. */
  function ScoreTone(score: real): (t: Tone)
    ensures t == Good <==> score >= 70.0
    ensures t == Warning <==> 40.0 <= score < 70.0
    ensures t == Bad <==> score < 40.0
  {
    if score >= 70.0 then Good else if score >= 40.0 then Warning else Bad
  }

  datatype Status = Healthy | Watch | AtRisk

  /** The AI status label for an error rate: Healthy below 3, Watch below 7, otherwise
      At Risk. */
  function StatusLabel(errorRate: real): (s: Status)
    ensures s == Healthy <==> errorRate < 3.0
    ensures s == Watch <==> 3.0 <= errorRate < 7.0
    ensures s == AtRisk <==> errorRate >= 7.0
  {
    if errorRate < 3.0 then Healthy else if errorRate < 7.0 then Watch else AtRisk
  }

  /** The status chip is coloured by `scoreTone(100 - rate)` but labelled by the rate:
      a Healthy or Watch label always comes in the good colour, while At Risk is
      coloured good up to a 30% error rate. */
  lemma StatusToneAgreement(errorRate: real)
    ensures StatusLabel(errorRate) != AtRisk ==> ScoreTone(100.0 - errorRate) == Good
    ensures ScoreTone(100.0 - errorRate) == Bad ==> StatusLabel(errorRate) == AtRisk
    ensures StatusLabel(10.0) == AtRisk && ScoreTone(100.0 - 10.0) == Good
  {
  }

  /** `Math.max(2, Math.min(100, pct))`: a bar is never thinner than 2% nor wider than
      the track. */
  function ProgressWidth(pct: real): (w: real)
    ensures 2.0 <= w <= 100.0
    ensures 2.0 <= pct <= 100.0 ==> w == pct
    ensures pct < 2.0 ==> w == 2.0
    ensures pct > 100.0 ==> w == 100.0
  {
    var capped := if pct <= 100.0 then pct else 100.0;
    if capped >= 2.0 then capped else 2.0
  }

  /** `toQualityScore`'s two shapes; the rounding to a whole percent is not modelled. */
  datatype QualityText = Unrated | Percent(value: real)

  function QualityScore(score: Option<real>): (q: QualityText)
    ensures q == Unrated <==> score.None?
    ensures score.Some? ==> q == Percent(score.value)
  {
    match score
    case None => Unrated
    case Some(v) => Percent(v)
  }

  /** `topic.total_flags || 0`. */
  function FlagCount(totalFlags: Option<int>): (n: int)
    ensures totalFlags.None? ==> n == 0
    ensures totalFlags.Some? ==> n == totalFlags.value
  {
    match totalFlags
    case None => 0
    case Some(f) => f
  }

  /** One row of the AI observability by-endpoint report. */
  datatype Endpoint = Endpoint(endpoint: string, model: Option<string>, totalCalls: real, failedCalls: real)

  /** `endpointErrorRate`. */
  function ErrorRate(e: Endpoint): real
  {
    SafeRate(e.failedCalls, e.totalCalls)
  }

  /** The comparator `(a, b) => endpointErrorRate(b) - endpointErrorRate(a)`. */
  function WorstFirst(): (Endpoint, Endpoint) -> real
  {
    (a: Endpoint, b: Endpoint) => ErrorRate(b) - ErrorRate(a)
  }

  lemma WorstFirstIsComparator()
    ensures IsComparator(WorstFirst())
  {
  }

  const EndpointLimit := 6

  /** Each endpoint's error rate is at least that of every later one. */
  ghost predicate WorstFirstOrdered(s: seq<Endpoint>)
  {
    forall i, j :: 0 <= i < j < |s| ==> ErrorRate(s[i]) >= ErrorRate(s[j])
  }

  /** `topEndpoints`: a sorted copy of the report, worst first, cut to six. */
  function TopEndpoints(byEndpoint: seq<Endpoint>): (r: seq<Endpoint>)
    ensures |r| == Min(EndpointLimit, |byEndpoint|)
    ensures multiset(r) <= multiset(byEndpoint)
    ensures WorstFirstOrdered(r)
  {
    var sorted := SortBy(byEndpoint, WorstFirst());
    WorstFirstSorted(byEndpoint);
    PrefixOfWorstFirst(sorted, EndpointLimit);
    Take(sorted, EndpointLimit)
  }

  /** The sorted report is worst first. */
  lemma WorstFirstSorted(byEndpoint: seq<Endpoint>)
    ensures WorstFirstOrdered(SortBy(byEndpoint, WorstFirst()))
  {
    var s := SortBy(byEndpoint, WorstFirst());
    WorstFirstIsComparator();
    SortBySorted(byEndpoint, WorstFirst());
    forall i, j | 0 <= i < j < |s| ensures ErrorRate(s[i]) >= ErrorRate(s[j]) {
      assert WorstFirst()(s[i], s[j]) <= 0.0;
    }
  }

  /** A prefix of a worst-first list is worst first and takes part of its elements. */
  lemma PrefixOfWorstFirst(s: seq<Endpoint>, n: nat)
    requires WorstFirstOrdered(s)
    ensures WorstFirstOrdered(Take(s, n))
    ensures multiset(Take(s, n)) <= multiset(s)
  {
    var r := Take(s, n);
    assert s == r + s[|r|..];
    assert multiset(s) == multiset(r) + multiset(s[|r|..]);
    forall i, j | 0 <= i < j < |r| ensures ErrorRate(r[i]) >= ErrorRate(r[j]) {
      assert r[i] == s[i] && r[j] == s[j];
    }
  }

  /** No endpoint left out of the top six is worse than one shown. */
  lemma TopEndpointsAreTheWorst(byEndpoint: seq<Endpoint>, e: Endpoint)
    requires e in byEndpoint && e !in TopEndpoints(byEndpoint)
    ensures forall x :: x in TopEndpoints(byEndpoint) ==> ErrorRate(x) >= ErrorRate(e)
  {
    var sorted := SortBy(byEndpoint, WorstFirst());
    WorstFirstSorted(byEndpoint);
    var r := TopEndpoints(byEndpoint);
    assert r == Take(sorted, EndpointLimit);
    assert e in multiset(byEndpoint);
    assert e in multiset(sorted);
    var k :| 0 <= k < |sorted| && sorted[k] == e;
    forall x | x in r ensures ErrorRate(x) >= ErrorRate(e) {
      var i :| 0 <= i < |r| && r[i] == x;
      assert sorted[i] == x && i < k;
    }
  }

  const LowQualityLimit := 6
  const FlaggedLimit := 6
  const ActivityLimit := 8

  /** `lowQualityTopics.slice(0, 6)`, `flaggedTopics.slice(0, 6)` and
      `recentActivity.slice(0, 8)`: the first entries of each list, in order. */
  function Shown<T>(items: seq<T>, limit: nat): (r: seq<T>)
    ensures |r| <= limit && |r| <= |items|
    ensures |items| <= limit ==> r == items
    ensures |items| > limit ==> |r| == limit
    ensures forall i :: 0 <= i < |r| ==> r[i] == items[i]
  {
    Take(items, limit)
  }
}
