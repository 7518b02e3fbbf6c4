/**
 * Combining the seven rubric scores (project_validator.py): the weighted
 * final score and its rounding to one decimal, the rating tier and the
 * score bars of the report, and the capped list of recommendations.
 *
 * Scores are in half-points (0..20 stands for 0..10), and the weights are
 * doubled (2, 1.5, 1.5, 1, 1, 2.5, 1.5 become 4, 3, 3, 2, 2, 5, 3, whose
 * sum is 22), so everything is an integer: the source's weighted mean is
 * WeightedSum / 44 and its value rounded to one decimal is a whole number
 * of tenths.
 */
module Rating {
  import opened Common
  import opened Text
  import opened Validator

  /** The seven scorer results, as the validator collects them. */
  datatype Analysis = Analysis(
    readme: ReadmeReport, code: CodeReport, docs: DocReport, activity: ActivityReport,
    community: CommunityReport, uniqueness: UniquenessReport, technical: TechReport)

  /** The scores in the order of the weights. */
  function Scores(a: Analysis): seq<int>
  {
    [a.readme.score, a.code.score, a.docs.score, a.activity.score,
     a.community.score, a.uniqueness.score, a.technical.score]
  }

  /** Doubled weights: readme, code, documentation, activity, community,
      uniqueness, technical depth. */
  const Weights: seq<int> := [4, 3, 3, 2, 2, 5, 3]

  /** Four times the source's `total_score` over the first `n` categories. */
  function WeightedSum(scores: seq<int>, n: nat): int
    requires n <= |scores| && n <= |Weights|
  {
    if n == 0 then 0 else WeightedSum(scores, n - 1) + scores[n - 1] * Weights[n - 1]
  }

  function Total(a: Analysis): int
  {
    WeightedSum(Scores(a), |Weights|)
  }

  /** The weighted mean `total_score / total_weight` on the 0..10 scale. */
  function FinalScore(a: Analysis): real
  {
    Total(a) as real / 44.0
  }

  /** `round(total / 11, 1)` in tenths for a total of `n` quarter-points:
      the integer nearest to 5n/22, ties to even. */
  function RoundTenths(n: int): int
  {
    var q := (5 * n) / 22;
    var r := (5 * n) % 22;
    if 2 * r > 22 then q + 1
    else if 2 * r < 22 then q
    else if q % 2 == 0 then q
    else q + 1
  }

  /** The rounded value is within half a tenth of the exact one, and an
      exact half goes to the even neighbour. */
  lemma RoundTenthsNearest(n: int)
    ensures -11 <= 5 * n - 22 * RoundTenths(n) <= 11
    ensures 5 * n - 22 * RoundTenths(n) == 11 ==> RoundTenths(n) % 2 == 0
    ensures 5 * n - 22 * RoundTenths(n) == -11 ==> RoundTenths(n) % 2 == 0
  {
  }

  /** Rounding never reverses the order of two totals. */
  lemma RoundTenthsMonotone(m: int, n: int)
    requires m <= n
    ensures RoundTenths(m) <= RoundTenths(n)
  {
    RoundTenthsNearest(m);
    RoundTenthsNearest(n);
  }

  /** `_calculate_final_score`: the loop over the seven categories, then the
      rounding; the result is in tenths. */
  method CalculateFinalScore(a: Analysis) returns (tenths: int)
    ensures tenths == RoundTenths(Total(a))
    ensures -0.5 <= 10.0 * FinalScore(a) - tenths as real <= 0.5
  {
    var scores := Scores(a);
    var total := 0;
    for i := 0 to |Weights|
      invariant total == WeightedSum(scores, i)
    {
      total := total + scores[i] * Weights[i];
    }
    tenths := RoundTenths(total);
    RoundTenthsNearest(total);
    TenthsClose(total, tenths);
  }

  lemma TenthsClose(n: int, t: int)
    requires -11 <= 5 * n - 22 * t <= 11
    ensures -0.5 <= 10.0 * (n as real / 44.0) - t as real <= 0.5
  {
    assert 10.0 * (n as real / 44.0) - t as real == (5 * n - 22 * t) as real / 22.0;
  }

  /** The total written out: 4 readme + 3 code + 3 documentation +
      2 activity + 2 community + 5 uniqueness + 3 technical. */
  lemma TotalExpanded(a: Analysis)
    ensures Total(a) == 4 * a.readme.score + 3 * a.code.score + 3 * a.docs.score + 2 * a.activity.score
                        + 2 * a.community.score + 5 * a.uniqueness.score + 3 * a.technical.score
  {
    var s := Scores(a);
    assert WeightedSum(s, 1) == 4 * s[0];
    assert WeightedSum(s, 2) == WeightedSum(s, 1) + 3 * s[1];
    assert WeightedSum(s, 3) == WeightedSum(s, 2) + 3 * s[2];
    assert WeightedSum(s, 4) == WeightedSum(s, 3) + 2 * s[3];
    assert WeightedSum(s, 5) == WeightedSum(s, 4) + 2 * s[4];
    assert WeightedSum(s, 6) == WeightedSum(s, 5) + 5 * s[5];
    assert WeightedSum(s, 7) == WeightedSum(s, 6) + 3 * s[6];
  }

  predicate InRange(a: Analysis)
  {
    forall s :: s in Scores(a) ==> 0 <= s <= Top
  }

  /** A weighted mean of scores in [0, 10] is in [0, 10], before and after
      rounding. */
  lemma FinalScoreInRange(a: Analysis)
    requires InRange(a)
    ensures 0.0 <= FinalScore(a) <= 10.0
    ensures 0 <= RoundTenths(Total(a)) <= 100
  {
    var s := Scores(a);
    assert s[0] in s && s[1] in s && s[2] in s && s[3] in s && s[4] in s && s[5] in s && s[6] in s;
    TotalExpanded(a);
    RoundTenthsMonotone(0, Total(a));
    RoundTenthsMonotone(Total(a), 440);
  }

  /** When every category has the same score, the final score is that score,
      exactly. */
  lemma FinalScoreUniform(a: Analysis, h: int)
    requires forall s :: s in Scores(a) ==> s == h
    ensures FinalScore(a) == h as real / 2.0
    ensures RoundTenths(Total(a)) == 5 * h
  {
    var s := Scores(a);
    assert s[0] == h && s[1] == h && s[2] == h && s[3] == h && s[4] == h && s[5] == h && s[6] == h by {
      assert s[0] in s && s[1] in s && s[2] in s && s[3] in s && s[4] in s && s[5] in s && s[6] in s;
    }
    TotalExpanded(a);
    assert (5 * (22 * h)) / 22 == 5 * h && (5 * (22 * h)) % 22 == 0;
  }

  /** Raising any category's score never lowers the final score. */
  lemma FinalScoreMonotone(a: Analysis, b: Analysis)
    requires forall i :: 0 <= i < 7 ==> Scores(a)[i] <= Scores(b)[i]
    ensures FinalScore(a) <= FinalScore(b)
    ensures RoundTenths(Total(a)) <= RoundTenths(Total(b))
  {
    WeightedSumMonotone(Scores(a), Scores(b), 7);
    RoundTenthsMonotone(Total(a), Total(b));
  }

  lemma {:induction false} WeightedSumMonotone(s: seq<int>, t: seq<int>, n: nat)
    requires n <= |s| && n <= |t| && n <= |Weights|
    requires forall i :: 0 <= i < n ==> s[i] <= t[i]
    ensures WeightedSum(s, n) <= WeightedSum(t, n)
  {
    if n > 0 {
      WeightedSumMonotone(s, t, n - 1);
      assert s[n - 1] * Weights[n - 1] <= t[n - 1] * Weights[n - 1];
    }
  }

  // ---------------------------------------------------------------------
  // Rating tier and score bars (_generate_report)

  datatype Tier = Excellent | VeryGood | Good | Fair | NeedsWork

  /** The descending thresholds 8.5, 7.0, 5.5 and 4.0 on the rounded score. */
  function TierOf(tenths: int): Tier
  {
    if tenths >= 85 then Excellent
    else if tenths >= 70 then VeryGood
    else if tenths >= 55 then Good
    else if tenths >= 40 then Fair
    else NeedsWork
  }

  /** The number of stars the tier's line shows. */
  function Stars(t: Tier): (n: nat)
    ensures 1 <= n <= 5
  {
    match t
    case Excellent => 5
    case VeryGood => 4
    case Good => 3
    case Fair => 2
    case NeedsWork => 1
  }

  function StarRun(n: nat): (s: string)
    ensures |s| == n && forall i :: 0 <= i < n ==> s[i] == '\U{2B50}'
  {
    if n == 0 then "" else "\U{2B50}" + StarRun(n - 1)
  }

  /** The tier's verdict, after its stars. */
  function TierText(t: Tier): string
  {
    match t
    case Excellent => "**EXCELLENT** - Production-ready, well-maintained project\n\n"
    case VeryGood => "**VERY GOOD** - Strong project with minor improvements needed\n\n"
    case Good => "**GOOD** - Solid foundation, needs more polish\n\n"
    case Fair => "**FAIR** - Basic project, requires significant improvements\n\n"
    case NeedsWork => "**NEEDS WORK** - Major improvements required\n\n"
  }

  function TierLine(t: Tier): string
  {
    StarRun(Stars(t)) + " " + TierText(t)
  }

  /** A higher score never earns fewer stars, and the stars step up exactly
      at the thresholds. */
  lemma TierMonotone(s: int, t: int)
    requires s <= t
    ensures Stars(TierOf(s)) <= Stars(TierOf(t))
    ensures Stars(TierOf(t)) == 1 + (if t >= 40 then 1 else 0) + (if t >= 55 then 1 else 0)
                                  + (if t >= 70 then 1 else 0) + (if t >= 85 then 1 else 0)
  {
  }

  const FullCell: char := '\U{2588}'
  const EmptyCell: char := '\U{2591}'

  /** Python's `int()` of the score `half / 2`: truncation toward zero. */
  function WholePoints(half: int): int
  {
    if half >= 0 then half / 2 else -((-half) / 2)
  }

  /** Python's `c * n`: empty when `n` is not positive. */
  function Repeat(c: char, n: int): string
    decreases n
  {
    if n <= 0 then "" else [c] + Repeat(c, n - 1)
  }

  /** `"█" * int(score) + "░" * (10 - int(score))`. */
  function Bar(half: int): string
  {
    Repeat(FullCell, WholePoints(half)) + Repeat(EmptyCell, 10 - WholePoints(half))
  }

  lemma {:induction false} RepeatShape(c: char, n: int)
    ensures |Repeat(c, n)| == if n <= 0 then 0 else n
    ensures forall i :: 0 <= i < |Repeat(c, n)| ==> Repeat(c, n)[i] == c
    decreases n
  {
    if n > 0 {
      RepeatShape(c, n - 1);
    }
  }

  /** For a score in [0, 10] the bar has ten cells, of which the first
      `int(score)` are filled. */
  lemma BarShape(half: int)
    requires 0 <= half <= Top
    ensures |Bar(half)| == 10
    ensures forall i :: 0 <= i < 10 ==> Bar(half)[i] == if i < half / 2 then FullCell else EmptyCell
  {
    RepeatShape(FullCell, half / 2);
    RepeatShape(EmptyCell, 10 - half / 2);
  }

  // ---------------------------------------------------------------------
  // Recommendations (_generate_recommendations)

  /** The kinds of recommendation; `AddSections` carries the names of the
      sections it asks for. */
  datatype Advice =
    | AddSections(missing: seq<string>)
    | ExpandReadme
    | AddTests
    | SetUpCi
    | DocsFolder
    | KeepActive
    | Engage
    | ArticulateUsp
    | StudyCompetitors
    | AdvancedFeatures
    | Fundamentals

  /** The emoji each line starts with; only the two README kinds share one. */
  function Lead(r: Advice): char
  {
    match r
    case AddSections(_) => '\U{1F4DD}'
    case ExpandReadme => '\U{1F4DD}'
    case AddTests => '\U{1F9EA}'
    case SetUpCi => '\U{2699}'
    case DocsFolder => '\U{1F4DA}'
    case KeepActive => '\U{1F504}'
    case Engage => '\U{1F465}'
    case ArticulateUsp => '\U{1F4A1}'
    case StudyCompetitors => '\U{1F3AF}'
    case AdvancedFeatures => '\U{1F527}'
    case Fundamentals => '\U{1F680}'
  }

  /** The line the report shows for each kind: its emoji, then the text. */
  function AdviceText(r: Advice): string
  {
    [Lead(r)] +
    match r
    case AddSections(missing) => " Add missing README sections: " + Join(missing, ", ")
    case ExpandReadme => " Expand README with more detailed documentation and examples"
    case AddTests => " Add unit tests and integration tests"
    case SetUpCi => "\U{FE0F} Set up CI/CD pipeline (GitHub Actions, Travis, etc.)"
    case DocsFolder => " Create dedicated documentation folder with API references"
    case KeepActive => " Maintain regular commit activity and address open issues"
    case Engage => " Improve community engagement: add license, enable issues, promote project"
    case ArticulateUsp => " Clearly articulate your unique value proposition and differentiation"
    case StudyCompetitors => " Research competitors and highlight what makes your approach better"
    case AdvancedFeatures => " Consider adding advanced features (auth, caching, optimization)"
    case Fundamentals => " Focus on the fundamentals: documentation, tests, and code organization"
  }

  /** The sections a README recommendation asks for. */
  const WantedSections: seq<string> := ["installation", "usage", "features", "contributing"]

  /** The wanted names that were not found, in the order they are wanted. */
  function Missing(wanted: seq<string>, found: seq<string>): (m: seq<string>)
    ensures |m| <= |wanted|
  {
    if wanted == [] then []
    else (if wanted[0] in found then [] else [wanted[0]]) + Missing(wanted[1..], found)
  }

  /** The set difference `wanted - found`, as a sequence. */
  lemma {:induction false} MissingMembers(wanted: seq<string>, found: seq<string>)
    ensures forall s :: s in Missing(wanted, found) <==> s in wanted && s !in found
  {
    if wanted != [] {
      MissingMembers(wanted[1..], found);
      assert wanted == [wanted[0]] + wanted[1..];
    }
  }

  function AdviceIf(c: bool, r: Advice): seq<Advice>
  {
    if c then [r] else []
  }

  function ReadmeAdvice(r: ReadmeReport): seq<Advice>
  {
    if r.score < 14 then
      var missing := Missing(WantedSections, r.sectionsFound);
      AdviceIf(missing != [], AddSections(missing)) + AdviceIf(r.length < 1000, ExpandReadme)
    else []
  }

  function CodeAdvice(r: CodeReport): seq<Advice>
  {
    if r.score < 14 then AdviceIf(!r.hasTests, AddTests) + AdviceIf(!r.hasCi, SetUpCi) else []
  }

  function UniquenessAdvice(r: UniquenessReport): seq<Advice>
  {
    if r.score < 12 then [ArticulateUsp, StudyCompetitors] else []
  }

  /** Every recommendation the thresholds call for, in the source's order:
      README, code, documentation, activity, community, uniqueness,
      technical depth, and the general advice for a final score under 7. */
  function Candidates(a: Analysis, tenths: int): seq<Advice>
  {
    ReadmeAdvice(a.readme) + CodeAdvice(a.code) + AdviceIf(a.docs.score < 14, DocsFolder)
    + AdviceIf(a.activity.score < 12, KeepActive) + AdviceIf(a.community.score < 10, Engage)
    + UniquenessAdvice(a.uniqueness) + AdviceIf(a.technical.score < 12, AdvancedFeatures)
    + AdviceIf(tenths < 70, Fundamentals)
  }

  /** The first six candidates. */
  function Recommendations(a: Analysis, tenths: int): (recs: seq<Advice>)
    ensures |recs| == Min(6, |Candidates(a, tenths)|)
    ensures forall i :: 0 <= i < |recs| ==> recs[i] == Candidates(a, tenths)[i]
  {
    var all := Candidates(a, tenths);
    all[..Min(6, |all|)]
  }

  function Render(rs: seq<Advice>): (lines: seq<string>)
    ensures |lines| == |rs| && forall i :: 0 <= i < |rs| ==> lines[i] == AdviceText(rs[i])
  {
    if rs == [] then [] else [AdviceText(rs[0])] + Render(rs[1..])
  }

  /** `_generate_recommendations`: appends the advice each check calls for,
      then keeps the first six. */
  method GenerateRecommendations(a: Analysis, tenths: int) returns (recs: seq<string>)
    ensures recs == Render(Recommendations(a, tenths))
  {
    var all: seq<Advice> := [];
    if a.readme.score < 14 {
      var missing := Missing(WantedSections, a.readme.sectionsFound);
      all := all + AdviceIf(missing != [], AddSections(missing));
      all := all + AdviceIf(a.readme.length < 1000, ExpandReadme);
    }
    ghost var s1 := all;
    if a.code.score < 14 {
      all := all + AdviceIf(!a.code.hasTests, AddTests);
      all := all + AdviceIf(!a.code.hasCi, SetUpCi);
    }
    ghost var s2 := all;
    all := all + AdviceIf(a.docs.score < 14, DocsFolder);
    ghost var s3 := all;
    all := all + AdviceIf(a.activity.score < 12, KeepActive);
    ghost var s4 := all;
    all := all + AdviceIf(a.community.score < 10, Engage);
    ghost var s5 := all;
    if a.uniqueness.score < 12 {
      all := all + [ArticulateUsp];
      all := all + [StudyCompetitors];
    }
    ghost var s6 := all;
    all := all + AdviceIf(a.technical.score < 12, AdvancedFeatures);
    ghost var s7 := all;
    all := all + AdviceIf(tenths < 70, Fundamentals);
    CandidatesInSteps(a, tenths, s1, s2, s3, s4, s5, s6, s7, all);
    recs := Render(all[..Min(6, |all|)]);
  }

  /** The eight checks of `GenerateRecommendations`, one after the other,
      build the candidates. */
  lemma CandidatesInSteps(a: Analysis, tenths: int, s1: seq<Advice>, s2: seq<Advice>, s3: seq<Advice>,
                          s4: seq<Advice>, s5: seq<Advice>, s6: seq<Advice>, s7: seq<Advice>, s8: seq<Advice>)
    requires s1 == ReadmeAdvice(a.readme)
    requires s2 == s1 + CodeAdvice(a.code)
    requires s3 == s2 + AdviceIf(a.docs.score < 14, DocsFolder)
    requires s4 == s3 + AdviceIf(a.activity.score < 12, KeepActive)
    requires s5 == s4 + AdviceIf(a.community.score < 10, Engage)
    requires s6 == s5 + UniquenessAdvice(a.uniqueness)
    requires s7 == s6 + AdviceIf(a.technical.score < 12, AdvancedFeatures)
    requires s8 == s7 + AdviceIf(tenths < 70, Fundamentals)
    ensures s8 == Candidates(a, tenths)
  {
  }

  /** The condition under which the source gives a piece of advice; the
      README one names exactly the missing sections. */
  predicate Warranted(a: Analysis, tenths: int, r: Advice)
  {
    match r
    case AddSections(m) => a.readme.score < 14 && m != [] && m == Missing(WantedSections, a.readme.sectionsFound)
    case ExpandReadme => a.readme.score < 14 && a.readme.length < 1000
    case AddTests => a.code.score < 14 && !a.code.hasTests
    case SetUpCi => a.code.score < 14 && !a.code.hasCi
    case DocsFolder => a.docs.score < 14
    case KeepActive => a.activity.score < 12
    case Engage => a.community.score < 10
    case ArticulateUsp => a.uniqueness.score < 12
    case StudyCompetitors => a.uniqueness.score < 12
    case AdvancedFeatures => a.technical.score < 12
    case Fundamentals => tenths < 70
  }

  predicate AllWarranted(a: Analysis, tenths: int, rs: seq<Advice>)
  {
    forall r :: r in rs ==> Warranted(a, tenths, r)
  }

  lemma WarrantedConcat(a: Analysis, tenths: int, xs: seq<Advice>, ys: seq<Advice>)
    requires AllWarranted(a, tenths, xs) && AllWarranted(a, tenths, ys)
    ensures AllWarranted(a, tenths, xs + ys)
  {
  }

  /** Each check only proposes advice it warrants. */
  lemma CandidatesWarranted(a: Analysis, tenths: int)
    ensures AllWarranted(a, tenths, Candidates(a, tenths))
  {
    var r := ReadmeAdvice(a.readme);
    var c := CodeAdvice(a.code);
    var d := AdviceIf(a.docs.score < 14, DocsFolder);
    var ac := AdviceIf(a.activity.score < 12, KeepActive);
    var co := AdviceIf(a.community.score < 10, Engage);
    var u := UniquenessAdvice(a.uniqueness);
    var t := AdviceIf(a.technical.score < 12, AdvancedFeatures);
    var f := AdviceIf(tenths < 70, Fundamentals);
    WarrantedConcat(a, tenths, r, c);
    WarrantedConcat(a, tenths, r + c, d);
    WarrantedConcat(a, tenths, r + c + d, ac);
    WarrantedConcat(a, tenths, r + c + d + ac, co);
    WarrantedConcat(a, tenths, r + c + d + ac + co, u);
    WarrantedConcat(a, tenths, r + c + d + ac + co + u, t);
    WarrantedConcat(a, tenths, r + c + d + ac + co + u + t, f);
  }

  /** Every recommendation shown is warranted by its category's score (or
      by the final score, for the general one). */
  lemma RecommendationsSound(a: Analysis, tenths: int)
    ensures forall r :: r in Recommendations(a, tenths) ==> Warranted(a, tenths, r)
  {
    CandidatesWarranted(a, tenths);
    var all := Candidates(a, tenths);
    forall r | r in Recommendations(a, tenths)
      ensures Warranted(a, tenths, r)
    {
      assert r in all;
    }
  }

  /** The README, code, documentation and activity advice comes first and
      is at most six items, so the cut never drops any of it. */
  lemma RecommendationsEarlyKept(a: Analysis, tenths: int)
    ensures var recs := Recommendations(a, tenths);
      && (a.readme.score < 14 && Missing(WantedSections, a.readme.sectionsFound) != [] ==>
            AddSections(Missing(WantedSections, a.readme.sectionsFound)) in recs)
      && (a.readme.score < 14 && a.readme.length < 1000 ==> ExpandReadme in recs)
      && (a.code.score < 14 && !a.code.hasTests ==> AddTests in recs)
      && (a.code.score < 14 && !a.code.hasCi ==> SetUpCi in recs)
      && (a.docs.score < 14 ==> DocsFolder in recs)
      && (a.activity.score < 12 ==> KeepActive in recs)
  {
    var r := ReadmeAdvice(a.readme);
    var c := CodeAdvice(a.code);
    var d := AdviceIf(a.docs.score < 14, DocsFolder);
    var ac := AdviceIf(a.activity.score < 12, KeepActive);
    var co := AdviceIf(a.community.score < 10, Engage);
    var u := UniquenessAdvice(a.uniqueness);
    var t := AdviceIf(a.technical.score < 12, AdvancedFeatures);
    var f := AdviceIf(tenths < 70, Fundamentals);
    Regroup(r, c, d, ac, co, u, t, f);
    PrefixKept(r + c + d + ac, co + u + t + f);
  }

  lemma Regroup<T>(p1: seq<T>, p2: seq<T>, p3: seq<T>, p4: seq<T>, p5: seq<T>, p6: seq<T>, p7: seq<T>, p8: seq<T>)
    ensures p1 + p2 + p3 + p4 + p5 + p6 + p7 + p8 == (p1 + p2 + p3 + p4) + (p5 + p6 + p7 + p8)
  {
  }

  /** What comes before the cut of six is kept. */
  lemma PrefixKept(early: seq<Advice>, rest: seq<Advice>)
    requires |early| <= 6
    ensures forall r :: r in early ==> r in (early + rest)[..Min(6, |early + rest|)]
  {
    var all := early + rest;
    assert all[..Min(6, |all|)][..|early|] == early;
  }

  /** A project that meets every threshold gets no recommendations. */
  lemma NothingToRecommend(a: Analysis, tenths: int)
    requires a.readme.score >= 14 && a.code.score >= 14 && a.docs.score >= 14 && a.activity.score >= 12
    requires a.community.score >= 10 && a.uniqueness.score >= 12 && a.technical.score >= 12 && tenths >= 70
    ensures Recommendations(a, tenths) == []
  {
  }
}
