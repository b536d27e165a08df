/**
 * The tag-weighted scorer over the fixed opportunity catalog.
 *
 * Up to four components apply to an (opportunity, user) pair; each one that
 * applies adds its weight (tags 50, skills 25, interests 15, bio 10) to the
 * maximum and its share of that weight to the score. The score is normalised
 * to a percentage by truncation, shifted by a jitter (a parameter here) and
 * clamped to [0, 100]. Recommendations are the entries scoring at least the
 * threshold, best match first, the more urgent first among equal matches.
 */
module PersonalizedOpportunities {
  import opened Common

  datatype CatalogEntry = CatalogEntry(
    title: string,
    kind: string,
    category: string,
    skills: seq<string>,
    interests: seq<string>,
    tags: seq<string>,
    description: string,
    company: string,
    urgencyDays: int)

  /** A profile as this scorer reads it; a profile without tags has `tags == []`. */
  datatype UserProfile = UserProfile(skills: seq<string>, interests: seq<string>, tags: seq<string>, bio: string)

  const EmptyUserProfile := UserProfile([], [], [], "")

  /** What the applicable components have added: the raw score and the maximum it is measured against. */
  datatype Tally = Tally(score: real, maxScore: nat)

  const NoTally := Tally(0.0, 0)

  function Add(a: Tally, b: Tally): Tally {
    Tally(a.score + b.score, a.maxScore + b.maxScore)
  }

  // ---------------------------------------------------------------------
  // Matching items
  // ---------------------------------------------------------------------

  /** The user's items, each lower-cased and stripped. */
  function Normalised(items: seq<string>): (r: seq<string>)
    ensures |r| == |items|
    ensures forall i :: 0 <= i < |items| ==> r[i] == Strip(Lower(items[i]))
  {
    seq(|items|, i requires 0 <= i < |items| => Strip(Lower(items[i])))
  }

  /** The opportunity's items, each lower-cased (and not stripped). */
  function Lowered(items: seq<string>): (r: seq<string>)
    ensures |r| == |items|
    ensures forall i :: 0 <= i < |items| ==> r[i] == Lower(items[i])
  {
    seq(|items|, i requires 0 <= i < |items| => Lower(items[i]))
  }

  /** `x` contains one of `items` or is contained in one of them. */
  predicate FuzzyIn(x: string, items: seq<string>) {
    exists o :: o in items && (Contains(x, o) || Contains(o, x))
  }

  /** How many user tags occur, exactly, among the opportunity's tags; a repeated user tag counts each time. */
  function TagMatches(userTags: seq<string>, oppTags: seq<string>): (n: nat)
    ensures n <= |userTags|
  {
    if userTags == [] then 0
    else TagMatches(userTags[..|userTags| - 1], oppTags) + (if userTags[|userTags| - 1] in oppTags then 1 else 0)
  }

  /** How many user items fuzzily match one of the opportunity's items; a repeated user item counts each time. */
  function FuzzyMatches(userItems: seq<string>, oppItems: seq<string>): (n: nat)
    ensures n <= |userItems|
  {
    if userItems == [] then 0
    else FuzzyMatches(userItems[..|userItems| - 1], oppItems) + (if FuzzyIn(userItems[|userItems| - 1], oppItems) then 1 else 0)
  }

  /** How many of the opportunity's tags occur inside the bio. */
  function BioMatches(oppTags: seq<string>, bio: string): (n: nat)
    ensures n <= |oppTags|
  {
    if oppTags == [] then 0
    else BioMatches(oppTags[..|oppTags| - 1], bio) + (if Contains(bio, oppTags[|oppTags| - 1]) then 1 else 0)
  }

  /** An exact match is a fuzzy match. */
  lemma ExactIsFuzzy(x: string, items: seq<string>)
    requires x in items
    ensures FuzzyIn(x, items)
  {
    ContainsSelfAndEmpty(x);
  }

  /** Fuzzy matching finds at least the items exact matching finds. */
  lemma {:induction false} FuzzyMatchesAtLeastExact(userItems: seq<string>, oppItems: seq<string>)
    ensures TagMatches(userItems, oppItems) <= FuzzyMatches(userItems, oppItems)
  {
    if userItems != [] {
      var last := userItems[|userItems| - 1];
      FuzzyMatchesAtLeastExact(userItems[..|userItems| - 1], oppItems);
      if last in oppItems {
        ExactIsFuzzy(last, oppItems);
      }
    }
  }

  /** User tags listed once each match at most as many tags as `bound` holds, when every match lies in `bound`. */
  lemma {:induction false} DistinctTagMatches(userTags: seq<string>, oppTags: seq<string>, bound: set<string>)
    requires forall i, j :: 0 <= i < j < |userTags| ==> userTags[i] != userTags[j]
    requires forall t :: t in userTags && t in oppTags ==> t in bound
    ensures TagMatches(userTags, oppTags) <= |bound|
  {
    if userTags != [] {
      var init := userTags[..|userTags| - 1];
      var last := userTags[|userTags| - 1];
      if last in oppTags {
        forall t | t in init && t in oppTags ensures t in bound - {last} {
          var k :| 0 <= k < |init| && init[k] == t;
          assert userTags[k] == t;
        }
        DistinctTagMatches(init, oppTags, bound - {last});
      } else {
        DistinctTagMatches(init, oppTags, bound);
      }
    }
  }

  /** A user item that strips to nothing matches every non-empty list of opportunity items. */
  lemma BlankItemMatchesAnything(items: seq<string>)
    ensures FuzzyIn("", items) <==> items != []
  {
    if items != [] {
      ContainsSelfAndEmpty(items[0]);
    }
  }

  /** "react" is contained in "react native", so the two match. */
  lemma ContainedSkillMatches()
    ensures FuzzyIn("react", ["react native"])
  {
    var hay := "react native";
    assert hay[0..5] == "react";
    ContainsAt(hay, "react", 0);
  }

  // ---------------------------------------------------------------------
  // The components
  // ---------------------------------------------------------------------

  /** Tags, weight 50: applies only when both the opportunity and the user have tags. */
  function TagTally(profile: UserProfile, opp: CatalogEntry): (t: Tally)
    ensures t.maxScore == (if opp.tags != [] && profile.tags != [] then 50 else 0)
    ensures t.maxScore == 0 ==> t.score == 0.0
    ensures 0.0 <= t.score
  {
    var userTags := Normalised(profile.tags);
    if opp.tags != [] && userTags != [] then
      Tally(TagMatches(userTags, Lowered(opp.tags)) as real / |opp.tags| as real * 50.0, 50)
    else NoTally
  }

  /** `n / d` as a real number. */
  function Fraction(n: nat, d: nat): (r: real)
    requires d > 0
    ensures 0.0 <= r
  {
    n as real / d as real
  }

  /** Skills, weight 25: applies whenever the opportunity lists skills. */
  function SkillTally(profile: UserProfile, opp: CatalogEntry): (t: Tally)
    ensures t.maxScore == (if opp.skills != [] then 25 else 0)
    ensures 0.0 <= t.score
    ensures profile.skills == [] || opp.skills == [] ==> t.score == 0.0
  {
    var userSkills := Normalised(profile.skills);
    if opp.skills != [] then
      var share := if userSkills != [] then Fraction(FuzzyMatches(userSkills, Lowered(opp.skills)), |opp.skills|) else 0.0;
      Tally(share * 25.0, 25)
    else NoTally
  }

  /** Interests, weight 15: applies whenever the opportunity lists interests. */
  function InterestTally(profile: UserProfile, opp: CatalogEntry): (t: Tally)
    ensures t.maxScore == (if opp.interests != [] then 15 else 0)
    ensures 0.0 <= t.score
    ensures profile.interests == [] || opp.interests == [] ==> t.score == 0.0
  {
    var userInterests := Normalised(profile.interests);
    if opp.interests != [] then
      var share := if userInterests != [] then Fraction(FuzzyMatches(userInterests, Lowered(opp.interests)), |opp.interests|) else 0.0;
      Tally(share * 15.0, 15)
    else NoTally
  }

  /** Bio, weight 10: applies when the user has a bio and the opportunity has tags; the share of tags found in the bio. */
  function BioTally(profile: UserProfile, opp: CatalogEntry): (t: Tally)
    ensures t.maxScore == (if profile.bio != "" && opp.tags != [] then 10 else 0)
    ensures t.maxScore == 0 ==> t.score == 0.0
    ensures 0.0 <= t.score <= 10.0
  {
    var userBio := Lower(profile.bio);
    if userBio != "" && opp.tags != [] then
      Tally(BioMatches(opp.tags, userBio) as real / |opp.tags| as real * 10.0, 10)
    else NoTally
  }

  /** The four components added up. */
  function MatchTally(profile: UserProfile, opp: CatalogEntry): (t: Tally)
    ensures 0.0 <= t.score
    ensures t.maxScore <= 100
  {
    Add(Add(Add(TagTally(profile, opp), SkillTally(profile, opp)), InterestTally(profile, opp)), BioTally(profile, opp))
  }

  /** The score as a percentage of the maximum. */
  function Percent(t: Tally): (r: real)
    requires 0.0 <= t.score && t.maxScore > 0
    ensures 0.0 <= r
    ensures r * t.maxScore as real == t.score * 100.0
  {
    t.score / t.maxScore as real * 100.0
  }

  /**
   * The percentage before the jitter: 0 when no component applies, otherwise
   * the score over the maximum times 100, truncated.
   */
  function PreJitterScore(profile: UserProfile, opp: CatalogEntry): (r: int)
    ensures 0 <= r
    ensures MatchTally(profile, opp).maxScore == 0 ==> r == 0
    ensures MatchTally(profile, opp).maxScore > 0 ==>
              r as real <= Percent(MatchTally(profile, opp)) < r as real + 1.0
  {
    var t := MatchTally(profile, opp);
    if t.maxScore > 0 then Percent(t).Floor else 0
  }

  /** A pre-jitter percentage shifted by `jitter` and clamped to [0, 100]. */
  function Jittered(pre: int, jitter: int): (r: int)
    ensures 0 <= r <= 100
    ensures 0 <= pre + jitter <= 100 ==> r == pre + jitter
    ensures pre + jitter < 0 ==> r == 0
    ensures pre + jitter > 100 ==> r == 100
  {
    Max(0, Min(100, pre + jitter))
  }

  /** The score shown for an opportunity. */
  function FinalScore(profile: UserProfile, opp: CatalogEntry, jitter: int): (r: int)
    ensures 0 <= r <= 100
  {
    Jittered(PreJitterScore(profile, opp), jitter)
  }

  /**
   * The scorer: each applicable component adds to the score and to the
   * maximum in turn, then the percentage is truncated, jittered and clamped.
   */
  method CalculateMatchScore(profile: UserProfile, opp: CatalogEntry, jitter: int) returns (finalScore: int)
    ensures finalScore == FinalScore(profile, opp, jitter)
  {
    var score: real := 0.0;
    var maxScore: nat := 0;
    var tag := TagTally(profile, opp);
    score := score + tag.score;
    maxScore := maxScore + tag.maxScore;
    var skill := SkillTally(profile, opp);
    score := score + skill.score;
    maxScore := maxScore + skill.maxScore;
    var interest := InterestTally(profile, opp);
    score := score + interest.score;
    maxScore := maxScore + interest.maxScore;
    var bio := BioTally(profile, opp);
    score := score + bio.score;
    maxScore := maxScore + bio.maxScore;
    assert Tally(score, maxScore) == MatchTally(profile, opp);
    var pre := if maxScore > 0 then Percent(Tally(score, maxScore)).Floor else 0;
    assert pre == PreJitterScore(profile, opp);
    finalScore := Jittered(pre, jitter);
  }

  // ---------------------------------------------------------------------
  // Properties of the score
  // ---------------------------------------------------------------------

  /** With the jitter in [-3, 3], the score shown is within 3 of a pre-jitter score in [0, 100]. */
  lemma JitterMovesAtMostThree(pre: int, jitter: int)
    requires -3 <= jitter <= 3 && 0 <= pre <= 100
    ensures pre - 3 <= Jittered(pre, jitter) <= pre + 3
  {
  }

  /** A user with nothing to match scores 0 before the jitter, so only the clamped jitter is shown. */
  lemma EmptyProfileScoresJitterOnly(opp: CatalogEntry, jitter: int)
    ensures PreJitterScore(EmptyUserProfile, opp) == 0
    ensures FinalScore(EmptyUserProfile, opp, jitter) == Jittered(0, jitter)
  {
    var t := MatchTally(EmptyUserProfile, opp);
    assert t.score == 0.0;
    if t.maxScore > 0 {
      ZeroPercent(t);
    }
    assert PreJitterScore(EmptyUserProfile, opp) == 0;
  }

  lemma PercentIs(t: Tally, p: real)
    requires 0.0 <= t.score && t.maxScore > 0 && p * t.maxScore as real == t.score * 100.0
    ensures Percent(t) == p
  {
  }

  lemma ZeroPercent(t: Tally)
    requires t.score == 0.0 && t.maxScore > 0
    ensures Percent(t) == 0.0
  {
  }

  /**
   * When only the tag component can apply, the pre-jitter score is the share
   * of the opportunity's tags the user's tags match (after lower-casing and
   * stripping), as a truncated percentage; the 50 the component adds to the
   * maximum cancels out.
   */
  lemma TagsOnlyScore(profile: UserProfile, opp: CatalogEntry, hits: nat, total: nat, expected: int)
    requires opp.skills == [] && opp.interests == [] && profile.bio == ""
    requires opp.tags != [] && profile.tags != []
    requires hits == TagMatches(Normalised(profile.tags), Lowered(opp.tags)) && total == |opp.tags|
    requires expected == (hits as real / total as real * 100.0).Floor
    ensures PreJitterScore(profile, opp) == expected
  {
    var h := hits as real;
    var n := total as real;
    var t := MatchTally(profile, opp);
    assert t == Tally(h / n * 50.0, 50);
    PercentIs(t, h / n * 100.0);
  }

  /** A tag of lower-case ASCII letters only, which lower-casing and stripping leave alone. */
  predicate IsNormalTag(t: string) {
    forall i :: 0 <= i < |t| ==> 'a' <= t[i] <= 'z'
  }

  lemma NormalTagFixed(t: string)
    requires IsNormalTag(t)
    ensures Lower(t) == t && Strip(Lower(t)) == t
  {
    assert Lower(t) == t;
    assert TrimLeft(t) == t;
  }

  /** Normal tags are left alone by the normalisation of either side. */
  lemma NormalTagsUnchanged(tags: seq<string>)
    requires forall i :: 0 <= i < |tags| ==> IsNormalTag(tags[i])
    ensures Normalised(tags) == tags && Lowered(tags) == tags
  {
    forall i | 0 <= i < |tags| ensures Lower(tags[i]) == tags[i] && Strip(Lower(tags[i])) == tags[i] {
      NormalTagFixed(tags[i]);
    }
  }

  /** A pair of normal tags is a list of normal tags. */
  lemma NormalPair(a: string, c: string)
    requires IsNormalTag(a) && IsNormalTag(c)
    ensures forall i :: 0 <= i < |[a, c]| ==> IsNormalTag([a, c][i])
  {
    forall i | 0 <= i < 2
      ensures IsNormalTag([a, c][i])
    {
      if i == 0 {
        assert [a, c][i] == a;
      } else {
        assert [a, c][i] == c;
      }
    }
  }

  /** Three normal tags make a list of normal tags. */
  lemma NormalTriple(a: string, b: string, c: string)
    requires IsNormalTag(a) && IsNormalTag(b) && IsNormalTag(c)
    ensures forall i :: 0 <= i < |[a, b, c]| ==> IsNormalTag([a, b, c][i])
  {
    forall i | 0 <= i < 3
      ensures IsNormalTag([a, b, c][i])
    {
      if i == 0 {
        assert [a, b, c][i] == a;
      } else if i == 1 {
        assert [a, b, c][i] == b;
      } else {
        assert [a, b, c][i] == c;
      }
    }
  }

  /** For tags the normalisation leaves alone, the matches can be counted on the tags as given. */
  lemma NormalTagsOnlyScore(profile: UserProfile, opp: CatalogEntry, hits: nat, total: nat, expected: int)
    requires opp.skills == [] && opp.interests == [] && profile.bio == ""
    requires opp.tags != [] && profile.tags != []
    requires forall i :: 0 <= i < |profile.tags| ==> IsNormalTag(profile.tags[i])
    requires forall i :: 0 <= i < |opp.tags| ==> IsNormalTag(opp.tags[i])
    requires hits == TagMatches(profile.tags, opp.tags) && total == |opp.tags|
    requires expected == (hits as real / total as real * 100.0).Floor
    ensures PreJitterScore(profile, opp) == expected
  {
    NormalTagsUnchanged(profile.tags);
    NormalTagsUnchanged(opp.tags);
    TagsOnlyScore(profile, opp, hits, total, expected);
  }

  /** The truncated percentages of the worked examples: 2 of 3 is 66, 2 of 1 is 200. */
  lemma TruncatedShare(hits: nat, total: nat, expected: int)
    requires (hits, total, expected) == (2, 3, 66) || (hits, total, expected) == (2, 1, 200)
    ensures expected == (hits as real / total as real * 100.0).Floor
  {
    if total == 3 {
      assert 2.0 / 3.0 * 100.0 == 200.0 / 3.0;
      assert 66.0 <= 200.0 / 3.0 < 67.0;
    }
  }

  lemma TwoOfThreeCount(a: string, b: string, c: string)
    ensures TagMatches([a, c], [a, b, c]) == 2
  {
    assert [a, c][..1] == [a] && [a][..0] == [];
    assert a in [a, b, c] && c in [a, b, c];
  }

  /** Two of three opportunity tags matched, nothing else applying: 2/3 of 50 out of 50, truncated to 66. */
  lemma TwoOfThreeTagsScoreSixtySix(a: string, b: string, c: string, opp: CatalogEntry)
    requires IsNormalTag(a) && IsNormalTag(b) && IsNormalTag(c)
    requires a != b && b != c && a != c
    requires opp.tags == [a, b, c] && opp.skills == [] && opp.interests == []
    ensures PreJitterScore(UserProfile([], [], [a, c], ""), opp) == 66
  {
    TwoOfThreeCount(a, b, c);
    NormalPair(a, c);
    NormalTriple(a, b, c);
    TruncatedShare(2, 3, 66);
    NormalTagsOnlyScore(UserProfile([], [], [a, c], ""), opp, 2, 3, 66);
  }

  lemma RepeatedCount(t: string)
    ensures TagMatches([t, t], [t]) == 2
  {
    assert [t, t][..1] == [t] && [t][..0] == [];
  }

  /** A repeated user tag is counted twice: the pre-jitter score reaches 200. */
  lemma RepeatedTagExceedsHundred(t: string, opp: CatalogEntry)
    requires IsNormalTag(t)
    requires opp.tags == [t] && opp.skills == [] && opp.interests == []
    ensures PreJitterScore(UserProfile([], [], [t, t], ""), opp) == 200
  {
    RepeatedCount(t);
    NormalPair(t, t);
    assert forall i :: 0 <= i < |opp.tags| ==> IsNormalTag(opp.tags[i]);
    TruncatedShare(2, 1, 200);
    NormalTagsOnlyScore(UserProfile([], [], [t, t], ""), opp, 2, 1, 200);
  }

  /** "ai", "ml" and "python" are such tags. */
  lemma ExampleTagsAreNormal()
    ensures IsNormalTag("ai") && IsNormalTag("ml") && IsNormalTag("python")
  {
  }

  /** Only the clamp brings a pre-jitter score above 103 back to 100, whatever the jitter in [-3, 3]. */
  lemma ClampHidesExcess(pre: int, jitter: int)
    requires pre > 103 && -3 <= jitter <= 3
    ensures Jittered(pre, jitter) == 100
  {
  }

  /** Tags the user lists once each match at most as many opportunity tags as there are: the tag share stays within 50. */
  lemma DistinctTagsStayWithinWeight(profile: UserProfile, opp: CatalogEntry)
    requires forall i, j :: 0 <= i < j < |profile.tags| ==> Normalised(profile.tags)[i] != Normalised(profile.tags)[j]
    ensures TagTally(profile, opp).score <= 50.0
  {
    var userTags := Normalised(profile.tags);
    var oppTags := Lowered(opp.tags);
    if opp.tags != [] && profile.tags != [] {
      var bound := set t | t in oppTags;
      DistinctTagMatches(userTags, oppTags, bound);
      SeqSetCard(oppTags);
      var n := TagMatches(userTags, oppTags);
      assert n <= |opp.tags|;
      FractionInUnit(n, |opp.tags|);
    }
  }

  /**
   * With distinct user tags and nothing but tags to match, the pre-jitter
   * score is at most 100: only repeated or fuzzy matches push it past.
   */
  lemma TagsOnlyScoreAtMostHundred(profile: UserProfile, opp: CatalogEntry)
    requires forall i, j :: 0 <= i < j < |profile.tags| ==> Normalised(profile.tags)[i] != Normalised(profile.tags)[j]
    requires opp.skills == [] && opp.interests == [] && profile.bio == ""
    ensures PreJitterScore(profile, opp) <= 100
  {
    DistinctTagsStayWithinWeight(profile, opp);
    var t := MatchTally(profile, opp);
    if t.maxScore > 0 {
      assert t.maxScore == 50;
      assert t.score / 50.0 * 100.0 <= 100.0;
    }
  }

  // ---------------------------------------------------------------------
  // Urgency
  // ---------------------------------------------------------------------

  /** The urgency line of a recommendation; the formatted dates of two of them are left out. */
  datatype Urgency = Urgent(days: int) | ApplyBefore(days: int) | DeadlineIn(days: int) | OpenUntil(days: int)

  datatype Badge = Red | Yellow | Green | Blue

  function UrgencyOf(days: int): (u: Urgency)
    ensures u.days == days
    ensures u.Urgent? <==> days <= 3
    ensures u.ApplyBefore? <==> 3 < days <= 7
    ensures u.DeadlineIn? <==> 7 < days <= 14
    ensures u.OpenUntil? <==> 14 < days
  {
    if days <= 3 then Urgent(days)
    else if days <= 7 then ApplyBefore(days)
    else if days <= 14 then DeadlineIn(days)
    else OpenUntil(days)
  }

  function BadgeOf(u: Urgency): Badge {
    match u
    case Urgent(_) => Red
    case ApplyBefore(_) => Yellow
    case DeadlineIn(_) => Green
    case OpenUntil(_) => Blue
  }

  /** 0 for the most urgent bucket up to 3 for the least. */
  function BucketIndex(b: Badge): nat {
    match b
    case Red => 0
    case Yellow => 1
    case Green => 2
    case Blue => 3
  }

  /** More days left never lands in a more urgent bucket. */
  lemma UrgencyMonotone(days: int, days': int)
    requires days <= days'
    ensures BucketIndex(BadgeOf(UrgencyOf(days))) <= BucketIndex(BadgeOf(UrgencyOf(days')))
  {
  }

  // ---------------------------------------------------------------------
  // Recommendations
  // ---------------------------------------------------------------------

  datatype Recommendation = Recommendation(
    title: string,
    kind: string,
    category: string,
    description: string,
    company: string,
    matchScore: int,
    urgency: Urgency,
    urgencyDays: int)

  function Recommend(opp: CatalogEntry, score: int): (r: Recommendation)
    ensures r.matchScore == score && r.urgencyDays == opp.urgencyDays && r.urgency == UrgencyOf(opp.urgencyDays)
  {
    Recommendation(opp.title, opp.kind, opp.category, opp.description, opp.company,
                   score, UrgencyOf(opp.urgencyDays), opp.urgencyDays)
  }

  /** The score of every catalog entry; `jitter[i]` is the jitter drawn for entry `i`. */
  function Scores(catalog: seq<CatalogEntry>, profile: UserProfile, jitter: seq<int>): (r: seq<int>)
    requires |jitter| == |catalog|
    ensures |r| == |catalog|
    ensures forall i :: 0 <= i < |r| ==> r[i] == FinalScore(profile, catalog[i], jitter[i]) && 0 <= r[i] <= 100
  {
    seq(|catalog|, i requires 0 <= i < |catalog| => FinalScore(profile, catalog[i], jitter[i]))
  }

  /** Among the first `n` catalog entries, those whose score reaches `minScore`, in catalog order. */
  function Qualifying(catalog: seq<CatalogEntry>, scores: seq<int>, minScore: int, n: nat): seq<Recommendation>
    requires |scores| == |catalog| && n <= |catalog|
  {
    if n == 0 then []
    else
      var rest := Qualifying(catalog, scores, minScore, n - 1);
      if scores[n - 1] >= minScore then rest + [Recommend(catalog[n - 1], scores[n - 1])] else rest
  }

  /**
   * At most one recommendation per entry, each reaching `minScore` with a
   * score in [0, 100]; with a threshold of 0 or less every entry qualifies.
   */
  lemma {:induction false} QualifyingBounds(catalog: seq<CatalogEntry>, scores: seq<int>, minScore: int, n: nat)
    requires |scores| == |catalog| && n <= |catalog|
    requires forall i :: 0 <= i < |scores| ==> 0 <= scores[i] <= 100
    ensures |Qualifying(catalog, scores, minScore, n)| <= n
    ensures forall x :: x in Qualifying(catalog, scores, minScore, n) ==>
              x.matchScore >= minScore && 0 <= x.matchScore <= 100
    ensures minScore <= 0 ==> |Qualifying(catalog, scores, minScore, n)| == n
  {
    if n > 0 {
      QualifyingBounds(catalog, scores, minScore, n - 1);
    }
  }

  /** Best match first; among equal matches the fewer days left first. */
  function ByMatchThenUrgency(r: Recommendation): Rank {
    Rank(r.matchScore as real, -(r.urgencyDays as real))
  }

  /** The qualifying entries ordered and cut to `topN` (a negative `topN` drops from the end, as a slice does). */
  function Ranked(qualifying: seq<Recommendation>, topN: int): (r: seq<Recommendation>)
    ensures topN >= 0 ==> |r| == Min(topN, |qualifying|)
    ensures |r| <= |qualifying|
    ensures forall x :: x in r ==> x in qualifying
    ensures forall i, j :: 0 <= i < j < |r| ==>
              r[i].matchScore > r[j].matchScore || (r[i].matchScore == r[j].matchScore && r[i].urgencyDays <= r[j].urgencyDays)
  {
    var sorted := SortBy(qualifying, ByMatchThenUrgency);
    PrefixSorted(sorted, topN, ByMatchThenUrgency);
    var r := PyPrefix(sorted, topN);
    forall i, j | 0 <= i < j < |r|
      ensures r[i].matchScore > r[j].matchScore || (r[i].matchScore == r[j].matchScore && r[i].urgencyDays <= r[j].urgencyDays)
    {
      assert !Precedes(ByMatchThenUrgency(r[j]), ByMatchThenUrgency(r[i]));
    }
    r
  }

  /**
   * The ranking keeps the `topN` best qualifying entries: qualifying entries
   * only, every one when `topN` allows, and none left out has a higher match,
   * or an equal match and fewer days left, than one kept.
   */
  lemma RankedKeepsBest(qualifying: seq<Recommendation>, topN: int)
    ensures var r := Ranked(qualifying, topN);
            multiset(r) <= multiset(qualifying) &&
            (topN >= |qualifying| ==> multiset(r) == multiset(qualifying)) &&
            forall x, m :: x in r && m in multiset(qualifying) - multiset(r) ==>
              x.matchScore > m.matchScore || (x.matchScore == m.matchScore && x.urgencyDays <= m.urgencyDays)
  {
    SortedPrefixKeepsBest(qualifying, ByMatchThenUrgency, topN);
    var r := Ranked(qualifying, topN);
    assert r == PyPrefix(SortBy(qualifying, ByMatchThenUrgency), topN);
    forall x, m | x in r && m in multiset(qualifying) - multiset(r)
      ensures x.matchScore > m.matchScore || (x.matchScore == m.matchScore && x.urgencyDays <= m.urgencyDays)
    {
      assert !Precedes(ByMatchThenUrgency(m), ByMatchThenUrgency(x));
    }
  }

  /** One more catalog entry adds its recommendation exactly when its score reaches `minScore`. */
  lemma QualifyingNext(catalog: seq<CatalogEntry>, scores: seq<int>, minScore: int, i: nat)
    requires |scores| == |catalog| && i < |catalog|
    ensures Qualifying(catalog, scores, minScore, i + 1) ==
              if scores[i] >= minScore then Qualifying(catalog, scores, minScore, i) + [Recommend(catalog[i], scores[i])]
              else Qualifying(catalog, scores, minScore, i)
  {
  }

  /** The scoring loop: every catalog entry scored in turn, those reaching `minScore` kept in catalog order. */
  method ScoreCatalog(catalog: seq<CatalogEntry>, profile: UserProfile, minScore: int, jitter: seq<int>)
    returns (scored: seq<Recommendation>)
    requires |jitter| == |catalog|
    ensures scored == Qualifying(catalog, Scores(catalog, profile, jitter), minScore, |catalog|)
  {
    ghost var scores := Scores(catalog, profile, jitter);
    scored := [];
    var i := 0;
    while i < |catalog|
      invariant 0 <= i <= |catalog|
      invariant scored == Qualifying(catalog, scores, minScore, i)
    {
      var score := CalculateMatchScore(profile, catalog[i], jitter[i]);
      assert score == scores[i];
      QualifyingNext(catalog, scores, minScore, i);
      if score >= minScore {
        scored := scored + [Recommend(catalog[i], score)];
      }
      i := i + 1;
    }
  }

  /**
   * Score every catalog entry, keep those reaching `minScore`, order them by
   * match and urgency and return the first `topN`.
   */
  method GetPersonalizedOpportunities(catalog: seq<CatalogEntry>, profile: UserProfile, topN: int, minScore: int,
                                      jitter: seq<int>)
    returns (recs: seq<Recommendation>)
    requires |jitter| == |catalog|
    ensures recs == Ranked(Qualifying(catalog, Scores(catalog, profile, jitter), minScore, |catalog|), topN)
    ensures topN >= 0 ==> |recs| <= topN
    ensures forall x :: x in recs ==> minScore <= x.matchScore <= 100
  {
    var scored := ScoreCatalog(catalog, profile, minScore, jitter);
    QualifyingBounds(catalog, Scores(catalog, profile, jitter), minScore, |catalog|);
    recs := Ranked(scored, topN);
  }

  // ---------------------------------------------------------------------
  // Statistics
  // ---------------------------------------------------------------------

  datatype Stats = Stats(total: nat, highMatch: nat, mediumMatch: nat, urgent: nat)

  /** The buckets: a match of 70 or more, a match in [50, 70), at most 7 days left. */
  function StatsOf(recs: seq<Recommendation>): (s: Stats)
    ensures s.total == |recs|
    ensures s.highMatch + s.mediumMatch <= s.total
    ensures s.urgent <= s.total
  {
    var high := (x: Recommendation) => x.matchScore >= 70;
    var medium := (x: Recommendation) => 50 <= x.matchScore < 70;
    CountDisjoint(recs, high, medium);
    Stats(|recs|, Count(recs, high), Count(recs, medium), Count(recs, (x: Recommendation) => x.urgencyDays <= 7))
  }

  /**
   * The statistics over the top 200 recommendations at a threshold of 0:
   * every entry of a catalog of at most 200 entries.
   */
  method GetOpportunityStats(catalog: seq<CatalogEntry>, profile: UserProfile, jitter: seq<int>) returns (stats: Stats)
    requires |jitter| == |catalog|
    ensures stats == StatsOf(Ranked(Qualifying(catalog, Scores(catalog, profile, jitter), 0, |catalog|), 200))
    ensures stats.total == Min(200, |catalog|)
    ensures stats.highMatch + stats.mediumMatch <= stats.total && stats.urgent <= stats.total
  {
    var all := GetPersonalizedOpportunities(catalog, profile, 200, 0, jitter);
    QualifyingBounds(catalog, Scores(catalog, profile, jitter), 0, |catalog|);
    stats := StatsOf(all);
  }

  /** The catalog has 58 entries, so its statistics cover all of them. */
  lemma DatabaseFullyCounted()
    ensures |OpportunityDatabase| == 58
    ensures Min(200, |OpportunityDatabase|) == |OpportunityDatabase|
  {
  }

  /** The catalog every user is scored against. */
  const OpportunityDatabase: seq<CatalogEntry> :=
    [
      CatalogEntry("Senior Full-Stack Developer", "Job", "Tech",
        ["Python", "JavaScript", "React", "Node.js"], ["Technology", "Coding"],
        ["python", "javascript", "react", "nodejs", "fullstack", "web", "developer"],
        "Build next-gen SaaS products", "TechVenture Inc.", 7),
      CatalogEntry("Frontend Developer - React", "Job", "Tech",
        ["React", "JavaScript", "TypeScript", "CSS"], ["Technology", "Frontend"],
        ["react", "javascript", "typescript", "frontend", "web", "ui"],
        "Create beautiful user interfaces", "WebCraft Studios", 10),
      CatalogEntry("Vue.js Developer", "Job", "Tech",
        ["Vue.js", "JavaScript", "Vuex", "CSS"], ["Technology", "Frontend"],
        ["vue", "vuejs", "javascript", "frontend", "web", "spa"],
        "Build modern SPAs with Vue", "VueWorks", 14),
      CatalogEntry("Angular Developer", "Job", "Tech",
        ["Angular", "TypeScript", "RxJS"], ["Technology", "Frontend"],
        ["angular", "typescript", "frontend", "web", "spa"],
        "Enterprise Angular applications", "AngularPro", 9),
      CatalogEntry("Backend Engineer - Node.js", "Job", "Tech",
        ["Node.js", "Express", "MongoDB", "API"], ["Technology", "Backend"],
        ["nodejs", "backend", "api", "express", "mongodb", "database"],
        "Scalable backend systems", "CloudAPI Inc.", 12),
      CatalogEntry("Python Backend Developer", "Job", "Tech",
        ["Python", "Django", "Flask", "PostgreSQL"], ["Technology", "Backend"],
        ["python", "django", "flask", "backend", "api", "postgresql"],
        "Robust Python applications", "PythonWorks", 8),
      CatalogEntry("Java Spring Boot Developer", "Job", "Tech",
        ["Java", "Spring Boot", "Microservices"], ["Technology", "Backend"],
        ["java", "spring", "springboot", "backend", "microservices"],
        "Enterprise Java systems", "JavaCorp", 11),
      CatalogEntry("Go Developer", "Job", "Tech",
        ["Go", "Golang", "Microservices", "Docker"], ["Technology", "Backend"],
        ["go", "golang", "backend", "microservices", "docker"],
        "High-performance Go services", "GoTech", 13),
      CatalogEntry("AI/ML Engineer", "Job", "AI",
        ["Machine Learning", "Python", "TensorFlow", "PyTorch"], ["AI", "ML"],
        ["ai", "ml", "machinelearning", "python", "tensorflow", "pytorch", "deeplearning"],
        "Cutting-edge AI models", "HealthAI Labs", 14),
      CatalogEntry("Data Scientist", "Job", "Data",
        ["Python", "R", "Statistics", "ML"], ["Data Science", "Analytics"],
        ["datascience", "python", "r", "statistics", "ml", "analytics"],
        "Extract insights from data", "DataInsights Co.", 10),
      CatalogEntry("NLP Engineer", "Job", "AI",
        ["NLP", "Python", "Transformers", "BERT"], ["AI", "NLP"],
        ["nlp", "ai", "python", "transformers", "bert", "language"],
        "Build language understanding systems", "LangTech AI", 12),
      CatalogEntry("Computer Vision Engineer", "Job", "AI",
        ["Computer Vision", "Python", "OpenCV", "CNN"], ["AI", "Vision"],
        ["computervision", "ai", "python", "opencv", "cnn", "deeplearning"],
        "Image recognition systems", "VisionAI", 15),
      CatalogEntry("React Native Developer", "Job", "Mobile",
        ["React Native", "JavaScript", "Mobile"], ["Mobile", "Technology"],
        ["reactnative", "mobile", "javascript", "ios", "android", "app"],
        "Cross-platform mobile apps", "MobileFirst", 9),
      CatalogEntry("iOS Developer", "Job", "Mobile",
        ["Swift", "iOS", "SwiftUI", "Xcode"], ["Mobile", "iOS"],
        ["ios", "swift", "swiftui", "mobile", "apple", "app"],
        "Native iOS applications", "AppleDevs", 11),
      CatalogEntry("Android Developer", "Job", "Mobile",
        ["Kotlin", "Android", "Jetpack Compose"], ["Mobile", "Android"],
        ["android", "kotlin", "mobile", "jetpack", "app"],
        "Modern Android apps", "DroidWorks", 10),
      CatalogEntry("Flutter Developer", "Job", "Mobile",
        ["Flutter", "Dart", "Mobile"], ["Mobile", "Technology"],
        ["flutter", "dart", "mobile", "crossplatform", "app"],
        "Beautiful Flutter applications", "FlutterPro", 8),
      CatalogEntry("DevOps Engineer", "Job", "DevOps",
        ["DevOps", "Docker", "Kubernetes", "AWS"], ["DevOps", "Cloud"],
        ["devops", "docker", "kubernetes", "aws", "cloud", "cicd"],
        "Scale infrastructure", "CloudScale Inc.", 5),
      CatalogEntry("AWS Cloud Architect", "Job", "Cloud",
        ["AWS", "Cloud Architecture", "Terraform"], ["Cloud", "Architecture"],
        ["aws", "cloud", "architecture", "terraform", "devops"],
        "Design cloud solutions", "CloudArch", 12),
      CatalogEntry("Azure DevOps Engineer", "Job", "DevOps",
        ["Azure", "DevOps", "CI/CD", "Terraform"], ["Cloud", "DevOps"],
        ["azure", "devops", "cloud", "cicd", "terraform"],
        "Azure cloud automation", "AzurePro", 14),
      CatalogEntry("Site Reliability Engineer", "Job", "DevOps",
        ["SRE", "Kubernetes", "Monitoring", "Python"], ["DevOps", "Reliability"],
        ["sre", "kubernetes", "monitoring", "devops", "reliability"],
        "Ensure system reliability", "ReliableOps", 10),
      CatalogEntry("Blockchain Developer", "Job", "Blockchain",
        ["Blockchain", "Solidity", "Web3", "Ethereum"], ["Blockchain", "Web3"],
        ["blockchain", "solidity", "web3", "ethereum", "crypto", "smartcontracts"],
        "Build DeFi applications", "CryptoChain", 10),
      CatalogEntry("Smart Contract Developer", "Job", "Blockchain",
        ["Solidity", "Smart Contracts", "Ethereum"], ["Blockchain", "DeFi"],
        ["smartcontracts", "solidity", "ethereum", "blockchain", "defi"],
        "Secure smart contracts", "DeFiLabs", 13),
      CatalogEntry("Web3 Frontend Developer", "Job", "Blockchain",
        ["React", "Web3.js", "Ethereum", "JavaScript"], ["Web3", "Frontend"],
        ["web3", "react", "ethereum", "frontend", "blockchain", "dapp"],
        "DApp user interfaces", "Web3UI", 11),
      CatalogEntry("Digital Marketing Manager", "Job", "Marketing",
        ["Marketing", "SEO", "Content", "Social Media"], ["Marketing", "Business"],
        ["marketing", "seo", "content", "socialmedia", "digital", "growth"],
        "Lead marketing strategy", "GrowthHub", 8),
      CatalogEntry("Content Marketing Specialist", "Job", "Marketing",
        ["Content Writing", "SEO", "Marketing"], ["Content", "Marketing"],
        ["content", "writing", "seo", "marketing", "copywriting"],
        "Create engaging content", "ContentFirst", 9),
      CatalogEntry("SEO Specialist", "Job", "Marketing",
        ["SEO", "Analytics", "Content", "Marketing"], ["SEO", "Marketing"],
        ["seo", "analytics", "marketing", "google", "optimization"],
        "Optimize search rankings", "SEOPro", 7),
      CatalogEntry("Social Media Manager", "Job", "Marketing",
        ["Social Media", "Content", "Marketing"], ["Social Media", "Marketing"],
        ["socialmedia", "content", "marketing", "community", "engagement"],
        "Manage social presence", "SocialGrowth", 10),
      CatalogEntry("Product Manager", "Job", "Product",
        ["Product Management", "Agile", "Strategy"], ["Product", "Business"],
        ["product", "productmanagement", "agile", "strategy", "roadmap"],
        "Own product roadmap", "ProductCo", 15),
      CatalogEntry("Growth Hacker", "Job", "Marketing",
        ["Growth Hacking", "Analytics", "Marketing"], ["Growth", "Startups"],
        ["growth", "growthhacking", "marketing", "analytics", "startup"],
        "Drive rapid growth", "GrowthLabs", 6),
      CatalogEntry("Business Development Manager", "Job", "Business",
        ["Business Development", "Sales", "Negotiation"], ["Business", "Sales"],
        ["business", "sales", "bd", "partnerships", "negotiation"],
        "Build strategic partnerships", "BizDev Inc.", 12),
      CatalogEntry("UI/UX Designer", "Job", "Design",
        ["UI Design", "UX Design", "Figma"], ["Design", "UX"],
        ["ui", "ux", "design", "figma", "userexperience", "interface"],
        "Design intuitive interfaces", "DesignTech", 11),
      CatalogEntry("Product Designer", "Job", "Design",
        ["Product Design", "UX", "Prototyping"], ["Design", "Product"],
        ["productdesign", "ux", "design", "prototyping", "figma"],
        "End-to-end product design", "ProductDesign Co.", 13),
      CatalogEntry("Graphic Designer", "Job", "Design",
        ["Graphic Design", "Adobe Creative Suite"], ["Design", "Art"],
        ["graphicdesign", "design", "adobe", "creative", "branding"],
        "Create brand identity", "BrandStudio", 7),
      CatalogEntry("Motion Graphics Designer", "Job", "Design",
        ["Motion Graphics", "After Effects", "Animation"], ["Design", "Animation"],
        ["motiongraphics", "animation", "aftereffects", "design", "video"],
        "Animated visual content", "MotionWorks", 14),
      CatalogEntry("Data Analyst", "Job", "Data",
        ["Data Analysis", "SQL", "Python", "Tableau"], ["Data", "Analytics"],
        ["data", "analytics", "sql", "python", "tableau", "visualization"],
        "Analyze business data", "DataCorp", 9),
      CatalogEntry("Business Intelligence Analyst", "Job", "Data",
        ["BI", "SQL", "Power BI", "Analytics"], ["Business", "Analytics"],
        ["bi", "businessintelligence", "sql", "powerbi", "analytics"],
        "Drive data-driven decisions", "BIAnalytics", 11),
      CatalogEntry("Data Engineer", "Job", "Data",
        ["Data Engineering", "Python", "Spark", "SQL"], ["Data", "Engineering"],
        ["dataengineering", "python", "spark", "sql", "etl", "pipeline"],
        "Build data pipelines", "DataPipe Inc.", 10),
      CatalogEntry("Security Engineer", "Job", "Security",
        ["Cybersecurity", "Penetration Testing", "Security"], ["Security", "Technology"],
        ["security", "cybersecurity", "pentesting", "infosec", "hacking"],
        "Protect systems from threats", "SecureNet", 8),
      CatalogEntry("Ethical Hacker", "Job", "Security",
        ["Ethical Hacking", "Penetration Testing"], ["Security", "Hacking"],
        ["ethicalhacking", "pentesting", "security", "hacking", "cybersecurity"],
        "Find and fix vulnerabilities", "HackSafe", 12),
      CatalogEntry("Co-Founder for FinTech Startup", "Partnership", "Startup",
        ["Entrepreneurship", "Finance", "Technology"], ["Startups", "Entrepreneurship"],
        ["cofounder", "startup", "fintech", "entrepreneurship", "founder"],
        "Build payment solutions", "FinTech Ventures", 20),
      CatalogEntry("Technical Co-Founder - AI Startup", "Partnership", "Startup",
        ["AI", "CTO", "Technology", "Leadership"], ["Startups", "AI"],
        ["cofounder", "cto", "ai", "startup", "technical", "founder"],
        "Join as CTO for AI platform", "AI Innovations", 30),
      CatalogEntry("Marketing Co-Founder", "Partnership", "Startup",
        ["Marketing", "Growth", "Strategy"], ["Startups", "Marketing"],
        ["cofounder", "marketing", "startup", "growth", "founder"],
        "Lead marketing for SaaS", "SaaS Startup", 25),
      CatalogEntry("Tech Conference Speaker", "Event", "Speaking",
        ["Public Speaking", "Technology"], ["Speaking", "Technology"],
        ["speaking", "conference", "tech", "publicspeaking", "presentation"],
        "Share expertise with 5000+ attendees", "TechCon", 3),
      CatalogEntry("AI Summit Panelist", "Event", "Speaking",
        ["AI", "Public Speaking"], ["AI", "Speaking"],
        ["ai", "speaking", "panel", "summit", "conference"],
        "Discuss future of AI", "AI Summit", 5),
      CatalogEntry("Startup Pitch Competition", "Event", "Competition",
        ["Entrepreneurship", "Pitching"], ["Startups", "Competition"],
        ["startup", "pitch", "competition", "entrepreneurship", "funding"],
        "Win $100K funding", "Startup Arena", 18),
      CatalogEntry("Hackathon - AI for Good", "Event", "Hackathon",
        ["Coding", "AI", "Teamwork"], ["Hackathon", "AI"],
        ["hackathon", "ai", "coding", "competition", "innovation"],
        "24-hour AI hackathon", "AIHacks", 4),
      CatalogEntry("Web3 Hackathon", "Event", "Hackathon",
        ["Blockchain", "Coding", "Web3"], ["Blockchain", "Hackathon"],
        ["hackathon", "web3", "blockchain", "coding", "crypto"],
        "Build DApps in 48 hours", "Web3Hacks", 6),
      CatalogEntry("E-commerce Website Development", "Project", "Freelance",
        ["Web Development", "E-commerce", "React"], ["Freelancing", "Web"],
        ["freelance", "web", "ecommerce", "react", "development", "project"],
        "Build custom e-commerce platform", "RetailTech", 10),
      CatalogEntry("Mobile App Design", "Project", "Freelance",
        ["UI Design", "Mobile Design", "Figma"], ["Design", "Freelancing"],
        ["freelance", "design", "mobile", "ui", "figma", "project"],
        "Design fitness app", "FitLife", 8),
      CatalogEntry("Marketing Campaign", "Project", "Consulting",
        ["Marketing", "Strategy", "Analytics"], ["Marketing", "Consulting"],
        ["freelance", "marketing", "campaign", "consulting", "strategy"],
        "Product launch campaign", "LaunchBoost", 6),
      CatalogEntry("Data Analysis Project", "Project", "Data",
        ["Data Analysis", "Python", "SQL"], ["Data", "Freelancing"],
        ["freelance", "data", "analysis", "python", "sql", "project"],
        "Customer behavior analysis", "DataInsights", 12),
      CatalogEntry("Logo Design", "Project", "Freelance",
        ["Graphic Design", "Branding"], ["Design", "Freelancing"],
        ["freelance", "design", "logo", "branding", "graphic"],
        "Create brand identity", "BrandNew", 5),
      CatalogEntry("Coding Mentor", "Mentorship", "Education",
        ["Mentoring", "Teaching", "Programming"], ["Teaching", "Mentorship"],
        ["mentor", "teaching", "coding", "education", "programming"],
        "Guide junior developers", "CodeMentor", 30),
      CatalogEntry("AI Workshop Instructor", "Event", "Teaching",
        ["AI", "Teaching", "Communication"], ["Teaching", "AI"],
        ["teaching", "ai", "workshop", "instructor", "education"],
        "Teach AI fundamentals", "AI Academy", 15),
      CatalogEntry("Web Development Bootcamp Instructor", "Job", "Teaching",
        ["Web Development", "Teaching"], ["Teaching", "Web"],
        ["teaching", "web", "bootcamp", "instructor", "education"],
        "Teach full-stack development", "CodeBootcamp", 20),
      CatalogEntry("Angel Investor - EdTech", "Investment", "Funding",
        ["Investment", "Finance", "Business"], ["Investment", "Education"],
        ["investment", "angel", "edtech", "funding", "investor"],
        "Invest in EdTech startups", "EdTech Fund", 25),
      CatalogEntry("Startup Advisor - HealthTech", "Advisory", "Consulting",
        ["Healthcare", "Business", "Strategy"], ["Healthcare", "Consulting"],
        ["advisor", "healthtech", "startup", "consulting", "strategy"],
        "Guide health startups", "HealthAdvisors", 20),
      CatalogEntry("Tech Advisor for Non-Profit", "Advisory", "Consulting",
        ["Technology", "Advising", "Strategy"], ["Social Impact", "Technology"],
        ["advisor", "nonprofit", "tech", "consulting", "socialimpact"],
        "Tech strategy for NGO", "TechForGood", 30)
    ]
}
