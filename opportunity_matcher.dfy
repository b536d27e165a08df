/**
 * The community-scoped opportunity store and the profile/activity matcher.
 *
 * The hosted database is the state of an `OpportunityStore`: per community the
 * opportunity records in push-key order, per user a profile and the activity
 * records in push-key order. A store outage is a `storeDown` flag on the
 * operation that would have met it. The similarity ratio of two strings is the
 * parameter `ratio`; timestamps are integer instants and generated ids are
 * parameters.
 */
module OpportunityMatcher {
  import opened Common

  datatype Opportunity = Opportunity(
    id: string,
    title: string,
    description: string,
    category: string,
    tags: seq<string>,
    requirements: seq<string>,
    deadline: Option<string>,
    postedBy: Option<string>,
    createdAt: int,
    status: string)

  datatype Profile = Profile(
    username: string,
    skills: seq<string>,
    interests: seq<string>,
    tags: seq<string>,
    bio: string,
    updatedAt: int)

  datatype Activity = Activity(username: string, community: string, kind: string, content: string, timestamp: int)

  datatype Match = Match(opportunity: Opportunity, matchScore: real)

  /** The profile used for a user who has none: no skills, no interests, no bio. */
  const EmptyProfile := Profile("", [], [], [], "", 0)

  /** Each activity record taken into account, and how many of the fetched ones feed the similarity text. */
  const ActivityFetchLimit := 50
  const ActivityTextLimit := 20
  const OpportunityFetchLimit := 50

  /** A similarity ratio in the sense of a sequence matcher: symmetric use aside, a value in [0, 1]. */
  ghost predicate IsRatio(ratio: (string, string) -> real) {
    forall a, b :: 0.0 <= ratio(a, b) <= 1.0
  }

  // ---------------------------------------------------------------------
  // The match score
  // ---------------------------------------------------------------------

  function LowerSet(items: seq<string>): (r: set<string>)
    ensures r == {} <==> items == []
  {
    var r := set x <- items :: Lower(x);
    assert items != [] ==> Lower(items[0]) in r;
    r
  }

  /** Weight 0.4 times the share of the opportunity's requirements the user's skills cover. */
  function SkillsTerm(opp: Opportunity, profile: Profile): (r: real)
    ensures 0.0 <= r <= 0.4
    ensures opp.requirements == [] ==> r == 0.0
  {
    var reqs := LowerSet(opp.requirements);
    if reqs == {} then 0.0
    else
      var hits := |LowerSet(profile.skills) * reqs|;
      SubsetCard(LowerSet(profile.skills) * reqs, reqs);
      FractionInUnit(hits, |reqs|);
      (hits as real / |reqs| as real) * 0.4
  }

  /** Weight 0.3 times the share of the opportunity's tags among the user's interests. */
  function InterestTerm(opp: Opportunity, profile: Profile): (r: real)
    ensures 0.0 <= r <= 0.3
    ensures opp.tags == [] ==> r == 0.0
  {
    var tags := LowerSet(opp.tags);
    if tags == {} then 0.0
    else
      var hits := |LowerSet(profile.interests) * tags|;
      SubsetCard(LowerSet(profile.interests) * tags, tags);
      FractionInUnit(hits, |tags|);
      (hits as real / |tags| as real) * 0.3
  }

  function Contents(acts: seq<Activity>): (r: seq<string>)
    ensures |r| == |acts|
  {
    if acts == [] then [] else [acts[0].content] + Contents(acts[1..])
  }

  /** The text the activity is compared on: the last 20 contents, space-joined, lower-cased. */
  function ActivityText(activity: seq<Activity>): string {
    Lower(Join(Contents(LastN(activity, ActivityTextLimit)), " "))
  }

  /** Weight 0.2 times the similarity of the recent activity to the description; 0 without activity. */
  function ActivityTerm(opp: Opportunity, activity: seq<Activity>, ratio: (string, string) -> real): (r: real)
    ensures activity == [] ==> r == 0.0
    ensures IsRatio(ratio) ==> 0.0 <= r <= 0.2
  {
    if activity == [] then 0.0
    else ratio(ActivityText(activity), Lower(opp.description)) * 0.2
  }

  /** Weight 0.1 times the similarity of the bio to the description; 0 for an empty bio. */
  function BioTerm(opp: Opportunity, profile: Profile, ratio: (string, string) -> real): (r: real)
    ensures profile.bio == "" ==> r == 0.0
    ensures IsRatio(ratio) ==> 0.0 <= r <= 0.1
  {
    var bio := Lower(profile.bio);
    if bio == "" then 0.0
    else ratio(bio, Lower(opp.description)) * 0.1
  }

  /**
   * The fixed-weight score of an opportunity for a user: the four terms
   * summed and capped at 1. A term without data contributes 0 and its weight
   * is not handed to the others.
   */
  function MatchScore(opp: Opportunity, profile: Profile, activity: seq<Activity>,
                      ratio: (string, string) -> real): (r: real)
    ensures r <= 1.0
    ensures IsRatio(ratio) ==> 0.0 <= r
  {
    MinReal(SkillsTerm(opp, profile) + InterestTerm(opp, profile)
            + ActivityTerm(opp, activity, ratio) + BioTerm(opp, profile, ratio), 1.0)
  }

  /** |a * b| grows with a. */
  lemma IntersectionGrows(a: set<string>, a': set<string>, b: set<string>)
    requires a <= a'
    ensures |a * b| <= |a' * b|
  {
    SubsetCard(a * b, a' * b);
  }

  /** The skills term is the full 0.4 exactly when every requirement is among the skills (case-insensitively). */
  lemma {:induction false} SkillsTermFullIffCovered(opp: Opportunity, profile: Profile)
    requires opp.requirements != []
    ensures SkillsTerm(opp, profile) == 0.4 <==> LowerSet(opp.requirements) <= LowerSet(profile.skills)
  {
    var reqs := LowerSet(opp.requirements);
    var skills := LowerSet(profile.skills);
    var hits := |skills * reqs|;
    if reqs <= skills {
      assert skills * reqs == reqs;
    }
    if SkillsTerm(opp, profile) == 0.4 {
      assert hits as real / |reqs| as real == 1.0;
      assert hits == |reqs|;
      SubsetSameCardEqual(skills * reqs, reqs);
    }
  }

  /** The skills term is 0 exactly when no requirement is among the skills. */
  lemma SkillsTermZeroIffDisjoint(opp: Opportunity, profile: Profile)
    ensures SkillsTerm(opp, profile) == 0.0 <==> LowerSet(opp.requirements) !! LowerSet(profile.skills)
  {
    var reqs := LowerSet(opp.requirements);
    var skills := LowerSet(profile.skills);
    if reqs != {} {
      var hits := |skills * reqs|;
      if skills * reqs == {} {
        assert hits == 0;
        forall y | y in reqs ensures y !in skills {
          assert y !in skills * reqs;
        }
        assert SkillsTerm(opp, profile) == (hits as real / |reqs| as real) * 0.4;
      } else {
        assert hits > 0;
        assert hits as real / |reqs| as real > 0.0;
      }
    }
  }

  /** Adding a skill never lowers the score: the skills term only grows, the others do not change. */
  lemma AddingSkillNeverLowersScore(opp: Opportunity, profile: Profile, activity: seq<Activity>,
                                     ratio: (string, string) -> real, skill: string)
    ensures MatchScore(opp, profile.(skills := profile.skills + [skill]), activity, ratio)
            >= MatchScore(opp, profile, activity, ratio)
  {
    var more := profile.(skills := profile.skills + [skill]);
    var reqs := LowerSet(opp.requirements);
    assert LowerSet(profile.skills) <= LowerSet(more.skills);
    IntersectionGrows(LowerSet(profile.skills), LowerSet(more.skills), reqs);
    if reqs != {} {
      ShareGrows(|LowerSet(profile.skills) * reqs|, |LowerSet(more.skills) * reqs|, |reqs|);
    }
    assert SkillsTerm(opp, profile) <= SkillsTerm(opp, more);
    assert InterestTerm(opp, more) == InterestTerm(opp, profile) && BioTerm(opp, more, ratio) == BioTerm(opp, profile, ratio);
  }

  /** A larger count is a larger share of the same total. */
  lemma ShareGrows(h: nat, h': nat, n: nat)
    requires h <= h' && n > 0
    ensures h as real / n as real <= h' as real / n as real
  {
    assert h' as real / n as real - h as real / n as real == (h' - h) as real / n as real;
  }

  /** Without requirements the score stays at or below 0.6: the skills weight is not redistributed. */
  lemma NoRequirementsCapsScore(opp: Opportunity, profile: Profile, activity: seq<Activity>,
                                ratio: (string, string) -> real)
    requires IsRatio(ratio) && opp.requirements == []
    ensures MatchScore(opp, profile, activity, ratio) <= 0.6
  {
  }

  /** A user with no skills, interests, bio or activity scores exactly 0. */
  lemma EmptyProfileScoresZero(opp: Opportunity, ratio: (string, string) -> real)
    ensures MatchScore(opp, EmptyProfile, [], ratio) == 0.0
  {
    assert LowerSet(EmptyProfile.skills) == {};
    assert LowerSet(EmptyProfile.interests) == {};
  }

  /** One of two requirements covered, nothing else: 0.4 * 1/2 = 0.2. */
  lemma HalfCoveredRequirementsScoreTwoTenths(opp: Opportunity, ratio: (string, string) -> real)
    requires opp.requirements == ["python", "sql"] && opp.tags == []
    ensures MatchScore(opp, EmptyProfile.(skills := ["python"]), [], ratio) == 0.2
  {
    var p := EmptyProfile.(skills := ["python"]);
    assert Lower("python") == "python";
    assert Lower("sql") == "sql";
    assert LowerSet(opp.requirements) == {"python", "sql"};
    assert LowerSet(p.skills) == {"python"};
    assert LowerSet(p.skills) * LowerSet(opp.requirements) == {"python"};
    assert "python" != "sql";
  }

  // ---------------------------------------------------------------------
  // Ranking
  // ---------------------------------------------------------------------

  /** `[{"opportunity": o, "match_score": score(o)} for o in opps]` */
  function ScoreAll(opps: seq<Opportunity>, profile: Profile, activity: seq<Activity>,
                    ratio: (string, string) -> real): (r: seq<Match>)
    ensures |r| == |opps|
    ensures forall i :: 0 <= i < |opps| ==>
              r[i] == Match(opps[i], MatchScore(opps[i], profile, activity, ratio))
  {
    seq(|opps|, i requires 0 <= i < |opps| => Match(opps[i], MatchScore(opps[i], profile, activity, ratio)))
  }

  function ByScore(m: Match): Rank { Rank(m.matchScore, 0.0) }

  /** The scored list sorted by descending score (stably) and cut to `topK`. */
  function RankMatches(opps: seq<Opportunity>, profile: Profile, activity: seq<Activity>,
                       ratio: (string, string) -> real, topK: int): (r: seq<Match>)
    ensures topK >= 0 ==> |r| == Min(topK, |opps|)
    ensures |r| <= |opps|
    ensures forall i, j :: 0 <= i < j < |r| ==> r[i].matchScore >= r[j].matchScore
    ensures forall m :: m in r ==>
              (m.opportunity in opps && m.matchScore == MatchScore(m.opportunity, profile, activity, ratio))
  {
    var scored := ScoreAll(opps, profile, activity, ratio);
    var sorted := SortBy(scored, ByScore);
    PrefixSorted(sorted, topK, ByScore);
    var r := PyPrefix(sorted, topK);
    assert forall m :: m in r ==> m in multiset(scored);
    r
  }

  /**
   * The ranking keeps the `topK` best-scoring opportunities: scored entries
   * only, every one when `topK` allows, and none left out scores above one
   * kept.
   */
  lemma RankMatchesKeepsBest(opps: seq<Opportunity>, profile: Profile, activity: seq<Activity>,
                             ratio: (string, string) -> real, topK: int)
    ensures var r := RankMatches(opps, profile, activity, ratio, topK);
            var scored := ScoreAll(opps, profile, activity, ratio);
            multiset(r) <= multiset(scored) &&
            (topK >= |opps| ==> multiset(r) == multiset(scored)) &&
            forall x, m :: x in r && m in multiset(scored) - multiset(r) ==> x.matchScore >= m.matchScore
  {
    var scored := ScoreAll(opps, profile, activity, ratio);
    SortedPrefixKeepsBest(scored, ByScore, topK);
    assert RankMatches(opps, profile, activity, ratio, topK) == PyPrefix(SortBy(scored, ByScore), topK);
  }

  /** Every opportunity scored against a user gets a score in [0, 1]. */
  lemma RankedScoresInUnit(opps: seq<Opportunity>, profile: Profile, activity: seq<Activity>,
                           ratio: (string, string) -> real, topK: int)
    requires IsRatio(ratio)
    ensures forall m :: m in RankMatches(opps, profile, activity, ratio, topK) ==>
              0.0 <= m.matchScore <= 1.0
  {
  }

  /** Ranking then cutting: a larger `topK` only extends the list. */
  lemma RankMatchesPrefix(opps: seq<Opportunity>, profile: Profile, activity: seq<Activity>,
                          ratio: (string, string) -> real, k: nat, k': nat)
    requires k <= k'
    ensures RankMatches(opps, profile, activity, ratio, k)
            == RankMatches(opps, profile, activity, ratio, k')[..Min(k, |opps|)]
  {
  }

  function HasStatus(status: string): Opportunity -> bool {
    (o: Opportunity) => o.status == status
  }

  /** The records of a community that a status filter lets through, most recent first. */
  function SelectByStatus(records: seq<Opportunity>, status: string): (r: seq<Opportunity>)
    ensures multiset(r) <= multiset(records)
    ensures status == "all" ==> multiset(r) == multiset(records)
    ensures status != "all" ==> multiset(r) == multiset(Filter(records, HasStatus(status)))
    ensures forall o :: o in r ==> o in records && (status != "all" ==> o.status == status)
    ensures forall o :: o in records && (status == "all" || o.status == status) ==> o in r
    ensures forall i, j :: 0 <= i < j < |r| ==> r[i].createdAt >= r[j].createdAt
  {
    var kept := if status == "all" then records else Filter(records, HasStatus(status));
    SortBy(kept, ByCreatedAt)
  }

  function ByCreatedAt(o: Opportunity): Rank { Rank(o.createdAt as real, 0.0) }

  // ---------------------------------------------------------------------
  // The store
  // ---------------------------------------------------------------------

  class OpportunityStore {
    /** opportunities/{community}: the records in push-key order */
    var opportunities: map<string, seq<Opportunity>>
    /** user_profiles/{username} */
    var profiles: map<string, Profile>
    /** user_activity/{username}: the records in push-key order */
    var activity: map<string, seq<Activity>>

    constructor ()
      ensures opportunities == map[] && profiles == map[] && activity == map[]
    {
      opportunities := map[];
      profiles := map[];
      activity := map[];
    }

    function Records(community: string): seq<Opportunity>
      reads this
    {
      if community in opportunities then opportunities[community] else []
    }

    function ActivityOf(username: string): seq<Activity>
      reads this
    {
      if username in activity then activity[username] else []
    }

    /**
     * Push a new record with status "active", missing tag and requirement
     * lists defaulted to empty, and return its id; `None` when the push fails.
     */
    method AddOpportunity(community: string, title: string, description: string, category: string,
                          tags: Option<seq<string>>, requirements: Option<seq<string>>,
                          deadline: Option<string>, postedBy: Option<string>,
                          newId: string, now: int, storeDown: bool)
      returns (id: Option<string>)
      modifies this
      ensures profiles == old(profiles) && activity == old(activity)
      ensures storeDown ==> id == None && opportunities == old(opportunities)
      ensures !storeDown ==> id == Some(newId)
      ensures !storeDown ==>
                opportunities == old(opportunities)[community := old(Records(community)) +
                  [Opportunity(newId, title, description, category, tags.GetOr([]), requirements.GetOr([]),
                               deadline, postedBy, now, "active")]]
    {
      var record := Opportunity(newId, title, description, category, tags.GetOr([]),
                                requirements.GetOr([]), deadline, postedBy, now, "active");
      if storeDown {
        return None;
      }
      opportunities := opportunities[community := Records(community) + [record]];
      id := Some(newId);
    }

    /**
     * The last `limit` records of the community, filtered by exact status
     * unless the status is "all", most recent first; [] when the community
     * has no records or the read fails.
     */
    function GetOpportunities(community: string, status: string, limit: nat, storeDown: bool): (r: seq<Opportunity>)
      reads this
      ensures storeDown || Records(community) == [] ==> r == []
      ensures !storeDown ==> r == SelectByStatus(LastN(Records(community), limit), status)
      ensures |r| <= limit
      ensures forall o :: o in r ==> o in Records(community) && (status != "all" ==> o.status == status)
      ensures forall i, j :: 0 <= i < j < |r| ==> r[i].createdAt >= r[j].createdAt
    {
      if storeDown then []
      else
        var recent := LastN(Records(community), limit);
        if recent == [] then []
        else
          var r := SelectByStatus(recent, status);
          assert |multiset(r)| <= |multiset(recent)|;
          r
    }

    /**
     * Set the status of the first record (in push-key order) with the given
     * id; false when the community has no records, no record has the id, or
     * the store fails.
     */
    method UpdateOpportunityStatus(community: string, opportunityId: string, status: string, storeDown: bool)
      returns (ok: bool)
      modifies this
      ensures profiles == old(profiles) && activity == old(activity)
      ensures ok == (!storeDown && IndexOfId(old(Records(community)), opportunityId).Some?)
      ensures ok ==> opportunities == old(opportunities)[community :=
                       WithStatus(old(Records(community)), IndexOfId(old(Records(community)), opportunityId).value, status)]
      ensures !ok ==> opportunities == old(opportunities)
    {
      if storeDown {
        return false;
      }
      var records := Records(community);
      if records == [] {
        return false;
      }
      var i := 0;
      while i < |records|
        invariant 0 <= i <= |records|
        invariant forall j :: 0 <= j < i ==> records[j].id != opportunityId
      {
        if records[i].id == opportunityId {
          IndexOfIdFirst(records, opportunityId, i);
          opportunities := opportunities[community := WithStatus(records, i, status)];
          return true;
        }
        i := i + 1;
      }
      IndexOfIdNone(records, opportunityId);
      return false;
    }

    /** Overwrite the whole profile of a user; false when the write fails. */
    method UpdateUserProfile(username: string, skills: Option<seq<string>>, interests: Option<seq<string>>,
                             bio: Option<string>, tags: Option<seq<string>>, now: int, storeDown: bool)
      returns (ok: bool)
      modifies this
      ensures opportunities == old(opportunities) && activity == old(activity)
      ensures ok == !storeDown
      ensures ok ==> profiles == old(profiles)[username :=
                Profile(username, skills.GetOr([]), interests.GetOr([]), tags.GetOr([]), bio.GetOr(""), now)]
      ensures !ok ==> profiles == old(profiles)
    {
      if storeDown {
        return false;
      }
      profiles := profiles[username :=
        Profile(username, skills.GetOr([]), interests.GetOr([]), tags.GetOr([]), bio.GetOr(""), now)];
      return true;
    }

    /** The stored profile, `None` when there is none or the read fails. */
    function GetUserProfile(username: string, storeDown: bool): (r: Option<Profile>)
      reads this
      ensures r.Some? <==> !storeDown && username in profiles
    {
      if !storeDown && username in profiles then Some(profiles[username]) else None
    }

    /** Append an activity record for the user; a failed push changes nothing. */
    method TrackUserActivity(username: string, community: string, kind: string, content: string,
                             now: int, storeDown: bool)
      modifies this
      ensures opportunities == old(opportunities) && profiles == old(profiles)
      ensures storeDown ==> activity == old(activity)
      ensures !storeDown ==> activity == old(activity)[username :=
                old(ActivityOf(username)) + [Activity(username, community, kind, content, now)]]
    {
      if !storeDown {
        activity := activity[username := ActivityOf(username) + [Activity(username, community, kind, content, now)]];
      }
    }

    /** The profile the matcher uses: the stored one, or the empty profile. */
    function ProfileOrEmpty(username: string, storeDown: bool): (p: Profile)
      reads this
      ensures username !in profiles || storeDown ==> p == EmptyProfile
    {
      match GetUserProfile(username, storeDown)
      case Some(p) => p
      case None => EmptyProfile
    }

    /** The last 50 activity records of the user, [] when the read fails. */
    function RecentActivity(username: string, storeDown: bool): (r: seq<Activity>)
      reads this
      ensures |r| <= ActivityFetchLimit
    {
      if storeDown then [] else LastN(ActivityOf(username), ActivityFetchLimit)
    }

    /**
     * Score every active opportunity of the community (at most the last 50
     * records) against the user's profile and recent activity, and return the
     * `topK` best, best first.
     */
    method MatchOpportunities(username: string, community: string, topK: int,
                              ratio: (string, string) -> real,
                              profileDown: bool, activityDown: bool, opportunitiesDown: bool)
      returns (matches: seq<Match>)
      ensures matches == RankMatches(GetOpportunities(community, "active", OpportunityFetchLimit, opportunitiesDown),
                                     ProfileOrEmpty(username, profileDown), RecentActivity(username, activityDown),
                                     ratio, topK)
      ensures topK >= 0 ==> |matches| <= topK
      ensures forall m :: m in matches ==> m.opportunity in Records(community) && m.opportunity.status == "active"
      ensures forall i, j :: 0 <= i < j < |matches| ==> matches[i].matchScore >= matches[j].matchScore
    {
      var profile := ProfileOrEmpty(username, profileDown);
      var recent := RecentActivity(username, activityDown);
      var opps := GetOpportunities(community, "active", OpportunityFetchLimit, opportunitiesDown);
      if opps == [] {
        assert |RankMatches(opps, profile, recent, ratio, topK)| == 0;
        return [];
      }
      var scored := ScoreOpportunities(opps, profile, recent, ratio);
      matches := PyPrefix(SortBy(scored, ByScore), topK);
      assert matches == RankMatches(opps, profile, recent, ratio, topK);
      assert forall m :: m in matches ==> m.opportunity in opps;
    }

    /** The ten best matches whose score reaches `minScore`, best first. */
    method GetOpportunityRecommendations(username: string, community: string, minScore: real,
                                         ratio: (string, string) -> real,
                                         profileDown: bool, activityDown: bool, opportunitiesDown: bool)
      returns (recs: seq<Match>)
      ensures recs == Filter(RankMatches(GetOpportunities(community, "active", OpportunityFetchLimit, opportunitiesDown),
                                         ProfileOrEmpty(username, profileDown), RecentActivity(username, activityDown),
                                         ratio, 10), (m: Match) => m.matchScore >= minScore)
      ensures |recs| <= 10
      ensures forall m :: m in recs ==> m.matchScore >= minScore && m.opportunity.status == "active"
    {
      var matches := MatchOpportunities(username, community, 10, ratio, profileDown, activityDown, opportunitiesDown);
      recs := Filter(matches, (m: Match) => m.matchScore >= minScore);
    }
  }

  /** The scoring loop of the ranking: one scored entry per opportunity, in order. */
  method ScoreOpportunities(opps: seq<Opportunity>, profile: Profile, activity: seq<Activity>,
                            ratio: (string, string) -> real)
    returns (scored: seq<Match>)
    ensures scored == ScoreAll(opps, profile, activity, ratio)
  {
    scored := [];
    var i := 0;
    while i < |opps|
      invariant 0 <= i <= |opps|
      invariant scored == ScoreAll(opps[..i], profile, activity, ratio)
    {
      var score := MatchScore(opps[i], profile, activity, ratio);
      scored := scored + [Match(opps[i], score)];
      i := i + 1;
      assert opps[..i] == opps[..i - 1] + [opps[i - 1]];
    }
    assert opps[..i] == opps;
  }

  /** The position of the first record with the given id. */
  function IndexOfId(records: seq<Opportunity>, id: string): (r: Option<nat>)
    ensures r.Some? ==>
              (r.value < |records| && records[r.value].id == id &&
               forall j :: 0 <= j < r.value ==> records[j].id != id)
    ensures r.None? <==> forall j :: 0 <= j < |records| ==> records[j].id != id
  {
    if records == [] then None
    else if records[0].id == id then Some(0)
    else match IndexOfId(records[1..], id)
      case None => None
      case Some(k) => Some(k + 1)
  }

  lemma IndexOfIdFirst(records: seq<Opportunity>, id: string, i: nat)
    requires i < |records| && records[i].id == id
    requires forall j :: 0 <= j < i ==> records[j].id != id
    ensures IndexOfId(records, id) == Some(i)
  {
  }

  lemma IndexOfIdNone(records: seq<Opportunity>, id: string)
    requires forall j :: 0 <= j < |records| ==> records[j].id != id
    ensures IndexOfId(records, id) == None
  {
  }

  /** The records with the status of the one at index `k` replaced. */
  function WithStatus(records: seq<Opportunity>, k: nat, status: string): (r: seq<Opportunity>)
    requires k < |records|
    ensures |r| == |records|
    ensures r[k] == records[k].(status := status)
    ensures forall j :: 0 <= j < |records| && j != k ==> r[j] == records[j]
  {
    records[k := records[k].(status := status)]
  }

  /** Setting a record's status to the one it has leaves the records as they are. */
  lemma SameStatusIsNoOp(records: seq<Opportunity>, k: nat)
    requires k < |records|
    ensures WithStatus(records, k, records[k].status) == records
  {
  }

  /** Closing and reopening a record restores it. */
  lemma StatusRoundTrip(records: seq<Opportunity>, k: nat, status: string)
    requires k < |records|
    ensures WithStatus(WithStatus(records, k, status), k, records[k].status) == records
  {
  }
}
