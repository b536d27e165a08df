/**
 * Participation analytics over a community's chat messages, knowledge-base
 * entries, opportunities and engagement events: community totals, the top
 * contributors, per-day trends and a user's weighted engagement score.
 * The records come in as parameters (one read each); the cutoff instant is
 * `now - days` computed by the caller.
 */
module Analytics {
  import opened Common

  /** A read of the hosted database: the records, or an exception. */
  datatype Fetch<T> = Fetched(items: seq<T>) | Failed

  /** A message's `timestamp`: a number of seconds, or a value of any other type. */
  datatype Timestamp = Instant(seconds: int) | NotANumber

  /** A chat record; a record without a timestamp has timestamp 0. */
  datatype ChatMessage = ChatMessage(username: Option<string>, content: Option<string>, timestamp: Timestamp)

  /** `msg.get("username", "")` */
  function Name(m: ChatMessage): string { m.username.GetOr("") }

  /** `msg.get("content", "").lower()` */
  function Text(m: ChatMessage): string { Lower(m.content.GetOr("")) }

  /** A message with a numeric timestamp at or after the cutoff. */
  predicate Recent(m: ChatMessage, cutoff: int) {
    m.timestamp.Instant? && m.timestamp.seconds >= cutoff
  }

  // ---------------------------------------------------------------------
  // Community totals
  // ---------------------------------------------------------------------

  datatype CommunityStats = CommunityStats(
    totalMessages: nat,
    totalUsers: nat,
    activeUsers: nat,
    totalKbEntries: nat,
    totalOpportunities: nat,
    avgMessagesPerUser: real,
    periodDays: int)

  /** The non-empty author names of the messages. */
  function UsersOf(msgs: seq<ChatMessage>): set<string> {
    if msgs == [] then {}
    else UsersOf(msgs[..|msgs| - 1]) + (if Name(msgs[|msgs| - 1]) != "" then {Name(msgs[|msgs| - 1])} else {})
  }

  /** The non-empty author names of the recent messages. */
  function ActiveUsersOf(msgs: seq<ChatMessage>, cutoff: int): set<string> {
    if msgs == [] then {}
    else
      var m := msgs[|msgs| - 1];
      ActiveUsersOf(msgs[..|msgs| - 1], cutoff) + (if Name(m) != "" && Recent(m, cutoff) then {Name(m)} else {})
  }

  /** Every active user is a user, and there are no more users than messages. */
  lemma {:induction false} UsersBounded(msgs: seq<ChatMessage>, cutoff: int)
    ensures ActiveUsersOf(msgs, cutoff) <= UsersOf(msgs)
    ensures |UsersOf(msgs)| <= |msgs|
  {
    if msgs != [] {
      UsersBounded(msgs[..|msgs| - 1], cutoff);
    }
  }

  /** The user-collecting loop of the totals. */
  method CollectUsers(msgs: seq<ChatMessage>, cutoff: int) returns (users: set<string>, recentUsers: set<string>)
    ensures users == UsersOf(msgs) && recentUsers == ActiveUsersOf(msgs, cutoff)
  {
    users, recentUsers := {}, {};
    var i := 0;
    while i < |msgs|
      invariant 0 <= i <= |msgs|
      invariant users == UsersOf(msgs[..i]) && recentUsers == ActiveUsersOf(msgs[..i], cutoff)
    {
      var username := Name(msgs[i]);
      if username != "" {
        users := users + {username};
        if Recent(msgs[i], cutoff) {
          recentUsers := recentUsers + {username};
        }
      }
      assert msgs[..i + 1][..i] == msgs[..i];
      i := i + 1;
    }
    assert msgs[..i] == msgs;
  }

  /**
   * `get_community_stats`: message, user and active-user totals, the
   * knowledge-base and opportunity counts, and messages per user. A failed
   * read leaves that total and every later one at 0.
   */
  method GetCommunityStats(messages: Fetch<ChatMessage>, kbEntries: Fetch<KbEntry>,
                           opportunities: Fetch<PostedOpportunity>, cutoff: int, days: int)
    returns (stats: CommunityStats)
    ensures stats.periodDays == days
    ensures messages.Failed? ==> stats == CommunityStats(0, 0, 0, 0, 0, 0.0, days)
    ensures messages.Fetched? ==>
              stats.totalMessages == |messages.items| &&
              stats.totalUsers == |UsersOf(messages.items)| &&
              stats.activeUsers == |ActiveUsersOf(messages.items, cutoff)|
    ensures stats.totalKbEntries == (if messages.Fetched? && kbEntries.Fetched? then |kbEntries.items| else 0)
    ensures stats.totalOpportunities ==
              (if messages.Fetched? && kbEntries.Fetched? && opportunities.Fetched? then |opportunities.items| else 0)
    ensures stats.activeUsers <= stats.totalUsers <= stats.totalMessages
    ensures stats.totalUsers == 0 ==> stats.avgMessagesPerUser == 0.0
    ensures stats.totalUsers > 0 ==>
              stats.avgMessagesPerUser == stats.totalMessages as real / stats.totalUsers as real
  {
    stats := CommunityStats(0, 0, 0, 0, 0, 0.0, days);
    if messages.Failed? {
      return;
    }
    var msgs := messages.items;
    if msgs != [] {
      var users, recentUsers := CollectUsers(msgs, cutoff);
      UsersBounded(msgs, cutoff);
      SubsetCard(recentUsers, users);
      stats := stats.(totalMessages := |msgs|, totalUsers := |users|, activeUsers := |recentUsers|);
      if |users| > 0 {
        stats := stats.(avgMessagesPerUser := |msgs| as real / |users| as real);
      }
    }
    if kbEntries.Failed? {
      return;
    }
    stats := stats.(totalKbEntries := |kbEntries.items|);
    if opportunities.Failed? {
      return;
    }
    stats := stats.(totalOpportunities := |opportunities.items|);
  }

  // ---------------------------------------------------------------------
  // Top contributors
  // ---------------------------------------------------------------------

  const ExcludedNames: set<string> := {"KB-Bot", "KB-Summary", "system"}
  const QuestionWords: seq<string> := ["what", "how", "why", "when", "where", "who"]

  /** A lower-cased content with a question mark, or starting with a question word. */
  predicate IsQuestion(text: string) {
    Contains(text, "?") || exists w :: w in QuestionWords && StartsWith(text, w)
  }

  /** A message the contributor ranking counts: a recent one by a named, non-bot author. */
  predicate Counted(m: ChatMessage, cutoff: int) {
    Name(m) != "" && Name(m) !in ExcludedNames && Recent(m, cutoff)
  }

  datatype Contributor = Contributor(username: string, messageCount: nat, questionCount: nat, lastActive: Option<int>)

  const Unseen: Contributor := Contributor("", 0, 0, None)

  /** A contributor's entry after one more counted message. */
  function CountMessage(c: Contributor, m: ChatMessage): Contributor
    requires m.timestamp.Instant?
  {
    var t := m.timestamp.seconds;
    Contributor(Name(m), c.messageCount + 1,
                c.questionCount + (if IsQuestion(Text(m)) then 1 else 0),
                if c.lastActive.None? || t > c.lastActive.value then Some(t) else c.lastActive)
  }

  /** The number of counted messages by `u`. */
  function CountedFrom(msgs: seq<ChatMessage>, u: string, cutoff: int): nat {
    if msgs == [] then 0
    else
      var m := msgs[|msgs| - 1];
      CountedFrom(msgs[..|msgs| - 1], u, cutoff) + (if Counted(m, cutoff) && Name(m) == u then 1 else 0)
  }

  /** The number of counted messages by `u` that ask a question. */
  function QuestionsFrom(msgs: seq<ChatMessage>, u: string, cutoff: int): nat {
    if msgs == [] then 0
    else
      var m := msgs[|msgs| - 1];
      QuestionsFrom(msgs[..|msgs| - 1], u, cutoff) + (if Counted(m, cutoff) && Name(m) == u && IsQuestion(Text(m)) then 1 else 0)
  }

  /** No more of a user's counted messages ask a question than there are. */
  lemma {:induction false} QuestionsWithinCounted(msgs: seq<ChatMessage>, u: string, cutoff: int)
    ensures QuestionsFrom(msgs, u, cutoff) <= CountedFrom(msgs, u, cutoff)
  {
    if msgs != [] {
      QuestionsWithinCounted(msgs[..|msgs| - 1], u, cutoff);
    }
  }

  /** A counted message by `u` anywhere in the list makes its count positive. */
  lemma {:induction false} CountedPositive(msgs: seq<ChatMessage>, u: string, cutoff: int, i: nat)
    requires i < |msgs| && Counted(msgs[i], cutoff) && Name(msgs[i]) == u
    ensures CountedFrom(msgs, u, cutoff) > 0
  {
    if i < |msgs| - 1 {
      assert msgs[..|msgs| - 1][i] == msgs[i];
      CountedPositive(msgs[..|msgs| - 1], u, cutoff, i);
    }
  }

  /**
   * `last_active` is the latest timestamp among the counted messages by `u`:
   * none is later, and one of them has it.
   */
  ghost predicate LastActiveIsLatest(msgs: seq<ChatMessage>, cutoff: int, u: string, c: Contributor) {
    c.lastActive.Some? &&
    (forall m :: m in msgs && Counted(m, cutoff) && Name(m) == u ==> m.timestamp.seconds <= c.lastActive.value) &&
    (exists m :: m in msgs && Counted(m, cutoff) && Name(m) == u && m.timestamp.seconds == c.lastActive.value)
  }

  /** The per-user counters, with the users in the order of their first counted message. */
  datatype Tally = Tally(order: seq<string>, stats: map<string, Contributor>)

  predicate WellFormed(t: Tally) {
    Distinct(t.order) &&
    (forall u :: u in t.order ==> u in t.stats) &&
    (forall u :: u in t.stats ==> u in t.order) &&
    (forall u :: u in t.stats ==>
       t.stats[u].username == u && t.stats[u].questionCount <= t.stats[u].messageCount)
  }

  /** The counters after one more message. */
  function Step(t: Tally, m: ChatMessage, cutoff: int): Tally {
    if !Counted(m, cutoff) then t
    else
      var u := Name(m);
      var c := if u in t.stats then t.stats[u] else Unseen;
      Tally(if u in t.stats then t.order else t.order + [u], t.stats[u := CountMessage(c, m)])
  }

  /** Counting one more message keeps the counters well formed. */
  lemma StepWellFormed(t: Tally, m: ChatMessage, cutoff: int)
    requires WellFormed(t)
    ensures WellFormed(Step(t, m, cutoff))
  {
    if Counted(m, cutoff) && Name(m) !in t.stats {
      assert Name(m) !in t.order;
    }
  }

  /** What the counters say about one user `u`, after the messages `msgs`. */
  ghost predicate CounterOf(msgs: seq<ChatMessage>, cutoff: int, u: string, t: Tally) {
    (u in t.stats ==>
       u != "" && u !in ExcludedNames && t.stats[u].messageCount == CountedFrom(msgs, u, cutoff) &&
       t.stats[u].questionCount == QuestionsFrom(msgs, u, cutoff) &&
       LastActiveIsLatest(msgs, cutoff, u, t.stats[u])) &&
    (u !in t.stats ==> CountedFrom(msgs, u, cutoff) == 0)
  }

  /** One more message keeps one user's counters in step with the messages counted so far. */
  lemma StepKeepsCounters(init: seq<ChatMessage>, m: ChatMessage, cutoff: int, u: string, t: Tally)
    requires CounterOf(init, cutoff, u, t)
    ensures CounterOf(init + [m], cutoff, u, Step(t, m, cutoff))
  {
    var msgs := init + [m];
    var r := Step(t, m, cutoff);
    assert msgs[..|msgs| - 1] == init;
    var mine := Counted(m, cutoff) && Name(m) == u;
    assert CountedFrom(msgs, u, cutoff) == CountedFrom(init, u, cutoff) + (if mine then 1 else 0);
    assert QuestionsFrom(msgs, u, cutoff) ==
           QuestionsFrom(init, u, cutoff) + (if mine && IsQuestion(Text(m)) then 1 else 0);
    if u in r.stats {
      assert m in msgs;
      if u !in t.stats {
        QuestionsWithinCounted(init, u, cutoff);
        forall x | x in init && Counted(x, cutoff) && Name(x) == u
          ensures false
        {
          var i :| 0 <= i < |init| && init[i] == x;
          CountedPositive(init, u, cutoff, i);
        }
      } else if mine {
        var c := t.stats[u];
        var w :| w in init && Counted(w, cutoff) && Name(w) == u && w.timestamp.seconds == c.lastActive.value;
        assert w in msgs;
      }
    }
  }

  /**
   * `t` holds the counters of `msgs`: one entry per named, non-bot author
   * with a counted message, and for each, the number of its counted
   * messages, the number of those that ask a question and the latest
   * timestamp among them.
   */
  ghost predicate Summarises(msgs: seq<ChatMessage>, cutoff: int, t: Tally) {
    WellFormed(t) && forall u :: CounterOf(msgs, cutoff, u, t)
  }

  /** Counting one more message keeps the counters in step with the messages. */
  lemma StepSummarises(init: seq<ChatMessage>, m: ChatMessage, cutoff: int, t: Tally)
    requires Summarises(init, cutoff, t)
    ensures Summarises(init + [m], cutoff, Step(t, m, cutoff))
  {
    StepWellFormed(t, m, cutoff);
    forall u
      ensures CounterOf(init + [m], cutoff, u, Step(t, m, cutoff))
    {
      StepKeepsCounters(init, m, cutoff, u, t);
    }
  }

  /** The counters of all the messages, each user listed once. */
  function TallyOf(msgs: seq<ChatMessage>, cutoff: int): (t: Tally)
    ensures WellFormed(t)
  {
    if msgs == [] then Tally([], map[])
    else
      var t := TallyOf(msgs[..|msgs| - 1], cutoff);
      StepWellFormed(t, msgs[|msgs| - 1], cutoff);
      Step(t, msgs[|msgs| - 1], cutoff)
  }

  /**
   * The counters hold, for every named non-bot author with a counted message
   * and for nobody else, the number of counted messages, the number of those
   * asking a question and the latest of their timestamps.
   */
  lemma {:induction false} TallyOfSummarises(msgs: seq<ChatMessage>, cutoff: int)
    ensures Summarises(msgs, cutoff, TallyOf(msgs, cutoff))
  {
    if msgs != [] {
      var init := msgs[..|msgs| - 1];
      var m := msgs[|msgs| - 1];
      TallyOfSummarises(init, cutoff);
      StepSummarises(init, m, cutoff, TallyOf(init, cutoff));
      assert msgs == init + [m];
    }
  }

  /** `user_stats.values()`, in insertion order. */
  function Values(t: Tally): (r: seq<Contributor>)
    requires WellFormed(t)
    ensures |r| == |t.order|
    ensures forall i :: 0 <= i < |r| ==> r[i] == t.stats[t.order[i]] && r[i].username == t.order[i]
  {
    seq(|t.order|, i requires 0 <= i < |t.order| && WellFormed(t) => t.stats[t.order[i]])
  }

  function ByMessageCount(c: Contributor): Rank { Rank(c.messageCount as real, 0.0) }

  /** The `limit` contributors with the most counted messages, most first, ties by first appearance. */
  function TopContributors(msgs: seq<ChatMessage>, cutoff: int, limit: int): (r: seq<Contributor>)
    ensures limit >= 0 ==> |r| == Min(limit, |TallyOf(msgs, cutoff).order|)
    ensures forall i, j :: 0 <= i < j < |r| ==> r[i].messageCount >= r[j].messageCount
    ensures forall c :: c in r ==>
              c.username != "" && c.username !in ExcludedNames &&
              c.messageCount == CountedFrom(msgs, c.username, cutoff) &&
              c.questionCount == QuestionsFrom(msgs, c.username, cutoff) && c.questionCount <= c.messageCount &&
              LastActiveIsLatest(msgs, cutoff, c.username, c)
  {
    var t := TallyOf(msgs, cutoff);
    var values := Values(t);
    TallyOfSummarises(msgs, cutoff);
    forall c | c in values
      ensures c.username != "" && c.username !in ExcludedNames &&
              c.messageCount == CountedFrom(msgs, c.username, cutoff) &&
              c.questionCount == QuestionsFrom(msgs, c.username, cutoff) && c.questionCount <= c.messageCount &&
              LastActiveIsLatest(msgs, cutoff, c.username, c)
    {
      var i :| 0 <= i < |values| && values[i] == c;
      assert t.order[i] in t.stats && CounterOf(msgs, cutoff, c.username, t);
    }
    var sorted := SortBy(values, ByMessageCount);
    PrefixSorted(sorted, limit, ByMessageCount);
    var r := PyPrefix(sorted, limit);
    assert forall c :: c in r ==> c in sorted;
    r
  }

  /** Nobody is listed twice among the counters. */
  lemma TopContributorsDistinct(msgs: seq<ChatMessage>, cutoff: int)
    ensures var v := Values(TallyOf(msgs, cutoff));
            forall i, j :: 0 <= i < j < |v| ==> v[i].username != v[j].username
  {
  }

  /**
   * The ranking keeps the `limit` contributors with the most counted
   * messages: counters of the tally only, every one when `limit` allows, and
   * none left out with more messages than one kept.
   */
  lemma TopContributorsKeepsBest(msgs: seq<ChatMessage>, cutoff: int, limit: int)
    ensures var r := TopContributors(msgs, cutoff, limit);
            var all := Values(TallyOf(msgs, cutoff));
            multiset(r) <= multiset(all) &&
            (limit >= |all| ==> multiset(r) == multiset(all)) &&
            forall x, m :: x in r && m in multiset(all) - multiset(r) ==> x.messageCount >= m.messageCount
  {
    var all := Values(TallyOf(msgs, cutoff));
    var r := TopContributors(msgs, cutoff, limit);
    assert r == PyPrefix(SortBy(all, ByMessageCount), limit);
    SortedPrefixKeepsBest(all, ByMessageCount, limit);
    forall x, m | x in r && m in multiset(all) - multiset(r)
      ensures x.messageCount >= m.messageCount
    {
      assert !Precedes(ByMessageCount(m), ByMessageCount(x));
    }
  }

  /** No user is listed twice. */
  lemma TopContributorsNoUserTwice(msgs: seq<ChatMessage>, cutoff: int, limit: int)
    ensures var r := TopContributors(msgs, cutoff, limit);
            forall i, j :: 0 <= i < j < |r| ==> r[i].username != r[j].username
  {
    TopContributorsKeepsBest(msgs, cutoff, limit);
    TopContributorsDistinct(msgs, cutoff);
    DistinctFieldSubMultiset(TopContributors(msgs, cutoff, limit), Values(TallyOf(msgs, cutoff)),
                             (c: Contributor) => c.username);
  }

  /**
   * Every user with more counted messages than a listed contributor is listed
   * too, and when `limit` allows, every user with a counted message is.
   */
  lemma TopContributorsListsTheMostActive(msgs: seq<ChatMessage>, cutoff: int, limit: int, u: string)
    ensures (exists c :: c in TopContributors(msgs, cutoff, limit) && CountedFrom(msgs, u, cutoff) > c.messageCount) ==>
              exists d :: d in TopContributors(msgs, cutoff, limit) && d.username == u
    ensures limit >= |TallyOf(msgs, cutoff).order| && CountedFrom(msgs, u, cutoff) > 0 ==>
              exists d :: d in TopContributors(msgs, cutoff, limit) && d.username == u
  {
    var t := TallyOf(msgs, cutoff);
    var all := Values(t);
    var r := TopContributors(msgs, cutoff, limit);
    TopContributorsKeepsBest(msgs, cutoff, limit);
    TallyOfSummarises(msgs, cutoff);
    if CountedFrom(msgs, u, cutoff) > 0 {
      assert CounterOf(msgs, cutoff, u, t);
      assert u in t.order;
      var k :| 0 <= k < |t.order| && t.order[k] == u;
      var mine := all[k];
      assert mine.username == u && mine.messageCount == CountedFrom(msgs, u, cutoff);
      if mine !in r {
        assert mine in multiset(all) - multiset(r);
        assert forall x :: x in r ==> x.messageCount >= CountedFrom(msgs, u, cutoff);
        assert limit < |all|;
      } else {
        assert exists d :: d in r && d.username == u;
      }
    }
  }

  /** Counting a list one message longer is one more step. */
  lemma TallyOfSnoc(msgs: seq<ChatMessage>, i: nat, cutoff: int)
    requires i < |msgs|
    ensures TallyOf(msgs[..i + 1], cutoff) == Step(TallyOf(msgs[..i], cutoff), msgs[i], cutoff)
  {
    assert msgs[..i + 1][..i] == msgs[..i];
  }

  /** The counting loop of the ranking. */
  method TallyMessages(msgs: seq<ChatMessage>, cutoff: int) returns (order: seq<string>, stats: map<string, Contributor>)
    ensures Tally(order, stats) == TallyOf(msgs, cutoff)
  {
    order, stats := [], map[];
    var i := 0;
    while i < |msgs|
      invariant 0 <= i <= |msgs|
      invariant Tally(order, stats) == TallyOf(msgs[..i], cutoff)
    {
      var m := msgs[i];
      ghost var before := Tally(order, stats);
      var username := Name(m);
      if username != "" && username !in ExcludedNames && Recent(m, cutoff) {
        var c := Unseen;
        if username in stats {
          c := stats[username];
        } else {
          order := order + [username];
        }
        var questions := c.questionCount + (if IsQuestion(Text(m)) then 1 else 0);
        var last := if c.lastActive.None? || m.timestamp.seconds > c.lastActive.value then Some(m.timestamp.seconds)
                    else c.lastActive;
        assert Contributor(username, c.messageCount + 1, questions, last) == CountMessage(c, m);
        stats := stats[username := Contributor(username, c.messageCount + 1, questions, last)];
        assert order == Step(before, m, cutoff).order;
        assert stats == Step(before, m, cutoff).stats;
      }
      assert Tally(order, stats) == Step(before, m, cutoff);
      TallyOfSnoc(msgs, i, cutoff);
      i := i + 1;
    }
    assert msgs[..i] == msgs;
  }

  /** `get_top_contributors`: [] when there are no messages or the read fails. */
  method GetTopContributors(messages: Fetch<ChatMessage>, cutoff: int, limit: int) returns (top: seq<Contributor>)
    ensures messages.Failed? ==> top == []
    ensures messages.Fetched? ==> top == TopContributors(messages.items, cutoff, limit)
  {
    if messages.Failed? || messages.items == [] {
      return [];
    }
    var order, stats := TallyMessages(messages.items, cutoff);
    var values := Values(Tally(order, stats));
    top := PyPrefix(SortBy(values, ByMessageCount), limit);
  }

  // ---------------------------------------------------------------------
  // Trends
  // ---------------------------------------------------------------------

  /** An engagement event; `kind` is `None` on a record without a type. */
  datatype Engagement = Engagement(kind: Option<string>)

  datatype Trends = Trends(dailyMessages: map<string, nat>, dailyActiveUsers: map<string, nat>,
                           activityTypes: map<string, nat>)

  function Bump(counts: map<string, nat>, key: string): map<string, nat> {
    counts[key := (if key in counts then counts[key] else 0) + 1]
  }

  /** Recent messages per day, the day of an instant given by `dayOf`. */
  function DailyMessages(msgs: seq<ChatMessage>, cutoff: int, dayOf: int -> string): map<string, nat> {
    if msgs == [] then map[]
    else
      var m := msgs[|msgs| - 1];
      var before := DailyMessages(msgs[..|msgs| - 1], cutoff, dayOf);
      if Recent(m, cutoff) then Bump(before, dayOf(m.timestamp.seconds)) else before
  }

  /** The named authors of the recent messages of each day. */
  function DailyUsers(msgs: seq<ChatMessage>, cutoff: int, dayOf: int -> string): map<string, set<string>> {
    if msgs == [] then map[]
    else
      var m := msgs[|msgs| - 1];
      var before := DailyUsers(msgs[..|msgs| - 1], cutoff, dayOf);
      if Recent(m, cutoff) && Name(m) != "" then
        var d := dayOf(m.timestamp.seconds);
        before[d := (if d in before then before[d] else {}) + {Name(m)}]
      else before
  }

  /** Events per type, "unknown" for an event without one. */
  function ActivityTypes(engagements: seq<Engagement>): map<string, nat> {
    if engagements == [] then map[]
    else Bump(ActivityTypes(engagements[..|engagements| - 1]), engagements[|engagements| - 1].kind.GetOr("unknown"))
  }

  /** The number of events of one type. */
  function CountKind(engagements: seq<Engagement>, kind: string): nat {
    if engagements == [] then 0
    else CountKind(engagements[..|engagements| - 1], kind) +
         (if engagements[|engagements| - 1].kind.GetOr("unknown") == kind then 1 else 0)
  }

  /** The type counter holds, for each type seen, exactly its number of events. */
  lemma {:induction false} ActivityTypesCount(engagements: seq<Engagement>, kind: string)
    ensures kind in ActivityTypes(engagements) <==> CountKind(engagements, kind) > 0
    ensures kind in ActivityTypes(engagements) ==> ActivityTypes(engagements)[kind] == CountKind(engagements, kind)
  {
    if engagements != [] {
      ActivityTypesCount(engagements[..|engagements| - 1], kind);
    }
  }

  /** On no day are there more active users than messages. */
  lemma {:induction false} DailyUsersBounded(msgs: seq<ChatMessage>, cutoff: int, dayOf: int -> string)
    ensures forall d :: d in DailyUsers(msgs, cutoff, dayOf) ==>
              d in DailyMessages(msgs, cutoff, dayOf) &&
              |DailyUsers(msgs, cutoff, dayOf)[d]| <= DailyMessages(msgs, cutoff, dayOf)[d]
  {
    if msgs != [] {
      var init := msgs[..|msgs| - 1];
      DailyUsersBounded(init, cutoff, dayOf);
      var m := msgs[|msgs| - 1];
      if Recent(m, cutoff) && Name(m) != "" {
        var d := dayOf(m.timestamp.seconds);
        var before := DailyUsers(init, cutoff, dayOf);
        var old_ := if d in before then before[d] else {};
        assert |old_ + {Name(m)}| <= |old_| + 1;
      }
    }
  }

  /** Each day's set of users, replaced by its size. */
  function Sizes(users: map<string, set<string>>): (r: map<string, nat>)
    ensures r.Keys == users.Keys
    ensures forall d :: d in r ==> r[d] == |users[d]|
  {
    map d | d in users :: |users[d]|
  }

  /** The loops of the trends over the messages and the events. */
  method CollectTrends(msgs: seq<ChatMessage>, engagements: seq<Engagement>, cutoff: int, dayOf: int -> string)
    returns (daily: map<string, nat>, users: map<string, set<string>>, kinds: map<string, nat>)
    ensures daily == DailyMessages(msgs, cutoff, dayOf) && users == DailyUsers(msgs, cutoff, dayOf)
    ensures kinds == ActivityTypes(engagements)
  {
    daily, users, kinds := map[], map[], map[];
    var i := 0;
    while i < |msgs|
      invariant 0 <= i <= |msgs|
      invariant daily == DailyMessages(msgs[..i], cutoff, dayOf) && users == DailyUsers(msgs[..i], cutoff, dayOf)
    {
      var m := msgs[i];
      if Recent(m, cutoff) {
        var d := dayOf(m.timestamp.seconds);
        daily := daily[d := (if d in daily then daily[d] else 0) + 1];
        var username := Name(m);
        if username != "" {
          users := users[d := (if d in users then users[d] else {}) + {username}];
        }
      }
      assert msgs[..i + 1][..i] == msgs[..i];
      i := i + 1;
    }
    assert msgs[..i] == msgs;
    var j := 0;
    while j < |engagements|
      invariant 0 <= j <= |engagements|
      invariant kinds == ActivityTypes(engagements[..j])
    {
      var kind := engagements[j].kind.GetOr("unknown");
      kinds := kinds[kind := (if kind in kinds then kinds[kind] else 0) + 1];
      assert engagements[..j + 1][..j] == engagements[..j];
      j := j + 1;
    }
    assert engagements[..j] == engagements;
  }

  /**
   * `get_engagement_trends`: recent messages and distinct named authors per
   * day, and events per type.
   */
  method GetEngagementTrends(messages: Fetch<ChatMessage>, engagements: Fetch<Engagement>,
                             cutoff: int, dayOf: int -> string)
    returns (trends: Trends)
    ensures messages.Failed? ==> trends == Trends(map[], map[], map[])
    ensures messages.Fetched? ==>
              trends.dailyMessages == DailyMessages(messages.items, cutoff, dayOf) &&
              trends.dailyActiveUsers == Sizes(DailyUsers(messages.items, cutoff, dayOf))
    ensures trends.activityTypes ==
              (if messages.Fetched? && engagements.Fetched? then ActivityTypes(engagements.items) else map[])
    ensures forall d :: d in trends.dailyActiveUsers ==>
              d in trends.dailyMessages && trends.dailyActiveUsers[d] <= trends.dailyMessages[d]
  {
    if messages.Failed? {
      return Trends(map[], map[], map[]);
    }
    var events := if engagements.Fetched? then engagements.items else [];
    var daily, users, kinds := CollectTrends(messages.items, events, cutoff, dayOf);
    DailyUsersBounded(messages.items, cutoff, dayOf);
    trends := Trends(daily, Sizes(users), kinds);
  }

  // ---------------------------------------------------------------------
  // Engagement score
  // ---------------------------------------------------------------------

  /** A knowledge-base entry; `addedBy` is its `metadata.added_by`. */
  datatype KbEntry = KbEntry(addedBy: Option<string>)

  datatype PostedOpportunity = PostedOpportunity(postedBy: Option<string>)

  datatype EngagementMetrics = EngagementMetrics(
    username: string,
    messagesSent: nat,
    questionsAsked: nat,
    kbContributions: nat,
    opportunitiesPosted: nat,
    engagementScore: nat)

  /** One point per message, two per question, five per entry, three per opportunity. */
  function Weighted(messagesSent: nat, questionsAsked: nat, kbContributions: nat, opportunitiesPosted: nat): nat {
    messagesSent * 1 + questionsAsked * 2 + kbContributions * 5 + opportunitiesPosted * 3
  }

  /** A recent message by `username`. */
  predicate SentBy(m: ChatMessage, username: string, cutoff: int) {
    m.username == Some(username) && Recent(m, cutoff)
  }

  /** The user's recent messages, and how many of them hold a question mark. */
  function MessageCounts(msgs: seq<ChatMessage>, username: string, cutoff: int): (r: (nat, nat))
    ensures r.1 <= r.0 <= |msgs|
  {
    if msgs == [] then (0, 0)
    else
      var m := msgs[|msgs| - 1];
      var (sent, asked) := MessageCounts(msgs[..|msgs| - 1], username, cutoff);
      if SentBy(m, username, cutoff) then
        (sent + 1, asked + (if Contains(Text(m), "?") then 1 else 0))
      else (sent, asked)
  }

  function KbContributions(entries: seq<KbEntry>, username: string): (n: nat)
    ensures n <= |entries|
  {
    if entries == [] then 0
    else KbContributions(entries[..|entries| - 1], username) +
         (if entries[|entries| - 1].addedBy == Some(username) then 1 else 0)
  }

  function OpportunitiesPosted(opps: seq<PostedOpportunity>, username: string): (n: nat)
    ensures n <= |opps|
  {
    if opps == [] then 0
    else OpportunitiesPosted(opps[..|opps| - 1], username) +
         (if opps[|opps| - 1].postedBy == Some(username) then 1 else 0)
  }

  /** A message the score counts as a question is a question to the contributor ranking too. */
  lemma QuestionMarkIsQuestion(m: ChatMessage)
    requires Contains(Text(m), "?")
    ensures IsQuestion(Text(m))
  {
  }

  /** A user's score never drops when they send one more recent message. */
  lemma {:induction false} MoreMessagesNeverLowerScore(msgs: seq<ChatMessage>, m: ChatMessage, username: string, cutoff: int,
                                                       kb: nat, opps: nat)
    requires SentBy(m, username, cutoff)
    ensures var (s0, q0) := MessageCounts(msgs, username, cutoff);
            var (s1, q1) := MessageCounts(msgs + [m], username, cutoff);
            s1 == s0 + 1 && Weighted(s0, q0, kb, opps) < Weighted(s1, q1, kb, opps)
  {
    assert (msgs + [m])[..|msgs + [m]| - 1] == msgs;
  }

  /** The message loop of the score. */
  method CountMessages(msgs: seq<ChatMessage>, username: string, cutoff: int) returns (sent: nat, asked: nat)
    ensures (sent, asked) == MessageCounts(msgs, username, cutoff)
  {
    sent, asked := 0, 0;
    var i := 0;
    while i < |msgs|
      invariant 0 <= i <= |msgs|
      invariant (sent, asked) == MessageCounts(msgs[..i], username, cutoff)
    {
      var m := msgs[i];
      if m.username == Some(username) && m.timestamp.Instant? && m.timestamp.seconds >= cutoff {
        sent := sent + 1;
        if Contains(Text(m), "?") {
          asked := asked + 1;
        }
      }
      assert msgs[..i + 1][..i] == msgs[..i];
      i := i + 1;
    }
    assert msgs[..i] == msgs;
  }

  /** The entry and opportunity loops of the score. */
  method CountContributions(entries: seq<KbEntry>, opps: seq<PostedOpportunity>, username: string)
    returns (kb: nat, posted: nat)
    ensures kb == KbContributions(entries, username) && posted == OpportunitiesPosted(opps, username)
  {
    kb, posted := 0, 0;
    var i := 0;
    while i < |entries|
      invariant 0 <= i <= |entries|
      invariant kb == KbContributions(entries[..i], username)
    {
      if entries[i].addedBy == Some(username) {
        kb := kb + 1;
      }
      assert entries[..i + 1][..i] == entries[..i];
      i := i + 1;
    }
    assert entries[..i] == entries;
    var j := 0;
    while j < |opps|
      invariant 0 <= j <= |opps|
      invariant posted == OpportunitiesPosted(opps[..j], username)
    {
      if opps[j].postedBy == Some(username) {
        posted := posted + 1;
      }
      assert opps[..j + 1][..j] == opps[..j];
      j := j + 1;
    }
    assert opps[..j] == opps;
  }

  /**
   * `get_user_engagement_score`. A failed read leaves its counter and the
   * later ones at 0, and the score at 0.
   */
  method GetUserEngagementScore(username: string, messages: Fetch<ChatMessage>, kbEntries: Fetch<KbEntry>,
                                opportunities: Fetch<PostedOpportunity>, cutoff: int)
    returns (metrics: EngagementMetrics)
    ensures metrics.username == username
    ensures metrics.questionsAsked <= metrics.messagesSent
    ensures messages.Fetched? ==>
              (metrics.messagesSent, metrics.questionsAsked) == MessageCounts(messages.items, username, cutoff)
    ensures messages.Failed? ==> metrics.messagesSent == 0 && metrics.questionsAsked == 0
    ensures metrics.kbContributions ==
              (if messages.Fetched? && kbEntries.Fetched? then KbContributions(kbEntries.items, username) else 0)
    ensures metrics.opportunitiesPosted ==
              (if messages.Fetched? && kbEntries.Fetched? && opportunities.Fetched?
               then OpportunitiesPosted(opportunities.items, username) else 0)
    ensures metrics.engagementScore ==
              (if messages.Fetched? && kbEntries.Fetched? && opportunities.Fetched?
               then Weighted(metrics.messagesSent, metrics.questionsAsked, metrics.kbContributions,
                             metrics.opportunitiesPosted)
               else 0)
  {
    metrics := EngagementMetrics(username, 0, 0, 0, 0, 0);
    if messages.Failed? {
      return;
    }
    var sent, asked := CountMessages(messages.items, username, cutoff);
    metrics := metrics.(messagesSent := sent, questionsAsked := asked);
    if kbEntries.Failed? {
      return;
    }
    var kb, posted := CountContributions(kbEntries.items,
                                         if opportunities.Fetched? then opportunities.items else [], username);
    metrics := metrics.(kbContributions := kb);
    if opportunities.Failed? {
      return;
    }
    metrics := metrics.(opportunitiesPosted := posted);
    metrics := metrics.(engagementScore := Weighted(sent, asked, kb, posted));
  }
}
