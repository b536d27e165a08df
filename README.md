# Community platform core, modelled in Dafny

This project models the server-side logic of a community platform. The
platform hosts chat communities and organisations. On top of those it offers:

- an opportunity board with a profile-based matcher;
- a tag-based recommender over a fixed opportunity catalog;
- a knowledge-base cache with similarity search;
- fill-in document templates exported to Markdown;
- engagement analytics;
- role-based access control.

The hosted key-value database is part of the model's state:

- The stores whose records the code updates in place are Dafny classes whose
  fields are maps. These are `OpportunityStore`, `TenantStore`,
  `KnowledgeBaseCache` and `TemplateStore`.
- Code that only reads a database node takes the node's contents as a
  parameter. This covers analytics and access control.
- A failed read or write is a flag or a `Failed` value on the operation that
  would have hit it.

The environment is also passed in as parameters:

- the clock (`now`, the cutoff instant);
- the random jitter;
- generated ids and invite codes;
- the string similarity ratio;
- date formatting.

One module per source file, plus `Common`:

- `Common` (`common.dfy`): `Option`, ASCII lower/upper-casing, whitespace
  stripping, substring tests, Python's `s[:k]`, and a stable sort by a
  descending key.
  - The sort is proved sorted, a permutation of its input and stable.
  - It stands for `list.sort(key=..., reverse=True)`.
- `OpportunityMatcher` (`opportunity_matcher.dfy`): the opportunity, profile
  and activity store, and the fixed-weight match score.
  - The score is 0.4 skills + 0.3 interests + 0.2 activity + 0.1 bio,
    capped at 1.
  - The store also ranks opportunities and produces recommendations.
- `PersonalizedOpportunities` (`personalized_opportunities.dfy`): the
  percentage scorer over the 58-entry catalog.
  - Components are tags 50, skills 25, interests 15 and bio 10, and only
    applicable components count.
  - The percentage is truncated, shifted by a jitter in [-3, 3] and clamped
    to [0, 100].
  - Also modelled: the urgency buckets, the ranked recommendations and the
    statistics.
- `MultiTenant` (`multi_tenant.dfy`): organisations, members and roles,
  settings, invite codes, the permission check, and data paths per
  organisation.
- `KnowledgeBase` (`kb_utils.py` → `kb_utils.dfy`): the per-community
  document cache, plus insert, search and size.
- `TemplateAssistant` (`template_assistant.dfy`): the template library, the
  Markdown export, and saved instances with their update and listing.
- `Analytics` (`analytics.dfy`):
  - community totals;
  - top contributors;
  - daily trends;
  - a user's weighted engagement score.
- `AuthManager` (`auth_manager.dfy`): the API's permission table, its 403
  guard, and the role checkers.

The API's permission table gives `delete_own` to moderators and members but
not to admins. `AuthManager.PermissionLadder` states this as the table has
it.

## Model

| member | source | states |
|---|---|---|
| Common.SortBy | opportunity_matcher.py:303 | the result is sorted by the descending key and holds the same items as the input |
| Common.SortByStable | opportunity_matcher.py:303 | items with the same key keep their input order, as Python's stable sort does |
| Common.SortedPrefixKeepsBest | opportunity_matcher.py:303-305 | the first `k` items of the sort are items of the input, all of them when `k` allows, and no item left out has a key that precedes a kept one's |
| OpportunityMatcher.SkillsTerm | opportunity_matcher.py:234-238 | the skills term lies in [0, 0.4] and is 0 when the opportunity lists no requirements |
| OpportunityMatcher.InterestTerm | opportunity_matcher.py:240-244 | the interest term lies in [0, 0.3] and is 0 when the opportunity has no tags |
| OpportunityMatcher.ActivityTerm | opportunity_matcher.py:246-250 | the activity term is 0 without activity and lies in [0, 0.2] for a ratio in [0, 1] |
| OpportunityMatcher.BioTerm | opportunity_matcher.py:252-256 | the bio term is 0 for an empty bio and lies in [0, 0.1] for a ratio in [0, 1] |
| OpportunityMatcher.MatchScore | opportunity_matcher.py:216-258 | the match score never exceeds 1 and, for a ratio in [0, 1], is never negative |
| OpportunityMatcher.SkillsTermFullIffCovered | opportunity_matcher.py:234-238 | the skills term is the full 0.4 exactly when every requirement is among the skills, case-insensitively |
| OpportunityMatcher.SkillsTermZeroIffDisjoint | opportunity_matcher.py:234-238 | the skills term is 0 exactly when no requirement is among the skills |
| OpportunityMatcher.IntersectionGrows | opportunity_matcher.py:236 | enlarging the skill set never shrinks its overlap with the requirements |
| OpportunityMatcher.AddingSkillNeverLowersScore | opportunity_matcher.py:231-238 | adding a skill to a profile never lowers its score for any opportunity |
| OpportunityMatcher.NoRequirementsCapsScore | opportunity_matcher.py:235-258 | without requirements the score stays at most 0.6: the skills weight is not redistributed |
| OpportunityMatcher.EmptyProfileScoresZero | opportunity_matcher.py:231-258 | a profile with no skills, interests or bio and no activity scores exactly 0 |
| OpportunityMatcher.HalfCoveredRequirementsScoreTwoTenths | opportunity_matcher.py:235-238 | one of two requirements covered, and nothing else, scores 0.2 |
| OpportunityMatcher.ScoreAll | opportunity_matcher.py:294-300 | one scored entry per opportunity, in order, each carrying that opportunity's score |
| OpportunityMatcher.RankMatches | opportunity_matcher.py:302-305 | exactly `min(top_k, len(opportunities))` entries for a non-negative `top_k`, drawn from the given opportunities with their own scores, in non-increasing score order |
| OpportunityMatcher.RankMatchesKeepsBest | opportunity_matcher.py:302-305 | the ranking is a sub-multiset of the scored opportunities, all of them when `top_k` allows, and no opportunity left out scores higher than one kept |
| OpportunityMatcher.RankedScoresInUnit | opportunity_matcher.py:216-258 | every ranked score lies in [0, 1] when the ratio does |
| OpportunityMatcher.RankMatchesPrefix | opportunity_matcher.py:303-305 | a smaller `top_k` yields a prefix of the ranking a larger one yields |
| OpportunityMatcher.SelectByStatus | opportunity_matcher.py:98-102 | the same multiset as the records for "all", otherwise the same multiset as the records with the requested status; newest first |
| OpportunityMatcher.OpportunityStore.constructor | opportunity_matcher.py:18-213 | an empty store |
| OpportunityMatcher.OpportunityStore.AddOpportunity | opportunity_matcher.py:18-74 | on success the community gains one record with the new id, status "active" and missing lists empty; on failure nothing changes |
| OpportunityMatcher.OpportunityStore.GetOpportunities | opportunity_matcher.py:77-107 | at most `limit` of the latest records, only the requested status unless "all", newest first; [] on no data or a failed read |
| OpportunityMatcher.OpportunityStore.UpdateOpportunityStatus | opportunity_matcher.py:110-128 | true exactly when some record has the id; then only the first such record's status changes; otherwise nothing changes |
| OpportunityMatcher.OpportunityStore.UpdateUserProfile | opportunity_matcher.py:135-173 | the user's whole profile is replaced, missing lists empty; a failed write changes nothing |
| OpportunityMatcher.OpportunityStore.GetUserProfile | opportunity_matcher.py:176-184 | a profile exactly when one is stored and the read succeeds |
| OpportunityMatcher.OpportunityStore.TrackUserActivity | opportunity_matcher.py:187-213 | one activity record is appended to the user's list; a failed push changes nothing |
| OpportunityMatcher.OpportunityStore.ProfileOrEmpty | opportunity_matcher.py:274-277 | a missing profile or a failed read becomes the empty profile |
| OpportunityMatcher.OpportunityStore.RecentActivity | opportunity_matcher.py:280-285 | at most the last 50 activity records, none on a failed read |
| OpportunityMatcher.OpportunityStore.MatchOpportunities | opportunity_matcher.py:261-305 | the ranking of the community's active opportunities against the stored or the empty profile: at most `top_k`, best first; `RankMatchesKeepsBest` shows none better is left out |
| OpportunityMatcher.OpportunityStore.GetOpportunityRecommendations | opportunity_matcher.py:308-320 | the ten-best ranking filtered to scores of at least `min_score`: at most 10 active matches, best first |
| OpportunityMatcher.ScoreOpportunities | opportunity_matcher.py:294-300 | the scoring loop produces the scored list of every opportunity in order |
| OpportunityMatcher.IndexOfId | opportunity_matcher.py:119-120 | the first position holding the id, and none exactly when no record has it |
| OpportunityMatcher.IndexOfIdFirst | opportunity_matcher.py:119-123 | a record with the id and none before it is the one found |
| OpportunityMatcher.IndexOfIdNone | opportunity_matcher.py:119-125 | without a record with the id nothing is found |
| OpportunityMatcher.WithStatus | opportunity_matcher.py:121 | only the chosen record's status changes; every other record stays as it was |
| OpportunityMatcher.SameStatusIsNoOp | opportunity_matcher.py:121 | setting a record's status to the one it has changes nothing |
| OpportunityMatcher.StatusRoundTrip | opportunity_matcher.py:121 | closing a record and restoring its old status gives back the original records |
| PersonalizedOpportunities.Normalised | personalized_opportunities.py:327-334 | each user item is lower-cased and stripped, one per item |
| PersonalizedOpportunities.Lowered | personalized_opportunities.py:339 | each opportunity item is lower-cased, one per item |
| PersonalizedOpportunities.TagMatches | personalized_opportunities.py:340 | exact tag matches number at most the user's tags |
| PersonalizedOpportunities.FuzzyMatches | personalized_opportunities.py:348 | substring matches number at most the user's items |
| PersonalizedOpportunities.BioMatches | personalized_opportunities.py:363 | bio matches number at most the opportunity's tags |
| PersonalizedOpportunities.ExactIsFuzzy | personalized_opportunities.py:348 | an item equal to an opportunity item also matches it fuzzily |
| PersonalizedOpportunities.FuzzyMatchesAtLeastExact | personalized_opportunities.py:340-356 | fuzzy matching counts at least as many matches as exact matching |
| PersonalizedOpportunities.DistinctTagMatches | personalized_opportunities.py:340 | tags listed once each match no more tags than any set holding every match |
| PersonalizedOpportunities.BlankItemMatchesAnything | personalized_opportunities.py:348 | an item that strips to "" matches every non-empty list, since "" is inside every string |
| PersonalizedOpportunities.ContainedSkillMatches | personalized_opportunities.py:348 | "react" matches "react native" by containment |
| PersonalizedOpportunities.TagTally | personalized_opportunities.py:337-342 | the tag component weighs 50 only when both sides have tags, and otherwise adds nothing |
| PersonalizedOpportunities.SkillTally | personalized_opportunities.py:345-350 | the skill component weighs 25 whenever the opportunity lists skills, and scores 0 without user skills |
| PersonalizedOpportunities.InterestTally | personalized_opportunities.py:353-358 | the interest component weighs 15 whenever the opportunity lists interests, and scores 0 without user interests |
| PersonalizedOpportunities.BioTally | personalized_opportunities.py:361-365 | the bio component weighs 10 when there is a bio and tags, and its score lies in [0, 10] |
| PersonalizedOpportunities.MatchTally | personalized_opportunities.py:336-365 | the applicable weights add up to at most 100, and the raw score is never negative |
| PersonalizedOpportunities.Percent | personalized_opportunities.py:369 | the score as a share of the maximum, times 100 |
| PersonalizedOpportunities.PreJitterScore | personalized_opportunities.py:367-371 | the truncated percentage, or 0 when no component applies |
| PersonalizedOpportunities.Jittered | personalized_opportunities.py:374 | the shifted score clamped to [0, 100], unchanged when already inside |
| PersonalizedOpportunities.FinalScore | personalized_opportunities.py:318-376 | the score shown always lies in [0, 100] |
| PersonalizedOpportunities.CalculateMatchScore | personalized_opportunities.py:318-376 | the scorer returns the final score of the profile and the opportunity under the given jitter |
| PersonalizedOpportunities.JitterMovesAtMostThree | personalized_opportunities.py:374 | a jitter in [-3, 3] moves an in-range score by at most 3 |
| PersonalizedOpportunities.EmptyProfileScoresJitterOnly | personalized_opportunities.py:323-374 | an empty profile scores 0 before the jitter, so only the clamped jitter is shown |
| PersonalizedOpportunities.PercentIs | personalized_opportunities.py:369 | the percentage is the unique `p` with p * max = score * 100 |
| PersonalizedOpportunities.ZeroPercent | personalized_opportunities.py:369 | a zero score is 0 percent |
| PersonalizedOpportunities.TagsOnlyScore | personalized_opportunities.py:337-371 | with only tags applying, the pre-jitter score is floor(matches / tags * 100), matches counted after lower-casing and stripping, for any tags |
| PersonalizedOpportunities.NormalTagsOnlyScore | personalized_opportunities.py:333-341 | for tags that lower-casing and stripping leave alone, the same truncated percentage with matches counted on the tags as given |
| PersonalizedOpportunities.NormalTagFixed | personalized_opportunities.py:334-339 | a lower-case letter tag is left alone by lower-casing and stripping |
| PersonalizedOpportunities.NormalTagsUnchanged | personalized_opportunities.py:334-339 | lists of such tags are left alone by both normalisations |
| PersonalizedOpportunities.TwoOfThreeCount | personalized_opportunities.py:340 | two distinct user tags among three opportunity tags count 2 |
| PersonalizedOpportunities.TwoOfThreeTagsScoreSixtySix | personalized_opportunities.py:337-371 | two of three tags matched gives 66, truncated rather than rounded |
| PersonalizedOpportunities.RepeatedCount | personalized_opportunities.py:340 | a repeated user tag is counted once per repetition |
| PersonalizedOpportunities.RepeatedTagExceedsHundred | personalized_opportunities.py:337-371 | a tag listed twice by the user drives the pre-jitter score to 200 |
| PersonalizedOpportunities.ExampleTagsAreNormal | personalized_opportunities.py:334 | "ai", "ml" and "python" are left alone by the normalisation |
| PersonalizedOpportunities.ClampHidesExcess | personalized_opportunities.py:374 | a pre-jitter score above 103 is always shown as 100 |
| PersonalizedOpportunities.DistinctTagsStayWithinWeight | personalized_opportunities.py:337-342 | user tags that are distinct after normalisation keep the tag score within its weight of 50 |
| PersonalizedOpportunities.TagsOnlyScoreAtMostHundred | personalized_opportunities.py:337-371 | with distinct user tags and only tags applying, the pre-jitter score is at most 100 |
| PersonalizedOpportunities.UrgencyOf | personalized_opportunities.py:379-388 | the bucket is urgent up to 3 days, then apply-before up to 7, then deadline up to 14, then open |
| PersonalizedOpportunities.UrgencyMonotone | personalized_opportunities.py:379-388 | more days left never lands in a more urgent bucket |
| PersonalizedOpportunities.Recommend | personalized_opportunities.py:402-414 | a recommendation carries the score, the days left and the urgency of those days |
| PersonalizedOpportunities.Scores | personalized_opportunities.py:398-401 | every catalog entry gets its final score under its own jitter, in [0, 100] |
| PersonalizedOpportunities.QualifyingBounds | personalized_opportunities.py:398-414 | only entries reaching `min_score` are kept, at most one per entry, each with a score in [0, 100]; with a threshold of 0 or less every entry is kept |
| PersonalizedOpportunities.Ranked | personalized_opportunities.py:417-419 | `top_n` qualifying entries, ordered by match descending, then by fewer days left |
| PersonalizedOpportunities.RankedKeepsBest | personalized_opportunities.py:417-419 | the ranking is a sub-multiset of the qualifying entries, all of them when `top_n` allows, and every entry left out has a lower match, or an equal match and no fewer days left, than each one kept |
| PersonalizedOpportunities.ScoreCatalog | personalized_opportunities.py:398-414 | the loop scores every catalog entry and keeps the qualifying ones in catalog order |
| PersonalizedOpportunities.GetPersonalizedOpportunities | personalized_opportunities.py:391-419 | the ranking of the qualifying catalog entries: at most `top_n` recommendations, each scoring between `min_score` and 100; `RankedKeepsBest` shows none better is left out |
| PersonalizedOpportunities.StatsOf | personalized_opportunities.py:426-435 | the high and medium buckets together, and the urgent bucket, never exceed the total |
| PersonalizedOpportunities.GetOpportunityStats | personalized_opportunities.py:422-435 | the statistics are those of the top 200 at threshold 0, which cover every entry of a catalog of at most 200 |
| PersonalizedOpportunities.DatabaseFullyCounted | personalized_opportunities.py:422-424 | the built-in catalog has 58 entries, so its statistics cover all of them |
| MultiTenant.OrgId | multi_tenant.py:39 | the id keeps the name's length, lower-cases it and turns every space into "_" |
| MultiTenant.OrgIdIgnoresCase | multi_tenant.py:39 | names that differ only in case give the same id |
| MultiTenant.OrgIdIdempotent | multi_tenant.py:39 | an id is its own id |
| MultiTenant.SpaceAndUnderscoreClash | multi_tenant.py:39 | "a b" and "a_b" give the same id, so the second is refused as existing |
| MultiTenant.InitialSettings | multi_tenant.py:47-58 | exactly the four default keys; given values win and unknown keys are dropped |
| MultiTenant.NoSettingsMeansDefaults | multi_tenant.py:36-58 | no settings give the defaults |
| MultiTenant.MergeSettings | multi_tenant.py:88-97 | the given keys override and every other current key is kept |
| MultiTenant.MergeSettingsIdempotent | multi_tenant.py:88-97 | applying the same settings twice equals applying them once |
| MultiTenant.NewOrganization | multi_tenant.py:39-61 | the new organisation has the derived id, the admin as its only member, and the initial settings |
| MultiTenant.RemoveFirst | multi_tenant.py:173 | exactly one occurrence of the user is removed when present; otherwise the list is unchanged |
| MultiTenant.RemoveFirstDistinct | multi_tenant.py:173 | in a duplicate-free list, removal leaves exactly the other members |
| MultiTenant.RoleActions | multi_tenant.py:281-287 | an unknown role allows nothing, and no role allows anything the admin does not |
| MultiTenant.RoleHierarchy | multi_tenant.py:281-285 | member < moderator < admin, strictly, by allowed actions |
| MultiTenant.OnlyAdminsDeleteOrAdminister | multi_tenant.py:281-285 | only the admin role allows "delete" or "admin" |
| MultiTenant.RoleOf | multi_tenant.py:187-199 | a role exactly when a member record exists, "member" for a record without one |
| MultiTenant.Permitted | multi_tenant.py:258-288 | permitted only for a member with a role record, and then exactly when the role allows the action |
| MultiTenant.RolelessRecordActsAsMember | multi_tenant.py:275-288 | a record without a role allows exactly read and write |
| MultiTenant.NewOrganizationLocksOutAdmin | multi_tenant.py:39-76 | the creator of a new organisation is a member yet is denied every action |
| MultiTenant.NewOrganizationWithRecordAdmitsAdmin | multi_tenant.py:258-288 | with an admin record written at creation the creator is allowed every admin action |
| MultiTenant.GetOrganizationDataPath | multi_tenant.py:375-392 | a path exactly for the five data types, of the form type/org; otherwise the invalid-type error |
| MultiTenant.DataTypesHaveNoSlash | multi_tenant.py:387 | no data type contains "/" |
| MultiTenant.FirstSlashAt | multi_tenant.py:392 | in type/org the first "/" sits right after the type |
| MultiTenant.SplitAtFirstSlash | multi_tenant.py:392 | type/org splits back uniquely into its type and org |
| MultiTenant.DataPathsIsolated | multi_tenant.py:375-392 | two organisations or two data types never share a path |
| MultiTenant.TenantStore.constructor | multi_tenant.py:18-368 | an empty, well-formed store |
| MultiTenant.TenantStore.IsMember | multi_tenant.py:202-215 | true exactly when the organisation exists and lists the user among its members; a failed read is false |
| MultiTenant.TenantStore.IsAdmin | multi_tenant.py:218-230 | true exactly when the organisation exists and records the user as its admin; a failed read is false |
| MultiTenant.TenantStore.AdminIsMember | multi_tenant.py:46 | in a well-formed store the admin is a member |
| MultiTenant.TenantStore.GetMemberRole | multi_tenant.py:187-199 | the recorded role, "member" without one, none without a record or on a failed read |
| MultiTenant.TenantStore.CheckPermission | multi_tenant.py:258-288 | allowed only for a member with a role, and then exactly when the role allows the action |
| MultiTenant.TenantStore.CreateOrganization | multi_tenant.py:18-76 | created exactly when the id is free and the store is up; the admin is then a member, yet denied every action |
| MultiTenant.TenantStore.CreateOrganizationWithAdminRole | multi_tenant.py:18-76 | as above, also recording the admin's role, so every admin action is allowed |
| MultiTenant.TenantStore.UpdateOrganizationSettings | multi_tenant.py:82-103 | exactly for an existing organisation the given settings are merged in and nothing else changes; the store stays well-formed |
| MultiTenant.TenantStore.AddMemberToOrganization | multi_tenant.py:110-151 | exactly for an existing organisation the user is not in, the user is appended with the given role; otherwise nothing changes |
| MultiTenant.TenantStore.RemoveMemberFromOrganization | multi_tenant.py:154-184 | exactly for a listed non-admin member, the user and their record are removed, and the admin stays a member |
| MultiTenant.CollectMemberships | multi_tenant.py:242-246 | one pass over the organisations: each one listing the user is collected, under its own distinct key, and only those |
| MultiTenant.TenantStore.GetUserOrganizations | multi_tenant.py:233-251 | every organisation listing the user and only those, each once in a well-formed store, no more than there are organisations; none on a failed read |
| MultiTenant.NewInvite | multi_tenant.py:306-314 | the invite keeps its code, organisation and use limit, starts with no uses and expires `expires_in_days` days after its creation |
| MultiTenant.DefaultInviteIsSingleUseForAWeek | multi_tenant.py:291 | with the default arguments an invite allows one use and expires 604800 seconds after creation |
| MultiTenant.TenantStore.CreateInviteCode | multi_tenant.py:291-323 | the invite is stored under its code with no uses and an expiry `days` days ahead; a failed write changes nothing |
| MultiTenant.TenantStore.UseInviteCode | multi_tenant.py:326-368 | succeeds exactly for a known, unexpired, not-used-up code whose organisation admits the user as a new member; then the uses go up by one |
| KnowledgeBase.DocsOf | kb_utils.py:28-42 | an array or object node gives its documents; an absent or malformed node gives none |
| KnowledgeBase.ScoreAll | kb_utils.py:123-130 | one score per document, in order, from the lower-cased content and query |
| KnowledgeBase.TopMatches | kb_utils.py:132-136 | exactly `min(top_k, len(docs))` results for a non-negative `top_k`, slice-style for a negative one, drawn from the documents with their own scores, best first |
| KnowledgeBase.TopMatchesKeepsBest | kb_utils.py:134-136 | the results are a sub-multiset of the scored documents, all of them when `top_k` allows, and no document left out scores higher than one reported |
| KnowledgeBase.DefaultSearchReportsThree | kb_utils.py:90 | with the default `top_k` a search reports the three best documents, or all when fewer |
| KnowledgeBase.TopMatchesScoresInUnit | kb_utils.py:123-136 | with a ratio in [0, 1] every reported score lies in [0, 1] |
| KnowledgeBase.ScoreDocs | kb_utils.py:123-130 | the scoring loop yields one scored entry per document, in order |
| KnowledgeBase.KnowledgeBaseCache.constructor | kb_utils.py:9 | an empty cache |
| KnowledgeBase.KnowledgeBaseCache.GetKbSize | kb_utils.py:149-155 | the number of cached documents, 0 for a community never loaded |
| KnowledgeBase.KnowledgeBaseCache.InitKb | kb_utils.py:15-47 | the community's cache becomes the fetched documents, or empty on a failed fetch |
| KnowledgeBase.KnowledgeBaseCache.AddToKb | kb_utils.py:48-89 | blank content changes nothing; otherwise exactly one document with the stripped content is appended, even if the push fails |
| KnowledgeBase.KnowledgeBaseCache.SearchKb | kb_utils.py:90-148 | the cache is refreshed from the fetch and the top matches are returned (see `TopMatchesKeepsBest`); a failed fetch returns nothing and keeps the cache |
| KnowledgeBase.SingleDocSearch | kb_utils.py:90-136 | searching a single document returns that document with its score |
| TemplateAssistant.GetTemplate | template_assistant.py:97-99 | a template exactly for the five library ids, and then that library entry |
| TemplateAssistant.SectionContents | template_assistant.py:325-334 | a field's section opens with its heading, followed by the value or "*Not filled*" |
| TemplateAssistant.SectionsAppend | template_assistant.py:325-334 | the sections of two field lists concatenate |
| TemplateAssistant.SectionsOnePerField | template_assistant.py:325-334 | field i's section appears in the export between the sections before and after it |
| TemplateAssistant.SectionsSeeOnlyFieldNames | template_assistant.py:323-334 | data under keys that are not field names never changes the export |
| TemplateAssistant.EmptyDataExportsNotFilled | template_assistant.py:331-334 | with no data every field reads "*Not filled*" |
| TemplateAssistant.MarkdownStartsWithTitle | template_assistant.py:317 | the export starts with the template's name as a level-1 heading |
| TemplateAssistant.StatusLineDefaultsToDraft | template_assistant.py:317-320 | the Markdown export contains the line `**Status:** DRAFT` for an instance without a status, and the upper-cased status otherwise |
| TemplateAssistant.ExportTemplateToMarkdown | template_assistant.py:306-336 | the loop's output is the header followed by one section per field, in order |
| TemplateAssistant.AppendSections | template_assistant.py:325-334 | the field loop appends exactly the sections of the fields |
| TemplateAssistant.FirstWithId | template_assistant.py:287-288 | the first position with the id, and none exactly when no instance has it |
| TemplateAssistant.Updated | template_assistant.py:289-296 | only the data and the update time change, plus the status when a non-empty one is given |
| TemplateAssistant.UpdatedIdempotent | template_assistant.py:289-296 | applying the same update twice equals applying it once |
| TemplateAssistant.TemplateStore.constructor | template_assistant.py:213-303 | an empty store |
| TemplateAssistant.TemplateStore.SaveTemplateInstance | template_assistant.py:213-251 | on success one instance with the new id is appended under the community and user; on failure nothing changes |
| TemplateAssistant.TemplateStore.GetUserTemplates | template_assistant.py:254-269 | exactly the user's instances (as a multiset), most recently updated first; [] on a failed read |
| TemplateAssistant.TemplateStore.UpdateTemplateInstance | template_assistant.py:272-303 | true exactly when some instance has the id; then only the first such instance is updated |
| Analytics.UsersBounded | analytics.py:107-123 | active users are users, and there are no more users than messages |
| Analytics.CollectUsers | analytics.py:110-120 | the loop collects exactly the named authors and the named recent authors |
| Analytics.GetCommunityStats | analytics.py:75-143 | the totals are correct, active ≤ users ≤ messages, and the average is messages per user; a failed read zeroes that total and the later ones |
| Analytics.TallyOf | analytics.py:168-196 | the counters list each counted user once, in first-seen order |
| Analytics.TallyOfSummarises | analytics.py:175-196 | the counters hold exactly the named, non-bot users with a recent message; for each, the number of recent messages, the number of those containing "?" or starting with what/how/why/when/where/who, and a `last_active` that is the latest timestamp among them |
| Analytics.Values | analytics.py:200 | the counters in first-seen order, each under its own username |
| Analytics.TopContributors | analytics.py:199-205 | exactly `min(limit, number of counted users)` contributors for a non-negative `limit`, by message count descending, none a bot or nameless, each with their exact recent message count, their exact question count and the latest timestamp of their recent messages as `last_active` |
| Analytics.TopContributorsDistinct | analytics.py:168-200 | no username appears twice among the counters |
| Analytics.TopContributorsKeepsBest | analytics.py:199-205 | the list is a sub-multiset of the counters, all of them when `limit` allows, and no counter left out has more messages than one listed |
| Analytics.TopContributorsNoUserTwice | analytics.py:199-205 | no user is listed twice |
| Analytics.TopContributorsListsTheMostActive | analytics.py:199-205 | a user with more counted messages than someone listed is listed too, and every user with a counted message is listed when `limit` allows |
| Analytics.TallyMessages | analytics.py:175-196 | the counting loop builds the per-user counters in first-seen order |
| Analytics.GetTopContributors | analytics.py:146-209 | the top contributors of the messages; [] on a failed read |
| Analytics.ActivityTypesCount | analytics.py:254-257 | each event type seen is counted exactly as often as it occurs ("unknown" for none) |
| Analytics.DailyUsersBounded | analytics.py:236-248 | no day has more active users than messages |
| Analytics.Sizes | analytics.py:260-262 | each day's set of users is replaced by its size |
| Analytics.CollectTrends | analytics.py:236-257 | the loops build exactly the per-day message counts, per-day user sets and per-type counts |
| Analytics.GetEngagementTrends | analytics.py:212-271 | per-day messages and active users, with active ≤ messages on every day, and events per type; empty on a failed read |
| Analytics.MessageCounts | analytics.py:341-353 | questions asked ≤ recent messages sent ≤ messages |
| Analytics.KbContributions | analytics.py:359-362 | contributions number at most the entries |
| Analytics.OpportunitiesPosted | analytics.py:368-371 | postings number at most the opportunities |
| Analytics.QuestionMarkIsQuestion | analytics.py:190-192 | a message the score counts as a question is one the ranking counts as a question too |
| Analytics.MoreMessagesNeverLowerScore | analytics.py:341-379 | one more recent message raises the user's score |
| Analytics.CountMessages | analytics.py:341-353 | the message loop counts the user's recent messages and those holding "?" |
| Analytics.CountContributions | analytics.py:359-371 | the loops count the user's entries and postings |
| Analytics.GetUserEngagementScore | analytics.py:313-386 | score = messages + 2·questions + 5·entries + 3·postings, with questions ≤ messages; a failed read keeps the counts so far and leaves the score at 0 |
| AuthManager.Permissions | auth_manager.py:321-328 | an unknown role has no permissions; the admin has exactly its six |
| AuthManager.PermissionLadder | auth_manager.py:322-326 | member ⊂ moderator; moderator without delete_own ⊂ admin; the admin lacks delete_own |
| AuthManager.OrganisationTableWithinApiTable | auth_manager.py:322-326 | every action the organisation table allows a role, this table allows it too |
| AuthManager.CheckOrgPermission | auth_manager.py:310-332 | granted only on a successful lookup of a non-empty record whose role carries the permission |
| AuthManager.EmptyRecordDenied | auth_manager.py:316-317 | an empty record denies everything |
| AuthManager.RolelessRecordIsMember | auth_manager.py:319-328 | a record without a role grants exactly read, write and delete_own |
| AuthManager.OnlyAdminsManage | auth_manager.py:322-328 | delete, admin and manage_members are granted only to the admin role |
| AuthManager.VerifyOrgAccess | auth_manager.py:335-341 | 403 with the permission named exactly when the check denies |
| AuthManager.RolelessRecordMayRead | auth_manager.py:335 | the default "read" access passes for a roleless record |
| AuthManager.UserRoles | auth_manager.py:276-280 | exactly the roles the user holds in some organisation, "member" for a record without one |
| AuthManager.RoleChecker.constructor | auth_manager.py:265-266 | the checker keeps the allowed roles |
| AuthManager.RoleChecker.Call | auth_manager.py:268-294 | admitted exactly when a held role is allowed; 403 naming the roles otherwise; 500 on a failed lookup |
| AuthManager.CollectRoles | auth_manager.py:276-280 | the loop collects exactly the user's roles across organisations |
| AuthManager.ModeratorCheckerAdmits | auth_manager.py:304 | the moderator checker admits exactly admins and moderators |
| AuthManager.CheckersNested | auth_manager.py:303-305 | whom the admin checker admits, the moderator checker admits, and then the member checker |
| AuthManager.AdminCheckerImpliesAdminPermission | auth_manager.py:276-328 | a user the admin checker admits holds the "admin" permission in some organisation |
| AuthManager.EmptyRecordCheckersDisagree | auth_manager.py:278-317 | on an empty record the member checker admits while the permission check denies |

## Left out

- Printing, logging and the database client: reads and writes are state
  changes on the store classes or inputs to functions.
- Whole-operation failures are a flag or a `Failed` value; partial failure
  between two writes of one operation is not modelled.
  - In `AddMemberToOrganization`, the members list can be written while the
    role record is not.
- Unicode case mapping and whitespace: lower-casing, upper-casing and
  stripping are ASCII.
- `SequenceMatcher.ratio` is the parameter `ratio`, bounded to [0, 1] where a
  property needs it.
- Floating point: scores are exact reals and counts are integers.
  - `round(score, 3)` in match_opportunities is not modelled.
  - PersonalizedOpportunities.PreJitterScore: the truncated percentage is
    exact, and can be one more than the source's float result at a whole
    percentage. For example, 7 of 10 tags (35), 3 of 5 skills (15), no
    interests (0 of 15) and 7 tags found in the bio (7) score 57 of 100;
    the source computes `int(57.0 / 100 * 100)`, which is
    `int(56.99999999999999)`, so 56, where the model gives 57.
  - The two-decimal `round` of the messages-per-user average is not modelled.
- Timestamps are integer instants, and recency is `timestamp >= cutoff`.
  - ISO-8601 text, local time zones, `fromtimestamp`, `isoformat` and
    `strftime` are parameters or integers.
  - The urgency lines' formatted dates are left out.
- Generated values are parameters: uuids, push keys, invite codes and
  `secrets.token_urlsafe`.
- Python dict iteration order is modelled as the order of a sequence, which
  stands for the push-key order.
  - `GetUserOrganizations` returns the organisations in no particular order.
- Fields of unexpected types are not modelled: a non-string content or
  username, or a non-list tags field.
  - The one exception is a non-numeric timestamp, which is modelled.
- Field values in a template export are strings; other value types are not
  modelled.
- Left out because they are AI calls, UI, or copies of stored values:
  - `get_available_templates`, `export_template_to_json`, and the field
    suggestions (`generate_field_suggestion`, an external AI call);
  - `verify_data_access`, `track_engagement`, `track_content_view`,
    `get_content_reach` and `generate_analytics_report`;
  - password hashing, JWT tokens, sessions and `get_current_user`.
- The metadata dictionaries of knowledge-base documents are left out.
  - The engagement score reads only `metadata.added_by`, which is modelled
    as `KbEntry.addedBy`.
- The `metadata` arguments of `add_opportunity` and `update_user_profile`
  are left out of `Opportunity` and `Profile`: they are stored as given and
  nothing in the matcher or the rest of the core reads them.
- Analytics.GetEngagementTrends: when the engagement read fails, the source
  skips the final conversion and returns each day's active users as a set of
  names. The model reports their sizes.
- Analytics.GetCommunityStats: `avgMessagesPerUser` is the exact quotient,
  not the value rounded to two decimals.
- AuthManager.RoleChecker.Call: the current user is given by name.
  - Token decoding and the active-user check happen before the call and are
    left out.
  - The role list in the 403 detail is formatted for plain role names only.
- PersonalizedOpportunities: the code truncates the percentage with `int`,
  where rounding might be expected, and the model follows the code.
  - Two of three tags give 66 (`TwoOfThreeTagsScoreSixtySix`).
  - A user tag listed twice is counted twice, so the pre-jitter score can
    exceed 100 (`RepeatedTagExceedsHundred`). Only the final clamp bounds it.
  - The catalog is a parameter of `GetPersonalizedOpportunities` and
    `GetOpportunityStats`; the source always uses its built-in catalog,
    `OpportunityDatabase`, whose 58 entries all fit in the top 200
    (`DatabaseFullyCounted`).

## Findings

| source | as written | input that shows it | evidently intended | confidence | as-written member | corrected member |
|---|---|---|---|---|---|---|
| multi_tenant.py:39-76 | `create_organization` puts the admin in `members` but writes no `organization_members` record, so `get_member_role` finds none and `check_permission` denies every action, "admin" and "delete" included | create "Acme" with admin "alice" in an empty store, then check "read" for "alice" in "acme": denied | the creating admin holds the admin role and may take every admin action | not executed | MultiTenant.TenantStore.CreateOrganization, MultiTenant.NewOrganizationLocksOutAdmin | MultiTenant.TenantStore.CreateOrganizationWithAdminRole, MultiTenant.NewOrganizationWithRecordAdmitsAdmin |
