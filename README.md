# vbdb2 data composables, modelled in Dafny

This project models the pure data-processing core of the vbdb2 college volleyball site. That core lives in the Nuxt composables `useLive`, `useResults`, `useSchedule`, `useTeams`, `useNews` and `useVolleyballSeo`. The project models:

- the live-match status classifier;
- the staged conjunctive filters over the live, results and schedule feeds;
- the single-key accessors;
- the sorted, duplicate-free conference and division catalogues;
- the label and logo lookup tables of the news feed;
- the page-metadata templates.

Each composable holds a fetched `Ref<T[] | null>`. Here that is an `Option<seq<T>>` argument of every accessor, and `None` gives `[]`.

Modules:

- `Wrappers`: `Option`, and JavaScript truthiness of `string | null` (`Truthy`: present and not `""`).
- `Filtering`: `Array.prototype.filter` as `Filter`, with its independent specification `Keeps`. `Keeps` means the result is an in-order subsequence and every element kept occurs exactly as often as in the input. It also holds `Map` and the "filter only when the list is non-empty" stage `Stage`. Its generic lemmas cover identity, idempotence, fusion of two filters into one and commutation.
- `Live`: `LiveMatch` and `getMatchStatus`. `getMatchStatus` is an imperative loop over sets 1 to 5, proved against the counting function `TallyOf`. The module also holds `filterMatches`.
- `LiveExamples`: three concrete matches worked through the status rules.
- `Results`, `Schedule`: `filterResults`, `getResultsByDate` and `getResultsByTeam`; `filterSchedule`, `getScheduleByDate` and `getScheduleByTeam`.
- `Ordering`: lexicographic string order, insertion sort and deduplication, that is `[...new Set(xs)].sort()`.
- `Teams`, `News`, `Seo`: the remaining accessors and tables.

Each staged filter is proved equal to a single `Filter` by the conjunction of its stages (`…IsOneFilter`). Order preservation, exact membership, identity and idempotence then follow from the generic lemmas for all three filters. For `filterResults`, a lemma also proves that its stages may run in the opposite order.

A parsed set score is `Num(n)` or `NaN`. `getMatchStatus` applies `parseInt` to a score that is present. A `NaN` score still counts its set as played, but neither team wins that set. The model follows that code. It does not raise a malformed-score error.

## Model

| member | source | states |
|---|---|---|
| Filtering.Filter | app/composables/useLive.ts:87-91 | `m in result` iff `m` is in the input and passes the test, and the result `Keeps` the input: an in-order subsequence with each kept element's multiplicity unchanged |
| Filtering.Map | app/composables/useTeams.ts:46 | same length as the input, `r[i] == f(s[i])`, and `y in r` iff some input element maps to `y` |
| Filtering.Stage | app/composables/useLive.ts:86-92 | an empty criterion list leaves the list as it is; otherwise the stage `Keeps` exactly the elements that pass the test, in order and with their multiplicities |
| Filtering.FilterKeepsAll | app/composables/useLive.ts:84-114 | a filter whose test holds for every element returns its input unchanged |
| Filtering.FilterExtensional | app/composables/useLive.ts:109-112 | filters by two tests that agree on every element of the list give the same list |
| Filtering.FilterIdempotent | app/composables/useResults.ts:73-98 | filtering a filtered list again by the same test changes nothing |
| Filtering.FilterFuse | app/composables/useResults.ts:73-96 | filtering by `p` and then by `q` is one filter by `p && q` |
| Filtering.FilterCommute | app/composables/useResults.ts:75-96 | two filters applied in either order give the same list |
| Filtering.StageIsFilter | app/composables/useResults.ts:75-81 | a stage is one filter by "the list is empty, or the test holds" |
| Live.GetMatchStatus | app/composables/useLive.ts:51-74 | the loop over sets 1 to 5 returns `StatusOf(m)`, and returns `Upcoming` exactly when no set has both scores present |
| Live.PlayedSetCounts | app/composables/useLive.ts:62-63 | a set with both scores present among the first `i` raises the played count to at least 1 |
| Live.NoSetPlayedMeansZeroPlayed | app/composables/useLive.ts:62-63 | when no set among the first `i` has both scores, the played count is 0; the win counts then are 0 too, by `TallyBounds` |
| Live.TallyBounds | app/composables/useLive.ts:62-68 | after `i` sets, `team1Wins + team2Wins <= setsPlayed <= i` |
| Live.NeverTwoWinners | app/composables/useLive.ts:58-72 | over five sets, the two teams cannot both reach 3 set wins |
| Live.StatusMeaning | app/composables/useLive.ts:71-73 | `Upcoming` iff no set is played; `Completed` iff either team has at least 3 wins, which takes at least 3 played sets; `Live` iff at least one set is played and both teams have at most 2 wins |
| Live.TallyPointwise | app/composables/useLive.ts:58-69 | the counters depend only on what each set adds to them |
| Live.ReplaceSetKeepsStatus | app/composables/useLive.ts:58-73 | replacing a set by one that adds the same to the counters leaves the status unchanged |
| Live.HalfFilledSetIgnored | app/composables/useLive.ts:62 | a set with one score missing is ignored: the status is the one the match would have with that set absent |
| Live.NaNSetCountsAsTie | app/composables/useLive.ts:63-67 | a played set with a NaN score adds one played set and no win, exactly like a 0-0 set |
| Live.TallyOfFive | app/composables/useLive.ts:58-69 | the counters are the sum, over sets 1 to 5 in order, of what each set adds |
| Live.FilterMatches | app/composables/useLive.ts:76-115 | no data gives `[]`; otherwise a match is in the result iff it is loaded and passes every non-empty list on either team side and its status flag is set |
| Live.FilterMatchesIsOneFilter | app/composables/useLive.ts:84-114 | the three guarded stages and the status stage together are one filter by `Accepts` |
| Live.FilterMatchesKeeps | app/composables/useLive.ts:82-114 | no data gives `[]`; otherwise the result is the in-order subsequence of accepted matches, each with its multiplicity |
| Live.FilterMatchesIdentity | app/composables/useLive.ts:84-114 | with all three lists empty and all status flags true, the result is the loaded list |
| Live.FilterMatchesIdempotent | app/composables/useLive.ts:84-114 | filtering the result again with the same arguments returns it unchanged |
| LiveExamples.CompletedExample | app/composables/useLive.ts:58-72 | sets 25-20, 23-25, 25-18, 22-25, 15-10 give 5 sets played and 3-2 wins, so the status is `Completed` |
| LiveExamples.LiveExample | app/composables/useLive.ts:58-73 | sets 25-20 and 20-25, with the rest unplayed, give 2 played and 1-1 wins, so the status is `Live` |
| LiveExamples.UpcomingExample | app/composables/useLive.ts:58-71 | a match with no scores has counters 0, 0, 0 and the status is `Upcoming` |
| Results.FilterResults | app/composables/useResults.ts:66-99 | no data gives `[]`; otherwise a match is in the result iff it is loaded and passes every non-empty list on either team side |
| Results.FilterResultsIsOneFilter | app/composables/useResults.ts:73-98 | the three guarded stages together are one filter by `Accepts` |
| Results.FilterResultsKeeps | app/composables/useResults.ts:71-98 | no data gives `[]`; otherwise an in-order subsequence of the accepted matches, each with its multiplicity |
| Results.FilterResultsIdentity | app/composables/useResults.ts:75-98 | all three lists empty returns the loaded list unchanged |
| Results.FilterResultsIdempotent | app/composables/useResults.ts:75-96 | filtering the result again with the same lists returns it unchanged |
| Results.FilterResultsStagesCommute | app/composables/useResults.ts:75-96 | applying the stages in the order team, conference, division gives the same result |
| Results.GetResultsByDate | app/composables/useResults.ts:101-104 | no data gives `[]`; otherwise exactly the matches whose date equals the argument, in order |
| Results.GetResultsByTeam | app/composables/useResults.ts:106-111 | no data gives `[]`; otherwise exactly the matches with the id on either side, in order |
| Schedule.FilterSchedule | app/composables/useSchedule.ts:52-86 | no data gives `[]`; otherwise a match is in the result iff it passes every non-empty list on a side whose field is truthy |
| Schedule.FilterScheduleIsOneFilter | app/composables/useSchedule.ts:59-85 | the three guarded stages together are one filter by `Accepts` |
| Schedule.FilterScheduleKeeps | app/composables/useSchedule.ts:57-85 | no data gives `[]`; otherwise an in-order subsequence of the accepted matches, each with its multiplicity |
| Schedule.FilterScheduleIdentity | app/composables/useSchedule.ts:61-85 | all three lists empty returns the loaded list unchanged |
| Schedule.FilterScheduleIdempotent | app/composables/useSchedule.ts:61-83 | filtering the result again with the same lists returns it unchanged |
| Schedule.FalsyDivisionsNeverMatch | app/composables/useSchedule.ts:61-66 | a match whose two division fields are `null` or `""` is dropped by any non-empty division list, even one containing `""` |
| Schedule.GetScheduleByDate | app/composables/useSchedule.ts:88-91 | no data gives `[]`; otherwise exactly the matches whose date starts with the argument, in order |
| Schedule.EmptyDateKeepsAll | app/composables/useSchedule.ts:90 | the empty prefix keeps the whole schedule |
| Schedule.GetScheduleByTeam | app/composables/useSchedule.ts:93-98 | no data gives `[]`; otherwise exactly the matches with the id on a side whose id is not `null`, in order |
| Ordering.StrLtIrreflexive | app/composables/useTeams.ts:47 | no string sorts before itself |
| Ordering.StrLtTransitive | app/composables/useTeams.ts:47 | the sort order is transitive |
| Ordering.StrLtTotal | app/composables/useTeams.ts:47 | any two different strings are ordered one way or the other |
| Ordering.Insert | app/composables/useTeams.ts:47 | inserting into a sorted list gives a sorted list with the same elements plus the new one |
| Ordering.Sort | app/composables/useTeams.ts:47 | the result is sorted and a permutation of the input |
| Ordering.Distinct | app/composables/useTeams.ts:46 | the result has no duplicates and the same members as the input |
| Ordering.SortedDistinct | app/composables/useTeams.ts:46-47 | the result is strictly ascending and has the same members as the input |
| Ordering.StrictlySortedUnique | app/composables/useTeams.ts:46-47 | two strictly ascending lists with the same members are equal |
| Teams.GetConferencesByDivision | app/composables/useTeams.ts:39-48 | no data gives `[]`; otherwise strictly ascending, and `c` is in it iff some team has conference `c` and, when the division is truthy, that division |
| Teams.GetAllConferences | app/composables/useTeams.ts:50-54 | no data gives `[]`; otherwise strictly ascending, with exactly the conferences of the teams |
| Teams.GetDivisions | app/composables/useTeams.ts:56-60 | no data gives `[]`; otherwise strictly ascending, with exactly the divisions of the teams |
| Teams.NoDivisionMeansAllConferences | app/composables/useTeams.ts:42-54 | a `null` or `""` division gives exactly the list of `getAllConferences` |
| Teams.GetTeamsByConference | app/composables/useTeams.ts:62-65 | no data gives `[]`; otherwise exactly the teams of the conference, in order |
| Teams.GetTeamsByDivision | app/composables/useTeams.ts:67-70 | no data gives `[]`; otherwise exactly the teams of the division, in order |
| News.GetNewsByDivision | app/composables/useNews.ts:39-42 | no data gives `[]`; otherwise exactly the articles of the division, in order |
| News.GetDivisionLabel | app/composables/useNews.ts:44-54 | a key of the table gives its label, any other key gives itself, and the result is empty only for the empty key |
| News.KnownDivisionLabels | app/composables/useNews.ts:45-52 | the six keys `1`, `2`, `3`, `naia`, `njcaa` and `3c2asports` give their labels |
| News.GetDivisionLogo | app/composables/useNews.ts:56-86 | a known key gives its table entry, with width 120 and a non-empty address; an unknown key gives `{url: "", width: 40}`; the width is 120 exactly for the six label keys |
| Seo.Join | app/composables/useSeo.ts:73 | `xs.join(sep)`: the empty list joins to `""` and a single element joins to itself; `JoinCons` and `JoinAppend` state how longer lists join |
| Seo.FlattenMembers | app/composables/useSeo.ts:78 | `.flat()` holds exactly the keywords of the lists, and is at least as long as each of them |
| Seo.JoinAppend | app/composables/useSeo.ts:73 | joining two non-empty lists back to back puts one separator between their joins |
| Seo.JoinCons | app/composables/useSeo.ts:73 | a join of several elements is the first element, the separator, then the join of the rest |
| Seo.JoinFive | app/composables/useSeo.ts:108 | five keywords joined by `", "` are the five strings with `", "` between them |
| Seo.JoinSix | app/composables/useSeo.ts:100 | six keywords joined by `", "` are the six strings with `", "` between them |
| Seo.JoinEach | app/composables/useSeo.ts:78 | one joined string per list, in order |
| Seo.JoinFlatten | app/composables/useSeo.ts:78-91 | when no list is empty, joining the flattened lists equals joining the joined lists |
| Seo.Lookup | app/composables/useSeo.ts:69 | the lookup fails exactly when no entry has the key |
| Seo.LookupFindsEntry | app/composables/useSeo.ts:69 | in a table whose keys do not repeat, each key finds its own list |
| Seo.Values | app/composables/useSeo.ts:78 | the lists of the table, in table order |
| Seo.VolleyballSeo.KeywordsFor | app/composables/useSeo.ts:69 | a division not in the table has no keywords |
| Seo.VolleyballSeo.GetDivisionSeo | app/composables/useSeo.ts:68-75 | the title is always the division followed by ` Volleyball - Scores, Schedule & Teams` |
| Seo.VolleyballSeo.DivisionSeoKnown | app/composables/useSeo.ts:69-73 | for a division in the table, the keywords are its list joined, `", "`, then the base keywords joined, and the description names its first keyword |
| Seo.VolleyballSeo.DivisionSeoUnknown | app/composables/useSeo.ts:69-73 | for a division not in the table, the keywords are the base keywords joined and the description ends in `college volleyball.` |
| Seo.VolleyballSeo.GetHomeSeo | app/composables/useSeo.ts:77-93 | the keywords are each division's list joined, in table order, then the base keywords, then the news keywords |
| Seo.HomeKeywordsSegments | app/composables/useSeo.ts:78-91 | the flattened division lists plus base and news keywords join to the same string as their joined segments |
| Seo.VolleyballSeo.GetConferenceSeo | app/composables/useSeo.ts:95-102 | with no division or `""`, neither title nor description holds division text; a truthy division appears in the title after the conference |
| Seo.VolleyballSeo.ConferenceSeoKeywords | app/composables/useSeo.ts:100 | the keywords are the six conference keywords joined by `", "` |
| Seo.VolleyballSeo.GetTeamSeo | app/composables/useSeo.ts:104-110 | the keywords are team name, its two volleyball phrases, division and conference joined by `", "`; all three texts start with the team name |
| Seo.SourceSeoValid | app/composables/useSeo.ts:2-66 | the source's tables meet `Valid`: distinct keys, non-empty lists with a non-empty first keyword, and non-empty base keywords |

## Left out

- Fetching: `useFetch`, `fetchLiveMatches`, `fetchResults`, `fetchSchedule`, `fetchNews`, `fetchTeams`, `refresh`, the `status` refs, `getCachedData`, `dedupe`, `watch` and `readonly`. This is asynchronous I/O and Nuxt caching; the fetched list is an argument instead.
- `console.error` on a failed fetch: I/O.
- The string rules of `parseInt`. A present score is stored already parsed, as `Num(n)` or `NaN`.
- `ResultMatch` scores are never classified in the source; they are carried as optional integers and nothing more.
- Prototype keys of JavaScript objects (`labels["toString"]`, `divisionKeywords["constructor"]`). Lookups consider only the tables' own keys.
- Ordering.StrLt: compares characters, not UTF-16 code units. The two orders differ only for characters outside the Basic Multilingual Plane.
- Seo.VolleyballSeo.GetDivisionSeo, GetHomeSeo: the keyword facts hold for any tables that meet `Valid`. `SourceSeoValid` states that the source's own tables do. No lemma expands the source's literal strings character by character.
- Logo and API addresses are kept only as constants; nothing is requested from them.
- `nuxt.config.ts` and `vuetify.config.ts` are framework and theme configuration, and they are not part of this model.
