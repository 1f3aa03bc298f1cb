# commentflow in Dafny

commentflow finds Reddit posts that match a brand's keywords, drafts a reply
to each with an AI model, lets the owner review the drafts on a dashboard,
and hands approved replies to a browser extension that posts them and
reports back. This project models the bookkeeping around that pipeline.

- **Tables.** The four tables (users, campaigns, discovered posts,
  comments) with their defaults, UNIQUE constraints and cascading deletes.
- **Server routes.** Each route that reads or writes those tables: the
  discovery and generation cron jobs, the extension's queue, report and
  token routes, registration, and the dashboard's stats, posts and comments
  lists.
- **Support code.** The fixed-window rate limiter and the relevance score.
- **Dashboard pages.** The campaign form and the campaigns, posts and
  comments pages.
- **Extension.** The background worker's counters and poll gate, and the
  popup.

Record kinds are datatypes and statuses are enumerations. Each route that
writes is a method on a `Database.Store` (the tables plus a counter for
fresh ids). The routes that only read (the dashboard's stats, posts and
comments lists and the extension's token lookup) are pure functions of the
tables. Most writing routes are proved equal to a pure function, and
properties are proved about that function: ownership, uniqueness, legal status steps, "every
other row is unchanged", and counts and bounds. The discovery route is the
exception. Its single upsert is given exactly. For the whole run, two
things are proved: every row it writes comes from a qualifying hit, and
every qualifying hit ends up with a row.

The rate limiter's map, the pages' state and the extension's storage are
classes whose methods update fields in place. Each such method's `ensures`
gives the new state as a function of the old one.

The clock, the network answers, the AI model, the search results, bcrypt,
the email validator and the user's confirm answer are all parameters.

Modules, one per file:

| module | source |
|---|---|
| `Schema`, `Database` | `src/lib/db/schema.ts` |
| `RateLimit` | `src/lib/rate-limit.ts` |
| `Discovery` | `calculateRelevance` in `src/lib/reddit/discovery.ts` |
| `CronAuth` | the Bearer check shared by the two cron routes |
| `DiscoverRoute`, `GenerateRoute` | the cron routes |
| `QueueRoute`, `ReportRoute`, `ExtensionAuthRoute` | the extension's routes |
| `RegisterRoute`, `StatsRoute`, `PostsRoute`, `CommentsRoute` | the other API routes |
| `CampaignForm`, `CampaignsPage`, `PostsPage`, `CommentsPage` | the dashboard |
| `Background`, `Popup` | the extension |
| `Wrappers`, `Seqs`, `Strings`, `Json` | `Option`; filter/sort/limit; `trim`/`split`/`join`; JSON bodies |

## Model

| member | source | states |
|---|---|---|
| Schema.CampaignWithDefaults | src/lib/db/schema.ts:13-26 | a campaign inserted without them gets tone "helpful", 5 comments per day, no auto-approve and status active, and keeps the given id, owner and lists |
| Schema.PostWithDefaults | src/lib/db/schema.ts:28-40 | a post inserted without them gets body "", relevance 0 and status new, and keeps its id, campaign and platform post id |
| Schema.CommentWithDefaults | src/lib/db/schema.ts:45-55 | a comment inserted without them is pending review with no postedAt and no platformUrl, and keeps its ids, text and creation time |
| Schema.FindCampaign | src/app/api/cron/generate/route.ts:39 | a campaign found is one of the table's and has the id |
| Schema.FindCampaignMisses | src/app/api/cron/generate/route.ts:39-40 | the lookup comes back empty exactly when no campaign has the id |
| Schema.PostIndex | src/app/api/cron/generate/route.ts:79-82 | the row found for an id is a row of the table with that id |
| Schema.PostIndexMisses | src/app/api/cron/generate/route.ts:79-82 | no row is found exactly when the id is not among the posts' ids |
| Schema.CampaignBrand | src/app/api/posts/route.ts:34 | the brand of a campaign with that id, or "" when there is none |
| Schema.CampaignIdsOf | src/lib/db/schema.ts:15 | exactly the ids of the user's campaigns; empty iff the user owns none |
| Schema.UserByToken | src/lib/db/schema.ts:8 | finds a user holding the token exactly when one exists |
| Schema.UserByEmail | src/lib/db/schema.ts:5 | finds a user with the email exactly when one exists |
| Schema.IdText | src/lib/db/schema.ts:4 | an id's text is a non-empty string of digits |
| Schema.IdTextInjective | src/lib/db/schema.ts:4 | different ids have different texts, so a text names at most one row |
| Schema.UpdatePostKeepsWellFormed | src/lib/db/schema.ts:41-43 | rewriting a post that keeps its id, campaign and platform post id keeps every constraint |
| Schema.InsertPostKeepsWellFormed | src/lib/db/schema.ts:41-43 | inserting a post whose (campaignId, platformPostId) is unused keeps every constraint |
| Schema.UpdateCommentKeepsWellFormed | src/lib/db/schema.ts:46-49 | rewriting a comment that keeps its id and parents keeps every constraint |
| Schema.InsertCommentKeepsWellFormed | src/lib/db/schema.ts:46-49 | inserting a comment with a fresh id keeps every constraint |
| Schema.UpdateCommentsKeepsWellFormed | src/lib/db/schema.ts:46-49 | a multi-row comment update that keeps ids and parents keeps every constraint |
| Schema.InsertUserKeepsWellFormed | src/lib/db/schema.ts:5 | inserting a user with an unused email keeps every constraint |
| Schema.SetTokenKeepsWellFormed | src/lib/db/schema.ts:8 | giving a user a token no other user holds keeps every constraint |
| Schema.CascadeKeepsWellFormed | src/lib/db/schema.ts:47-49 | deleting users, campaigns or posts removes every row that references them, so no row points to a missing parent and all constraints hold |
| Schema.CascadeKeepsTheRest | src/lib/db/schema.ts:47-49 | nothing else is deleted: a row survives exactly when it is not named and every row it references survives |
| Schema.CascadeKeepsCampaigns | src/lib/db/schema.ts:15 | a campaign survives iff it is not named and its user survives |
| Schema.CascadeKeepsPosts | src/lib/db/schema.ts:29 | a post survives iff it is not named and its campaign survives |
| Schema.CascadeKeepsComments | src/lib/db/schema.ts:47-49 | a comment survives iff its user, campaign and post all survive |
| Schema.Cascade | src/lib/db/schema.ts:15-49 | deleting users, campaigns or posts removes exactly the named users; every remaining campaign or post was there before and is not named; no remaining campaign or comment belongs to a deleted user |
| Schema.EmptyIsWellFormed | src/lib/db/schema.ts:3-56 | the empty database meets every constraint: ids and emails unique, tokens unique, one post per (campaignId, platformPostId), every reference pointing to an existing row |
| Database.Store.constructor | src/lib/db/schema.ts:3-56 | the database starts with four empty tables |
| Database.Store.NewId | src/lib/db/schema.ts:4 | hands out an id that no row uses and changes no table |
| Database.Store.InsertPost | src/lib/db/schema.ts:41-43 | appends the post, keeping every constraint |
| Database.Store.UpdatePost | src/lib/db/schema.ts:41-43 | replaces one post in place, keeping every constraint |
| Database.Store.InsertComment | src/lib/db/schema.ts:46-49 | appends the comment, keeping every constraint |
| Database.Store.UpdateComment | src/lib/db/schema.ts:46-49 | replaces one comment in place, keeping every constraint |
| Database.Store.InsertUser | src/lib/db/schema.ts:5 | appends the user, keeping every constraint |
| Database.Store.UpdateUser | src/lib/db/schema.ts:8 | replaces one user in place, keeping every constraint |
| Database.Store.UpdateCommentsWhere | src/lib/db/schema.ts:46-49 | rewrites exactly the selected comments, keeping every constraint |
| RateLimit.StepOpensWindow | src/lib/rate-limit.ts:19-21 | an absent or expired entry becomes count 1 expiring at now + window, with success and remaining limit - 1 |
| RateLimit.StepAtResetIsInside | src/lib/rate-limit.ts:19-29 | at exactly resetAt the window is still open: at the limit the call fails and nothing changes, below it the count rises by one |
| RateLimit.StepOnlyTouchesKey | src/lib/rate-limit.ts:17-29 | only the key's entry is created or changed; a refusal changes nothing and reports 0 remaining; a success reports limit minus the new count |
| RateLimit.StepKeepsBounded | src/lib/rate-limit.ts:19-29 | for limit >= 1 no count ever exceeds the limit and remaining is never negative |
| RateLimit.Step | src/lib/rate-limit.ts:11-30 | after a call the key always has an entry, and the call succeeds iff the key had no entry, its window had expired, or its count was below the limit |
| RateLimit.Run | src/lib/rate-limit.ts:11-30 | a sequence of calls gives one verdict per call |
| RateLimit.SuccessesInsideWindow | src/lib/rate-limit.ts:24-29 | within an open window a key gets at most limit - count more successes |
| RateLimit.AtMostLimitPerWindow | src/lib/rate-limit.ts:19-29 | a key gets at most `limit` successes in the window that a call opens |
| RateLimit.Swept | src/lib/rate-limit.ts:4-9 | the sweep keeps exactly the entries with now <= resetAt, unchanged |
| RateLimit.SweptSameLive | src/lib/rate-limit.ts:6-7 | the swept map agrees with the original on every live entry |
| RateLimit.StepSameLive | src/lib/rate-limit.ts:19 | two maps that agree on live entries give the same verdict and still agree afterwards |
| RateLimit.RunSameLive | src/lib/rate-limit.ts:19-29 | two such maps give the same verdicts for every later sequence of calls |
| RateLimit.SweepIsUnobservable | src/lib/rate-limit.ts:4-19 | no later `rateLimit` verdict changes because of a sweep |
| RateLimit.RateLimiter.constructor | src/lib/rate-limit.ts:1 | the map starts empty |
| RateLimit.RateLimiter.RateLimit | src/lib/rate-limit.ts:11-30 | the verdict and the new map are those of one step |
| RateLimit.RateLimiter.Sweep | src/lib/rate-limit.ts:4-9 | the new map is the swept map |
| RateLimit.ClientIp | src/lib/rate-limit.ts:32-36 | "unknown" for an absent or empty header; otherwise a text without commas |
| RateLimit.ClientIpBeforeComma | src/lib/rate-limit.ts:34 | the trimmed text before the first comma |
| RateLimit.ClientIpSingle | src/lib/rate-limit.ts:34 | a header without a comma gives its trimmed text |
| Discovery.KeywordPoints | src/lib/reddit/discovery.ts:86-89 | one keyword is worth at most 4 points |
| Discovery.KeywordsPoints | src/lib/reddit/discovery.ts:85-90 | k keywords are worth at most 4k points |
| Discovery.KeywordsPointsConcat | src/lib/reddit/discovery.ts:85-90 | the keyword points of a concatenated list are the sum of the parts' points |
| Discovery.HasIntent | src/lib/reddit/discovery.ts:93-101 | intent iff the title holds "?" or the lower-cased title and selftext hold one of the six phrases |
| Discovery.AnyIntentPhrase | src/lib/reddit/discovery.ts:94-100 | "holds one of the six phrases" is the same as the six `includes` tests joined by `||` |
| Discovery.Bonus | src/lib/reddit/discovery.ts:93-107 | the bonus is at most 4, at least 2 with intent and at most 2 without, and is odd iff exactly one strict engagement test passes |
| Discovery.MaxPossible | src/lib/reddit/discovery.ts:110 | the denominator 4k + 4 is at least 4, so there is no division by zero |
| Discovery.Points | src/lib/reddit/discovery.ts:83-107 | the points are at least the keyword points and never exceed the denominator |
| Discovery.Relevance | src/lib/reddit/discovery.ts:109-111 | the score lies in [0, 1] and is 0 exactly when no point was earned |
| Discovery.RelevanceInUnitInterval | src/lib/reddit/discovery.ts:85-111 | the points never exceed the denominator, so the score lies in [0, 1] and the clamp never applies |
| Discovery.BelowThresholdIff | src/lib/reddit/discovery.ts:110-111 | the score is below 0.1 iff 10 × points < 4k + 4 |
| Discovery.NoKeywordsScoresBonusOnly | src/lib/reddit/discovery.ts:110-111 | with no keywords the score is the bonus out of 4 |
| Discovery.CalculateRelevance | src/lib/reddit/discovery.ts:78-112 | the loop computes the score function, which lies in [0, 1] |
| CronAuth.ExpectedBearer | src/app/api/cron/discover/route.ts:11 | the expected header starts with "Bearer " |
| CronAuth.CronAuthorized | src/app/api/cron/discover/route.ts:8-14 | outside production every request passes; in production a missing header is refused and a passing header starts with "Bearer " |
| CronAuth.CronAuthorizedInProduction | src/app/api/cron/discover/route.ts:8-14 | in production a missing header is refused, and a header passes iff it is "Bearer " + secret (or "Bearer undefined" when the secret is unset) |
| DiscoverRoute.NewRow | src/app/api/cron/discover/route.ts:55-67 | a new row is on reddit with status new, the first 2000 characters of the selftext and the www.reddit.com url |
| DiscoverRoute.FindPost | src/app/api/cron/discover/route.ts:38-47 | finds the row with that (campaignId, platformPostId) exactly when there is one |
| DiscoverRoute.Upserted | src/app/api/cron/discover/route.ts:37-68 | after the upsert the hit's key has a row; the table grows by one row exactly when no row had the key |
| DiscoverRoute.UpsertedEvolves | src/app/api/cron/discover/route.ts:37-68 | an upsert of a found hit only rescores an existing row or appends the hit's new row |
| DiscoverRoute.Upsert | src/app/api/cron/discover/route.ts:37-68 | keeps the constraints; the row with the hit's (campaignId, platformPostId) gets the new score and updatedAt, otherwise NewRow with the next id is appended; nothing else changes |
| DiscoverRoute.EvolvedKeepsStored | src/app/api/cron/discover/route.ts:37-68 | a run never removes a row or changes its key, so a stored key stays stored |
| DiscoverRoute.FoundIsStored | src/app/api/cron/discover/route.ts:24-79 | once every search of the active campaigns is done, every qualifying hit has a row |
| DiscoverRoute.EvolvedTrans | src/app/api/cron/discover/route.ts:24-79 | the effects of successive upserts compose |
| DiscoverRoute.EvolvedEffects | src/app/api/cron/discover/route.ts:34-68 | new rows are new reddit posts scoring >= 0.1 for an active campaign with subreddits and keywords; old rows are unchanged or only rescored at >= 0.1 |
| DiscoverRoute.Qualifying | src/app/api/cron/discover/route.ts:33-35 | at most one count per search hit |
| DiscoverRoute.QualifyingHitCounts | src/app/api/cron/discover/route.ts:33-35 | a hit scoring >= 0.1 counts at least once |
| DiscoverRoute.RepeatedHitCountsTwice | src/app/api/cron/discover/route.ts:69 | a post found under two different keywords is counted once for each, so at least twice |
| DiscoverRoute.NoPairsCountNothing | src/app/api/cron/discover/route.ts:28-29 | with no subreddits or no keywords nothing is searched or counted |
| DiscoverRoute.DiscoverHit | src/app/api/cron/discover/route.ts:34-69 | a hit below 0.1 changes nothing and is not counted; otherwise it is upserted, counted and has a row |
| DiscoverRoute.DiscoverHits | src/app/api/cron/discover/route.ts:33-70 | the hits of one search count exactly those scoring >= 0.1, and each of them has a row afterwards |
| DiscoverRoute.DiscoverNextHit | src/app/api/cron/discover/route.ts:33-70 | one pass of the hit loop keeps the count and the stored hits up to date |
| DiscoverRoute.DiscoverPair | src/app/api/cron/discover/route.ts:30-76 | a failed search counts nothing and leaves the tables unchanged; otherwise every qualifying hit has a row |
| DiscoverRoute.DiscoverSubreddit | src/app/api/cron/discover/route.ts:29-77 | one subreddit adds the counts of each keyword and stores the qualifying hits of each search |
| DiscoverRoute.DiscoverCampaign | src/app/api/cron/discover/route.ts:28-78 | one campaign adds the counts of each subreddit and stores the qualifying hits of each search |
| DiscoverRoute.DiscoverCampaigns | src/app/api/cron/discover/route.ts:24-79 | the campaign loop adds the counts of each active campaign and stores every qualifying hit |
| DiscoverRoute.Discover | src/app/api/cron/discover/route.ts:7-86 | unauthorized means 401 and no change; otherwise only active campaigns are processed, the counts are returned, the tables change only as above, and every qualifying hit of every search run has a row |
| GenerateRoute.ByRelevanceIsTotal | src/app/api/cron/generate/route.ts:21 | ascending relevance is a total preorder |
| GenerateRoute.Uncommented | src/app/api/cron/generate/route.ts:26-33 | keeps exactly the posts without any comment, in order |
| GenerateRoute.FilterKeepsOrder | src/app/api/cron/generate/route.ts:26 | filtering keeps the relevance order |
| GenerateRoute.Batch | src/app/api/cron/generate/route.ts:17-23 | at most 20 posts in ascending relevance |
| GenerateRoute.BatchIsLowestQueued | src/app/api/cron/generate/route.ts:17-23 | the batch holds min(queued, 20) queued posts; no queued post left out scores lower than one taken, and one is left out only when the batch is full |
| GenerateRoute.ToProcess | src/app/api/cron/generate/route.ts:17-33 | exactly the batch posts without a comment: at most 20 queued posts in ascending relevance |
| GenerateRoute.SmallQueueAllProcessed | src/app/api/cron/generate/route.ts:17-33 | with at most 20 queued posts, every uncommented queued post is processed |
| GenerateRoute.TodayCount | src/app/api/cron/generate/route.ts:45-51 | counts comments of the campaign created since midnight |
| GenerateRoute.TodayCountSnoc | src/app/api/cron/generate/route.ts:45-51 | a new comment adds one to its campaign's count for today |
| GenerateRoute.InitialStatus | src/app/api/cron/generate/route.ts:67 | ready to post iff the campaign auto-approves, pending review otherwise |
| GenerateRoute.StepEffects | src/app/api/cron/generate/route.ts:38-84 | one post either changes nothing, or inserts one fresh comment under the cap and marks that post commented |
| GenerateRoute.Step | src/app/api/cron/generate/route.ts:38-88 | a post that gets no comment leaves the tables and the next id as they were; one that does adds exactly one comment and uses exactly one id |
| GenerateRoute.StepInsertsWhenAble | src/app/api/cron/generate/route.ts:39-82 | with the campaign present, room under its cap, a non-empty text and the post row present, the post always gets its comment |
| GenerateRoute.StepsFrame | src/app/api/cron/generate/route.ts:37-89 | the run adds `generated` comments with consecutive fresh ids and keeps users and campaigns |
| GenerateRoute.Steps | src/app/api/cron/generate/route.ts:37-89 | the run inserts at most one comment per post, and the comments added equal the ids used |
| GenerateRoute.StepsKeepCap | src/app/api/cron/generate/route.ts:42-53 | each campaign ends with a today-count at most max(starting count, maxCommentsPerDay) |
| GenerateRoute.CapStep | src/app/api/cron/generate/route.ts:53 | a comment inserted below the cap keeps the cap bound |
| GenerateRoute.StepsAddedComments | src/app/api/cron/generate/route.ts:69-77 | every added comment belongs to a processed post and its campaign, with the campaign's initial status |
| GenerateRoute.StepsCommentedPosts | src/app/api/cron/generate/route.ts:79-82 | every post that got a comment is marked commented |
| GenerateRoute.StepKeepsCommented | src/app/api/cron/generate/route.ts:79-82 | a commented post stays commented |
| GenerateRoute.StepsMarkedPosts | src/app/api/cron/generate/route.ts:79-82 | a post row changes only to become commented, and only if it was processed and got a comment |
| GenerateRoute.ProcessPost | src/app/api/cron/generate/route.ts:38-88 | the body of the loop performs one step |
| GenerateRoute.OnlyChosenPostsMarked | src/app/api/cron/generate/route.ts:17-82 | only chosen, uncommented posts change, and each change is a legal post step |
| GenerateRoute.StepsExtend | src/app/api/cron/generate/route.ts:37-89 | the run over one more post is the run so far followed by one step |
| GenerateRoute.ProcessNext | src/app/api/cron/generate/route.ts:37-88 | one pass of the loop advances the store and the count by one step of the run |
| GenerateRoute.ProcessAll | src/app/api/cron/generate/route.ts:37-89 | the loop performs the run and returns the number of inserts |
| GenerateRoute.Generate | src/app/api/cron/generate/route.ts:7-92 | unauthorized means 401 and no change; otherwise at most 20 comments are added, one per insert, and the daily cap is kept |
| QueueRoute.ByCreatedAtIsTotal | src/app/api/extension/queue/route.ts:21 | creation order is a total preorder |
| QueueRoute.OldestReady | src/app/api/extension/queue/route.ts:17-23 | at most 5 ready-to-post comments, oldest first |
| QueueRoute.OldestReadyComplete | src/app/api/extension/queue/route.ts:17-23 | these are min(ready, 5) ready comments, none younger than a ready comment left out, and one is left out only when all five places are taken |
| QueueRoute.Selected | src/app/api/extension/queue/route.ts:17-24 | exactly the requester's comments among the five oldest ready ones, oldest first |
| QueueRoute.SelectedSkipsOnlyBehindFive | src/app/api/extension/queue/route.ts:17-24 | a ready comment of the requester left out waits behind five ready comments, none of them younger |
| QueueRoute.IdsOf | src/app/api/extension/queue/route.ts:30 | exactly the ids of the selected comments |
| QueueRoute.Item | src/app/api/extension/queue/route.ts:34-44 | id and text from the comment; url, platform and title from its post, or "" and null subreddit when the post is missing |
| QueueRoute.Queue | src/app/api/extension/queue/route.ts:6-47 | no token or an unknown token means 401 and no change; otherwise the selected comments are returned and exactly they become posting |
| QueueRoute.NoIdsNoChange | src/app/api/extension/queue/route.ts:27-32 | an empty selection updates nothing |
| QueueRoute.MarkPosting | src/app/api/extension/queue/route.ts:27-32 | the update keeps every id and parent and sets status posting and updatedAt now |
| QueueRoute.ExactlySelectedMarked | src/app/api/extension/queue/route.ts:27-32 | exactly the selected rows become posting and every other row is unchanged |
| QueueRoute.NoSecondHandOut | src/app/api/extension/queue/route.ts:20-32 | a comment handed out once is not handed out again |
| QueueRoute.ShortReply | src/app/api/extension/queue/route.ts:17-24 | five older ready comments of another user, with distinct ids, leave the reply empty even though the requester has one ready |
| QueueRoute.Backlog | src/app/api/extension/queue/route.ts:17-24 | n comments of one user with distinct ids, then the requester's comment last |
| QueueRoute.OldestOfReadySorted | src/app/api/extension/queue/route.ts:17-23 | on a sorted ready list the selection is its first five |
| QueueRoute.RunSorted | src/app/api/extension/queue/route.ts:21 | the list used by ShortReply is in creation order |
| ReportRoute.RateKey | src/app/api/extension/report/route.ts:21 | the key is "ext:" followed by the token |
| ReportRoute.Respond | src/app/api/extension/report/route.ts:15-60 | a reply other than ok leaves the tables as they were; ok needs a token, a verdict under the limit and a valid body; users, campaigns and posts never change and no comment is added or removed |
| ReportRoute.ParseReport | src/app/api/extension/report/route.ts:8-13 | accepts exactly a string commentId, a boolean success and optional string platformUrl and error |
| ReportRoute.OwnedComment | src/app/api/extension/report/route.ts:35-40 | finds the comment with that id owned by the user exactly when there is one |
| ReportRoute.OutcomeKeepsKeys | src/app/api/extension/report/route.ts:44-51 | the update keeps the comment's id and parents |
| ReportRoute.Report | src/app/api/extension/report/route.ts:15-60 | without a token the limiter is untouched; with one the limiter takes a step, and the reply and tables follow from its verdict |
| ReportRoute.RefusalsChangeNothing | src/app/api/extension/report/route.ts:16-59 | every reply other than ok leaves the tables unchanged |
| ReportRoute.ReportedIff | src/app/api/extension/report/route.ts:16-53 | ok iff token present, under the limit, known, body valid and the comment is the user's |
| ReportRoute.ReportChangesOneRow | src/app/api/extension/report/route.ts:44-51 | only that comment changes: posted with postedAt now, or failed with no postedAt; platformUrl as given; any prior status |
| ReportRoute.UnknownTokenUsesQuota | src/app/api/extension/report/route.ts:21-29 | an unknown token still spends quota, and gets 401, or 429 over the limit |
| ExtensionAuthRoute.View | src/app/api/extension/auth/route.ts:30-34 | the reply carries only id, email and name |
| ExtensionAuthRoute.Lookup | src/app/api/extension/auth/route.ts:24-41 | no token: 401; unknown token: 401; otherwise the view of the user holding it |
| ExtensionAuthRoute.IssueToken | src/app/api/extension/auth/route.ts:8-22 | the reply and new tables are those of issuing |
| ExtensionAuthRoute.Issue | src/app/api/extension/auth/route.ts:8-22 | a 401 changes nothing; an issued token needs a session and is the token given; only the users table can change, and its size stays the same |
| ExtensionAuthRoute.IssueOnlyTouchesUser | src/app/api/extension/auth/route.ts:8-22 | only the session user's row can change; no session or a clashing token gives 401 and no change |
| ExtensionAuthRoute.IssuedTokenFindsUser | src/app/api/extension/auth/route.ts:13-38 | after issuing, the token finds that user |
| ExtensionAuthRoute.PreviousTokenRevoked | src/app/api/extension/auth/route.ts:13-38 | after issuing, the user's previous token no longer authenticates |
| RegisterRoute.ParseRegistration | src/app/api/auth/register/route.ts:8-12 | accepts exactly a valid email, a password of at least 6 and a non-empty name |
| RegisterRoute.RegisterUser | src/app/api/auth/register/route.ts:14-34 | the reply, tables and next id are those of registering |
| RegisterRoute.Register | src/app/api/auth/register/route.ts:14-34 | a failure changes neither the tables nor the next id; a success takes the next id and appends one user with that id and the reply's email; the other tables never change |
| RegisterRoute.RegisteredIff | src/app/api/auth/register/route.ts:16-22 | success iff the body is valid and the email unused; "already registered" iff it is in use; any failure changes nothing |
| RegisterRoute.RegisteredInsertsOne | src/app/api/auth/register/route.ts:24-27 | success appends exactly one user with the hashed password and replies with id, email and name |
| RegisterRoute.RegisteredEmailUnique | src/app/api/auth/register/route.ts:19-25 | after success the new user is the only one with that email |
| RegisterRoute.SecondRegistrationRefused | src/app/api/auth/register/route.ts:19-22 | registering the same email again is refused |
| StatsRoute.NoSessionCountsNothing | src/app/api/dashboard/stats/route.ts:55-62 | without a session all four counts are 0 |
| StatsRoute.DashboardStats | src/app/api/dashboard/stats/route.ts:7-63 | each count is bounded by its table's size; no session gives four zeros; a user without campaigns has no discovered posts |
| StatsRoute.PostCountIsOwnedPosts | src/app/api/dashboard/stats/route.ts:17-32 | the posts count is the number of posts of the user's campaigns, in any status |
| StatsRoute.PendingPlusPostedBounded | src/app/api/dashboard/stats/route.ts:34-47 | pending + posted never exceeds the user's comments |
| StatsRoute.NewCommentCounts | src/app/api/dashboard/stats/route.ts:34-47 | a new comment counts as pending only when pending review, approved or ready to post, and as posted only when posted |
| StatsRoute.NewCampaignCounts | src/app/api/dashboard/stats/route.ts:12-15 | a new campaign counts only when the user's and active |
| PostsRoute.BetterFirstIsTotal | src/app/api/posts/route.ts:28 | relevance then creation time, both descending, is a total preorder |
| PostsRoute.UsersCampaigns | src/app/api/posts/route.ts:11-15 | exactly the user's campaigns |
| PostsRoute.Ranked | src/app/api/posts/route.ts:24-30 | at most 100 of the user's posts, best first; none without campaigns |
| PostsRoute.RankedComplete | src/app/api/posts/route.ts:24-30 | returns min(100, owned) posts and every post left out ranks no better than those returned |
| PostsRoute.NoSessionUnauthorized | src/app/api/posts/route.ts:38-40 | without a session the reply is 401 |
| PostsRoute.UserPostsAreRanked | src/app/api/posts/route.ts:17-37 | the reply lists exactly the ranked posts in order |
| PostsRoute.UserPosts | src/app/api/posts/route.ts:7-41 | 401 exactly when there is no session; otherwise at most 100 items |
| PostsRoute.WithBrands | src/app/api/posts/route.ts:32-35 | one item per ranked post, in order, each carrying that post |
| PostsRoute.WithBrandsOwn | src/app/api/posts/route.ts:21-35 | each post gets the brand of its own campaign |
| PostsRoute.UserPostsBrands | src/app/api/posts/route.ts:21-35 | every item of the reply carries its own campaign's brand |
| PostsRoute.UserPostsOwned | src/app/api/posts/route.ts:11-35 | at most 100 items, all of the user's campaigns, best first |
| CommentsRoute.NewerFirstIsTotal | src/app/api/comments/route.ts:15 | newest first is a total preorder |
| CommentsRoute.PostSummaryOf | src/app/api/comments/route.ts:20-26 | the post's title, url, subreddit and platform, or the empty default when it is missing |
| CommentsRoute.Newest | src/app/api/comments/route.ts:11-17 | at most 100 of the user's comments, newest first |
| CommentsRoute.NewestComplete | src/app/api/comments/route.ts:11-17 | returns min(100, mine) comments and every one left out is no newer than those returned |
| CommentsRoute.NoSessionUnauthorized | src/app/api/comments/route.ts:32-34 | without a session the reply is 401 |
| CommentsRoute.UserCommentsAreNewest | src/app/api/comments/route.ts:11-31 | the reply lists exactly those comments, unchanged and in order |
| CommentsRoute.UserComments | src/app/api/comments/route.ts:7-35 | 401 exactly when there is no session; otherwise at most 100 items |
| CommentsRoute.Joined | src/app/api/comments/route.ts:19-29 | one item per row, in order, each carrying that row |
| CommentsRoute.JoinOne | src/app/api/comments/route.ts:20-28 | a row is joined with its own post and campaign, or defaults when they are missing |
| CommentsRoute.UserCommentsJoined | src/app/api/comments/route.ts:19-29 | every row of the reply is joined correctly |
| CommentsRoute.WellFormedNeverEmpty | src/app/api/comments/route.ts:20-28 | with the foreign keys enforced the defaults never appear |
| Json.StringField | src/app/api/extension/report/route.ts:9 | a field is read as a string exactly when it is one |
| Json.BoolField | src/app/api/extension/report/route.ts:10 | a field is read as a boolean exactly when it is one |
| Strings.Trim | src/components/CampaignForm.tsx:49 | the trimmed text neither starts nor ends with white space and is no longer than the input |
| Strings.TrimIsSlice | src/components/CampaignForm.tsx:49 | the input is white space, then its trim, then white space; with Trim's contract this fixes the trim |
| Strings.TrimStartDropsSpace | src/components/CampaignForm.tsx:49 | the leading part dropped is all white space |
| Strings.TrimEndDropsSpace | src/components/CampaignForm.tsx:49 | the trailing part dropped is all white space |
| Strings.TrimmedIsFixed | src/components/CampaignForm.tsx:49 | trimming a trimmed text changes nothing |
| Strings.TrimAfterSpace | src/components/CampaignForm.tsx:49 | leading white space does not change the trim |
| Strings.Split | src/components/CampaignForm.tsx:48 | `split` never returns an empty list and no piece holds the separator |
| Strings.SplitJoin | src/components/CampaignForm.tsx:31 | splitting a join of separator-free parts gives back the parts |
| Strings.Prefix | src/app/api/cron/discover/route.ts:61 | `slice(0, n)` is the first min(n, length) characters: exactly that many, taken from the front |
| Strings.ToLower | src/lib/reddit/discovery.ts:86 | lower-casing keeps the length |
| Seqs.Top | src/app/api/posts/route.ts:28-29 | order then limit: a sorted list of at most n elements, each taken from the input no more often than it occurs there |
| Seqs.TopKeepsFirst | src/app/api/posts/route.ts:28-29 | the limited list is the first n of the sorted list |
| Seqs.TopFullWhenLeftOut | src/app/api/posts/route.ts:28-29 | an element is left out only when all n places are taken |
| CampaignForm.StripSubredditPrefix | src/components/CampaignForm.tsx:53 | removes one leading "r/" and nothing else |
| CampaignForm.CleanSubreddit | src/components/CampaignForm.tsx:53 | the cleaned entry is no longer than the piece and uses only its characters |
| CampaignForm.ShowList | src/components/CampaignForm.tsx:31-34 | an empty list shows as ""; otherwise the text starts with the first entry |
| CampaignForm.Pieces | src/components/CampaignForm.tsx:47-54 | every entry kept is a cleaned, non-empty piece of the text |
| CampaignForm.ParseKeywords | src/components/CampaignForm.tsx:47-50 | every keyword is non-empty, comma-free and trimmed |
| CampaignForm.ParseSubreddits | src/components/CampaignForm.tsx:51-54 | every subreddit is non-empty and comma-free |
| CampaignForm.ShowThenPieces | src/components/CampaignForm.tsx:31-54 | joining clean entries with ", " and cleaning the pieces gives back the list |
| CampaignForm.KeywordsRoundTrip | src/components/CampaignForm.tsx:31-50 | a list of trimmed, non-empty, comma-free keywords survives the join and re-parse |
| CampaignForm.SubredditsRoundTrip | src/components/CampaignForm.tsx:33-54 | the same for subreddits that do not start with "r/" |
| CampaignForm.CleanPrefixed | src/components/CampaignForm.tsx:53 | the prefix is stripped after trimming: leading space, "r/", then the rest gives the rest |
| CampaignForm.CleanExamples | src/components/CampaignForm.tsx:53 | "r/" cleans to "" and " r/ foo" to " foo" |
| CampaignForm.SubredditPrefixExamples | src/components/CampaignForm.tsx:51-54 | "r/, r/ foo" parses to [" foo"]: "r/" alone disappears |
| CampaignForm.InitialFields | src/components/CampaignForm.tsx:26-40 | without data: empty texts, tone "helpful", 5 per day, no auto-approve; with data: its values and its lists joined with ", " |
| CampaignForm.SubmitTarget | src/components/CampaignForm.tsx:56-71 | nothing is sent iff there are no keywords; editing sends PATCH to /api/campaigns/{id}, creating sends POST to /api/campaigns, with the parsed lists |
| CampaignForm.SubmitRequest | src/components/CampaignForm.tsx:47-71 | nothing is sent iff there are no keywords; a request is a PATCH iff the form edits a campaign |
| CampaignForm.ReplyError | src/components/CampaignForm.tsx:73-75 | the banner keeps the server's `error` whatever its type when it is truthy, and is "Something went wrong" otherwise; it is always truthy |
| CampaignForm.RefusedSaveMessage | src/components/CampaignForm.tsx:75-88 | a refused save always shows a non-empty message: a non-empty string error as is, another truthy error as "Validation error", otherwise "Something went wrong" |
| CampaignForm.NoSubredditsLeft | src/components/CampaignForm.tsx:51-54 | an empty subreddits field, or one holding only "r/", parses to [] |
| CampaignForm.ClearedSubredditsShowValidationError | src/components/CampaignForm.tsx:51-88 | an edit with keywords and cleared subreddits sends a PATCH with no subreddits; when that is refused with an array of issues the form stays, stops loading and shows "Validation error" |
| CampaignForm.UnchangedEditResubmits | src/components/CampaignForm.tsx:30-65 | submitting an unchanged edit form sends the stored campaign back |
| CampaignForm.BlankFormSendsNothing | src/components/CampaignForm.tsx:26-60 | a blank new form sends nothing |
| CampaignForm.SubmitOutcomes | src/components/CampaignForm.tsx:42-88 | no keywords: error and nothing sent; ok: navigate with no error; not ok: stay, stop loading, and show a non-empty message |
| CampaignForm.AfterSubmit | src/components/CampaignForm.tsx:42-82 | the request is the submit request; navigation iff a request was sent and the reply was ok; otherwise loading stops and the banner error is truthy |
| CampaignForm.Press | src/components/CampaignForm.tsx:85-183 | a press while loading, or with a blank brand or description or a count outside 1..50, is stopped by the browser; only a sent request with an ok reply navigates |
| CampaignForm.PressSendsOnlyValid | src/components/CampaignForm.tsx:85-183 | a stopped press changes nothing; every request sent has a non-empty brand, description and keyword list and a count in 1..50 |
| CampaignForm.Form.constructor | src/components/CampaignForm.tsx:19-40 | the inputs start as the initial fields, not loading, error "" |
| CampaignForm.Form.Submit | src/components/CampaignForm.tsx:42-183 | request, navigation, loading and error are those of one press: the browser's check, then `handleSubmit`; inputs are kept |
| CampaignsPage.Loaded | src/app/dashboard/campaigns/page.tsx:27 | a non-array reply becomes [] |
| CampaignsPage.Toggled | src/app/dashboard/campaigns/page.tsx:34 | "active" becomes "paused" and everything else "active" |
| CampaignsPage.WithStatus | src/app/dashboard/campaigns/page.tsx:40-42 | only the rows with the id change, and only their status; length and order kept |
| CampaignsPage.Without | src/app/dashboard/campaigns/page.tsx:48 | exactly the rows without the id remain |
| CampaignsPage.ToggleTwice | src/app/dashboard/campaigns/page.tsx:34 | toggling twice from active or paused returns to it |
| CampaignsPage.ToggleUnknownStatus | src/app/dashboard/campaigns/page.tsx:34 | any other text resumes, so toggling twice ends paused |
| CampaignsPage.WithoutKeepsOthers | src/app/dashboard/campaigns/page.tsx:48 | removes exactly the rows with the id, keeps the rest in order; an unknown id changes nothing |
| CampaignsPage.WithoutKeepsOrder | src/app/dashboard/campaigns/page.tsx:48 | cut the list anywhere: the kept rows before the cut come before the kept rows after it |
| CampaignsPage.WithoutCount | src/app/dashboard/campaigns/page.tsx:48 | kept rows plus removed rows make up the list |
| CampaignsPage.Page.constructor | src/app/dashboard/campaigns/page.tsx:20-21 | starts empty and loading |
| CampaignsPage.Page.Load | src/app/dashboard/campaigns/page.tsx:23-31 | stores the list or [] and stops loading; a failed fetch only stops loading |
| CampaignsPage.Page.ToggleStatus | src/app/dashboard/campaigns/page.tsx:33-43 | sends the toggled status and applies it to that row |
| CampaignsPage.Page.DeleteCampaign | src/app/dashboard/campaigns/page.tsx:45-49 | declined: nothing sent, nothing changed; confirmed: DELETE sent and the row removed |
| PostsPage.Loaded | src/app/dashboard/posts/page.tsx:26 | a non-array reply becomes [] |
| PostsPage.WithStatus | src/app/dashboard/posts/page.tsx:38 | only the rows with the id change, and only their status; length and order kept |
| PostsPage.Actions | src/app/dashboard/posts/page.tsx:114-129 | Queue and Skip are offered iff the post is new |
| PostsPage.ActionsFollowLifecycle | src/app/dashboard/posts/page.tsx:114-127 | each button sets a legal post step |
| PostsPage.LastUpdateWins | src/app/dashboard/posts/page.tsx:32-48 | of two updates to one post the later wins |
| PostsPage.UpdatesCommute | src/app/dashboard/posts/page.tsx:32-48 | updates to different posts commute |
| PostsPage.UpdatedPostOffersNothing | src/app/dashboard/posts/page.tsx:114 | after Queue or Skip the post offers no button |
| PostsPage.Page.constructor | src/app/dashboard/posts/page.tsx:19-20 | starts empty and loading |
| PostsPage.Page.Load | src/app/dashboard/posts/page.tsx:22-30 | stores the list or [] and stops loading; a failed fetch only stops loading |
| PostsPage.Page.QueuePost | src/app/dashboard/posts/page.tsx:41-48 | sends a PATCH setting the post queued, and that post becomes queued |
| PostsPage.Page.SkipPost | src/app/dashboard/posts/page.tsx:32-39 | sends a PATCH setting the post skipped, and that post becomes skipped |
| CommentsPage.Loaded | src/app/dashboard/comments/page.tsx:37 | a non-array reply becomes [] |
| CommentsPage.WithStatus | src/app/dashboard/comments/page.tsx:49-51 | only the rows with the id change, and only their status; length and order kept |
| CommentsPage.WithText | src/app/dashboard/comments/page.tsx:60-62 | only the rows with the id change, and only their text |
| CommentsPage.Visible | src/app/dashboard/comments/page.tsx:66 | "all" shows every comment, a status tab exactly those with the status |
| CommentsPage.Actions | src/app/dashboard/comments/page.tsx:169-201 | Approve, Edit and Reject iff pending review and not being edited; Send to Extension iff approved |
| CommentsPage.WithStatusIdempotent | src/app/dashboard/comments/page.tsx:49-51 | setting a status twice is setting it once |
| CommentsPage.UpdatedShowsUnderItsStatus | src/app/dashboard/comments/page.tsx:49-66 | an updated comment shows under its new status's tab and no other |
| CommentsPage.VisibleKeepsOrder | src/app/dashboard/comments/page.tsx:66 | a tab keeps the list order |
| CommentsPage.HiddenStatuses | src/app/dashboard/comments/page.tsx:91 | posting and rejected comments show only under "all" |
| CommentsPage.ActionsFollowLifecycle | src/app/dashboard/comments/page.tsx:169-199 | each button sets a legal comment step |
| CommentsPage.NoActionsOutsideReview | src/app/dashboard/comments/page.tsx:169-194 | no button while being edited or outside pending review and approved |
| CommentsPage.Page.constructor | src/app/dashboard/comments/page.tsx:27-31 | empty, loading, no editor, filter "all" |
| CommentsPage.Page.Load | src/app/dashboard/comments/page.tsx:33-41 | stores the list or [] and stops loading; a failed fetch only stops loading |
| CommentsPage.Page.UpdateStatus | src/app/dashboard/comments/page.tsx:43-52 | applies the status to that comment |
| CommentsPage.Page.StartEdit | src/app/dashboard/comments/page.tsx:178-181 | opens the editor on the comment's text |
| CommentsPage.Page.SaveEdit | src/app/dashboard/comments/page.tsx:54-64 | applies the edited text and closes the editor |
| CommentsPage.Page.CancelEdit | src/app/dashboard/comments/page.tsx:156 | closes the editor |
| CommentsPage.Page.SetFilter | src/app/dashboard/comments/page.tsx:94 | selects the tab |
| Background.Current | extension/background.js:78-79 | an absent `todayStats` reads as zeros |
| Background.Jobs | extension/background.js:75 | absent `comments` reads as [] |
| Background.AfterJob | extension/background.js:146-153 | posted + failed grows by one, posted only on a success reply, queued drops by one floored at 0 |
| Background.AfterJobsCounts | extension/background.js:84-90 | n jobs add n to posted + failed and the successes to posted, and take queued down by n, floored at 0 |
| Background.QueuedNeverNegative | extension/background.js:153 | queued is never negative after a job |
| Background.AfterJobsSnoc | extension/background.js:84-90 | one more job is one more step |
| Background.AfterJobs | extension/background.js:84-90 | a run of jobs never lowers the posted or failed counter |
| Background.BatchDrainsQueue | extension/background.js:80-90 | a batch starting from its own length ends with queued 0 and adds its length to posted + failed |
| Background.Extension.constructor | extension/background.js:4-7 | a fresh install stores nothing and arms no alarm |
| Background.Extension.OnMessage | extension/background.js:13-20 | start arms the alarm and stop disarms it; storage is untouched |
| Background.Extension.CheckAndStartPolling | extension/background.js:29-38 | arms the alarm when token, URL and not paused, and never disarms it |
| Background.Extension.ProcessComment | extension/background.js:145-154 | writes the counters after one job |
| Background.Extension.PollQueue | extension/background.js:53-94 | disabled or a failed reply changes nothing; otherwise queued becomes the batch length and the jobs are counted in order |
| Background.Extension.ResetStats | extension/background.js:214-217 | all three counters become 0 |
| Popup.DropTrailingSlash | extension/popup.js:53 | removes one trailing "/" and nothing else |
| Popup.CleanUrl | extension/popup.js:53 | the cleaned URL is no longer than the input, and empty exactly when the trimmed input is "" or "/" |
| Popup.AuthUrl | extension/popup.js:67 | the probe URL is the server URL followed by "/api/extension/auth" |
| Popup.Decide | extension/popup.js:55-90 | a probe exactly when token and URL are non-empty, carrying them; success exactly when a probe was sent and accepted |
| Popup.ConnectResult | extension/popup.js:51-90 | empty token first, then empty URL, stop without a request; otherwise the probe uses the cleaned inputs and only an ok reply is a success |
| Popup.ScreenFor | extension/popup.js:14-22 | the main section iff token and URL are stored |
| Popup.MainDisplay | extension/popup.js:30-49 | "Paused" and Resume iff paused; stored counters or zeros |
| Popup.TrailingSlashIgnored | extension/popup.js:53 | a URL with one trailing slash connects like the URL without it |
| Popup.OnlyOneSlashDropped | extension/popup.js:53 | of two trailing slashes one remains |
| Popup.BlankTokenSendsNothing | extension/popup.js:52-58 | a blank token is reported and nothing is sent |
| Popup.Page.constructor | extension/popup.js:14-22 | opens on the main section iff token and URL are stored |
| Popup.Page.Connect | extension/popup.js:51-91 | only an ok reply stores token, URL and paused = false and starts polling; failures leave storage and the alarm alone |
| Popup.Page.Settle | extension/popup.js:64-90 | shows the decided message; only a success stores token, URL and paused = false and starts polling |
| Popup.Page.Toggle | extension/popup.js:93-103 | flips paused, and the alarm ends armed iff not paused |
| Popup.Page.Disconnect | extension/popup.js:105-112 | clears storage and stops polling, so a poll is then a no-op; shows the login form |
| Popup.Page.TypeToken | extension/popup.js:52 | the token field holds what was typed |

## Left out

- Network, AI and search: `fetchReddit`, `searchSubreddit` and `searchReddit` are left out. So are the AI generator and every fetch made by the pages and the extension. The results they produce are inputs:
  - a search is a function from (subreddit, keyword) to hits or a throw;
  - the generator returns text or throws;
  - a page's fetch is given as its parsed body;
  - the extension's queue and auth replies are given.
- The PATCH and DELETE requests the pages send are assumed to complete. A network failure before the local update is not modelled.
- Floating point: relevance is an exact rational, and the 0.1 threshold is compared exactly. The display-only colour buckets and percentages on the posts page are left out.
- Strings are sequences of characters. Case folding is ASCII only. White space follows ECMAScript's list. Lengths count code points, not UTF-16 units, for `slice(0, 2000)` and for the password and name minimum lengths.
- Ids are a counter, not UUIDs. A client sends back an id as its decimal text. Only freshness and injectivity are relied on.
- Timestamps are integers passed in. Local midnight is a parameter. `getNextMidnight` and the alarm schedule are left out.
- Campaign keyword and subreddit lists are stored parsed; `JSON.parse` of the stored text is left out.
- The database is infallible and its foreign keys are enforced, since better-sqlite3 enables them by default. A failing write, and the catch paths only such a failure reaches, are left out.
- GenerateRoute.ProcessAll: an exception in the middle of a post (after the insert, before the post update) cannot happen in the model.
- `requireSession` is given as an optional user id; its cookie handling is not part of this model.
- bcrypt is an opaque function and the email check an opaque predicate. The zod error bodies are reduced to a status.
- `randomBytes` tokens are given. A clash with another user's token is the UNIQUE failure that the route turns into 401.
- Concurrency is left out:
  - overlapping polls, or `paused` changing during a batch;
  - simultaneous requests;
  - the queue route's select-then-update not being atomic;
  - the timing of the rate limiter's five-minute sweep.

  Every route and handler is one sequential step.
- Browser plumbing is left out: tabs, `waitForTabLoad`, the random delays, `console` and the content scripts. The outcome of each job is an input: a reply with success true or false, or a throw.
- `chrome.storage` is infallible, so a throw inside the catch block of `processComment` cannot happen in the model.
- Background.Extension.PollQueue: `res.json()` throwing is the same as a failed reply.
- Popup.Page.Connect: the 500 ms delay before the main section shows is taken as immediate. The popup's DOM writes are reduced to the section shown, the message, the button label and the token field.
- Sorting ties: SQLite breaks remaining ties in some unspecified order. This matters in four places: the posts and comments routes, the generate route's choice of 20 posts among equal scores, and the queue route's choice of 5 comments among equal creation times. The model sorts stably by insertion order. Its properties do not depend on this: the completeness lemmas only say that no post left out scores lower, and no comment left out is older.
- Search results: a search is a function, so the same (subreddit, keyword) pair gives the same hits every time. The network search makes no such promise. Within one run, the only repeated pair is a keyword or subreddit listed twice in a campaign.
- DiscoverRoute.Discover: the final tables are not given as one function of the inputs. What is stated: only posts change, old rows are kept or rescored, new rows are inserts of qualifying hits, and every qualifying hit has a row.
- RateLimit.Run: only the verdict count is stated here; what the verdicts are is stated by the step lemmas and AtMostLimitPerWindow.
- CampaignForm.Press: the browser's own check before `onSubmit` is reduced to the `required` brand and description and the 1..50 range of maxCommentsPerDay. The number input's `step` check on a fractional count is left out, because the count is an integer in the model.
- Rendering and pages outside the core are left out: JSX, styling, the privacy, settings and overview pages, and `tailwind.config.ts`.
