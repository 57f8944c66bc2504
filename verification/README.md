# Verified core of the CodeGard contest platform

CodeGard runs programming contests. Submissions travel over Redis to a pool of judge workers; verdicts
come back and move contest scores, leaderboards and Elo ratings; viewers hear about it over sockets and
notifications. This project models the parts of that path where the order of steps or the arithmetic
carries the promise, and proves the promises in Dafny.

Check everything with `dafny verify dfyconfig.toml`.

## How it is built

Code that several processes run at once is a state machine: one event per command that is atomic in the
original (a Redis command, a commit, a cache call, an answer landing), and a total `Next`, so that the
theorems hold for **every** finite schedule `Run(Init, events)`; an event that cannot happen leaves the state
as it is. Code that changes fields, rows or lists step by step is a class or a method with a loop, proved
equal to a specification function, and the promises are lemmas about that function.

| module | what it covers |
|---|---|
| `JudgeQueue` | the worker protocol over shared lists: crashes, cancellations, Redis errors, lost heartbeats, concurrent recovery |
| `JudgeWorker` | the same commands as the worker's own code, each one an event of `JudgeQueue` |
| `OutputCheck`, `Runner` | output comparison, verdict of one run, running the tests of a submission |
| `Scoring` | score from scratch, and the stored row refreshed only on an accepted verdict |
| `Ranking` | leaderboard order, dense-rank window, single-participant rank, history rank |
| `Elo`, `Ratings` | rating arithmetic, the award, the task that runs it, and its prediction |
| `RatingLedger`, `RatingDrift` | overlapping rating transactions: what the ledger keeps, and how far all ratings drift |
| `LeaderboardCache` | generation-keyed page cache against readers and writers in any interleaving |
| `ContestSocket` | connecting viewers against the rating task's broadcast |
| `Announcements` | two-audience fan-out with deduplication |
| `NotificationFeed`, `FeedOrder` | the client's feed: no gaps, no duplicates, and the order of its rows |
| `DailyProblem`, `ContestLetters` | daily problem selection; problem labels |
| `Schemas`, `Wrappers` | shared verdict type, options, small helpers |

## What the proofs found

* The contest history counts *rows* ahead, not distinct results, so its place is not the leaderboard place
  once two contestants ahead are tied, although its documentation speaks of the exact leaderboard tie-break.
  `HistoryAgreesUnlessTied` gives the exact condition, `HistoryRankIsNotDense` a table.
* A score refreshed only on accepted verdicts goes stale in exactly one case: a counted wrong verdict that was
  submitted before the accepted one of its problem but judged after it (`LandingIsExactIff`).
* The generation counter of the page cache is read and then set in two commands. If the set lands after
  somebody else's bust the counter goes back and an old page is served. `SafeIff` gives the exact condition: a
  fresh cache stays fresh under every schedule if and only if the key is present and nobody is about to set it
  outright; an eviction is never safe (`EvictionIsNeverSafe`). Schedules in which no such set is overtaken
  keep the promise, the first seeding included (`ReadersSeeWhatWasSignalled`).
* The feed puts a ring's page on top of what is there. If its answer was taken before the first load's but lands
  after it, older rows come to stand above newer ones (`OvertakenRingTurnsRowsRound`); `RingKeepsOrderIff` says
  exactly when.
* A later batch of a contest's problems is promised to be a new summary. That holds if and only if the shortened
  digests of the two problem sets differ (`LaterBatchIsNewsIff`).
* A comment in the daily selection says never-used problems sort first in the fallback. PostgreSQL's ascending
  order puts NULLs last, but the fallback never meets one (`FallbackMeetsNoNull`).

## Model

| member | source | states |
|---|---|---|
| `JudgeQueue.NothingIsLost` | judge/app/worker.py:28-62 | every schedule: pushes of a payload = its copies in the queue and all processing lists + its removals; removals never exceed the results and dead letters given for it; a payload still owed an answer is stored somewhere |
| `JudgeQueue.RunKeepsAccounts` | judge/app/worker.py:28-112 | the five balances behind conservation (stored, removed-after-answered, answered-once-per-pickup, refusals, dead letters) survive every step, drains and aborts included |
| `JudgeQueue.CountWithout` | judge/app/worker.py:31 | LREM with count 1 lowers the count of a payload by exactly one if it was there and changes no other count |
| `JudgeQueue.DuplicatesArePaidFor` | judge/app/worker.py:88-112 | every schedule: results for an id plus its queued copies never exceed its pushes plus the times it was drained back |
| `JudgeQueue.RefusalsLeaveDeadLetters` | judge/app/worker.py:47-55 | every pickup past the limit that ran to its end left an RE result, and every such result a dead letter before it |
| `JudgeQueue.PoisonIsBounded` | judge/app/worker.py:45-47 | between two resets of an id's counter, across all workers, at most max_attempts pickups are let through to judging, less those already counted |
| `JudgeQueue.JudgedWereAdmitted` | judge/app/worker.py:45-62 | every entry into run_submission uses up a pickup that was counted within the limit |
| `JudgeQueue.RecoverySparesTheRunning` | judge/app/worker.py:98-110 | if running workers keep their heartbeats, no drain step ever takes from the list of a running worker, whatever else crashes |
| `JudgeQueue.SweepStep` | judge/app/app_factory.py:24-29 | every step keeps: running workers have their heartbeat from the start, and a list being drained belongs to a worker that is not running |
| `JudgeQueue.CalmMeansExactlyOnce` | judge/app/worker.py:158-178 | without crash, cancellation, Redis error or lost heartbeat a well-formed payload has at most one result per push, and exactly one once it is stored nowhere |
| `JudgeQueue.VerdictsWereGiven` | judge/app/worker.py:57-62 | every schedule: results reporting a verdict for a payload never exceed the runs of run_submission on it that returned that verdict, plus, for RE, those that raised |
| `JudgeQueue.OrphansComeBack` | judge/app/worker.py:98-110 | once the heartbeat of a worker has run out, one sweep by any idle running worker puts the first entry of its list at the head of the queue |
| `JudgeQueue.ResetForgets` | judge/app/worker.py:32 | the DELETE in `_finish`, or the expiry, leaves no attempt counted |
| `JudgeWorker.Redis.Finish` | judge/app/worker.py:28-32 | result pushed, one copy removed from the own list, counter deleted, as three protocol events in that order |
| `JudgeWorker.Redis.HandleOne` | judge/app/worker.py:35-62 | the outcomes: a malformed payload, a verdict that is pushed as returned, a raised run pushed as RE, a pickup past the limit; for each the exact result, dead letter, list, counter and protocol events |
| `JudgeWorker.Redis.RunSubmission` | judge/app/worker.py:57-61 | a returned verdict is kept as it is, an exception becomes RE |
| `JudgeWorker.Redis.Announce` | judge/app/worker.py:65-78 | the heartbeat is present afterwards, and it is a Beat of the protocol |
| `JudgeWorker.Redis.Withdraw` | judge/app/worker.py:81-85 | the heartbeat is gone afterwards, and it is a Withdraw of the protocol |
| `JudgeWorker.Redis.MoveBack` | judge/app/worker.py:90-93 | LMOVE LEFT LEFT: the head of the list becomes the head of the queue, or nothing moved |
| `JudgeWorker.Redis.Drain` | judge/app/worker.py:88-95 | the whole list goes to the head of the queue in reverse, and the count returned is its length |
| `JudgeWorker.Redis.RecoverOrphans` | judge/app/worker.py:98-110 | exactly the lists of the scanned workers other than this one without a heartbeat are emptied; what was on them, as a multiset, and nothing else is in front of the old queue, and its number is returned, repeated keys included |
| `JudgeWorker.Redis.StartUp` | judge/app/app_factory.py:24-31 | a new worker leaves word first, sweeps once, and only then takes submissions, with an empty list of its own |
| `JudgeWorker.Redis.ShutDown` | judge/app/app_factory.py:36-45 | cancelled first, then the heartbeat taken back |
| `JudgeWorker.Redis.Take` | judge/app/worker.py:162-168 | BLMOVE: the head of the queue becomes the last entry of the own list |
| `JudgeWorker.Redis.WorkOnce` | judge/app/worker.py:160-171 | one pass of the loop: nothing on an empty queue; otherwise the head is taken and answered with its verdict, refused or dead-lettered as its attempts say, and every list ends with the entries it began with |
| `OutputCheck.NormalizeIsCanonical` | judge/app/core/verdict.py:6-7 | rstrip, splitlines, rstrip of each line and join together compute the canonical form read off from the right, for every text and every line break Python knows |
| `OutputCheck.NormalizeIsIdempotent` | judge/app/core/verdict.py:6-7 | normalising twice changes nothing |
| `OutputCheck.ComparesEqualIff` | judge/app/core/verdict.py:19 | two texts compare equal if and only if one turns into the other by adding or deleting blanks at line ends and line breaks at the end of the text, and by writing a line break in another way |
| `OutputCheck.LineEndsOfOtherSystems` | judge/app/core/verdict.py:6-7 | a text compares equal to itself written with carriage return and line feed at each line end |
| `OutputCheck.CleanTextStays` | judge/app/core/verdict.py:6-7 | a text without stray whitespace is its own normal form, inner empty lines included |
| `OutputCheck.CharactersAre` | judge/app/core/verdict.py:6-7 | the whitespace that is stripped and the line breaks that are split at, by code point |
| `OutputCheck.AcceptedIff` | judge/app/core/verdict.py:10-21 | AC exactly when no limit was hit, the exit code is zero and the output is the expected one up to those edits |
| `OutputCheck.VerdictIs` | judge/app/core/verdict.py:10-21 | for each of the six answers exactly when it is given: time, memory, output limit, exit code, in this order, and then the output |
| `Runner.RunSubmission` | judge/app/core/runner.py:23-50 | AC iff every test passes; otherwise the verdict of the first failing test with no later test run; the longest time over the runs made; stderr of the last run; no response if a run raises |
| `Runner.TrimStderr` | judge/app/core/runner.py:15-20 | what a reader of the response may rely on: bounded, agreeing with the text over its first 2000 characters, and its own length tells whether it is the whole text or ends in the note |
| `Runner.TrimIsIdempotent` | judge/app/core/runner.py:15-20 | trimming a trimmed text again changes nothing, although it may be longer than the limit |
| `Scoring.FirstAcFound` | backend/django_app/apps/contests/services.py:66-69 | the accepted submission the query finds is an earliest one, and it is found whenever there is any |
| `Scoring.TotalAnyOrder` | backend/django_app/apps/contests/services.py:60-96 | the score does not depend on the order in which the problems come out of the query |
| `Scoring.TotalMeans` | backend/django_app/apps/contests/services.py:91-96 | points and solved count are the number of solved problems; last_ac_at is the latest first accepted answer, NULL iff nothing is solved |
| `Scoring.ScoreMeans` | backend/django_app/apps/contests/services.py:60-108 | the whole score in the contest's terms: 100 points for each problem with an accepted answer, the latest first accepted time, and as penalty the sum over the solved problems of whole minutes from the start and ten for each earlier WA, TLE, MLE, RE or CE |
| `Scoring.OneProblemCosts` | backend/django_app/apps/contests/services.py:71-89 | with one problem solved the penalty less ten per costly attempt is the number m of whole minutes, m * 60 s <= time < (m + 1) * 60 s |
| `Scoring.PenaltyMeans` | backend/django_app/apps/contests/services.py:63-92 | over any set of problems the penalty is the sum of the costs of the solved ones, unsolved ones adding nothing |
| `Scoring.FirstAccepted` | backend/django_app/apps/contests/services.py:66-69 | the query yields an accepted submission of the earliest time, or nothing when there is none |
| `Scoring.CalculateScore` | backend/django_app/apps/contests/services.py:42-108 | the loop over the problems, with any choice among equally early accepted answers, computes the score from scratch |
| `Scoring.Tables.Create` | backend/django_app/apps/submissions/signals.py:36-46 | a new submission has no verdict and changes no score row |
| `Scoring.Tables.ApplyResult` | backend/django_app/apps/submissions/management/commands/consume_judge_results.py:43-74 | a verdict is written once; an AC refreshes the author's row from scratch, any other verdict and any repeat leaves all rows alone |
| `Scoring.LandingIsExactIff` | backend/django_app/apps/submissions/signals.py:43-52 | from exact rows, one verdict landing leaves every row exact if and only if it is not a counted wrong verdict submitted before, but judged after, the accepted one |
| `Scoring.LateVerdictCosts` | backend/django_app/apps/contests/services.py:71-92 | whenever a verdict arrives too late, the stored row is short by exactly one wrong-attempt penalty and right in everything else |
| `Scoring.StoredScoreIsExact` | backend/django_app/apps/submissions/signals.py:36-52 | if verdicts land in submission order per user and problem, then after every step every stored row, or zeros where there is none, is the score from scratch |
| `Scoring.EmptyContestIsExact` | backend/django_app/apps/contests/services.py:55-58 | a contest without submissions starts exact |
| `Scoring.LateWrongVerdictIsLost` | backend/django_app/apps/contests/services.py:71-81 | a run from the empty contest, exact until then, after whose last verdict the stored penalty is one wrong attempt too low |
| `Ranking.OrdersAgree` | backend/django_app/apps/contests/services.py:129-133 | ORDER BY with NULLS LAST, the SQL filter with its NULL rules and the rating comparator are one order on results |
| `Ranking.DenseRankCountsKeys` | backend/django_app/apps/contests/services.py:173-182 | the dense rank of a row is one more than the number of distinct better results in the whole table |
| `Ranking.RanksAgree` | backend/django_app/apps/contests/services.py:185-210 | the single lookup gives every participant the rank of their leaderboard row and a stranger none; ranks start at 1 and step by 0 or 1 |
| `Ranking.EveryParticipantIsRanked` | backend/django_app/apps/contests/services.py:136-154 | on the joined table every participant has exactly one row, with their score or zeros and NULL, and the lookup gives its rank; whoever did not join has none |
| `Ranking.RankOrdersResults` | backend/django_app/apps/contests/services.py:165-171 | lower rank iff better result, equal rank iff equal result |
| `Ranking.BoardOrder` | backend/django_app/apps/contests/services.py:173-182 | of two rows the earlier has the better result, or the same result and the smaller id |
| `Ranking.LeaderboardIsUnique` | backend/django_app/apps/contests/services.py:176-181 | the final id key makes the row order unique, so pages of one table never overlap or skip |
| `Ranking.LeaderboardExists` | backend/django_app/apps/contests/services.py:173-182 | every finite table has such an order |
| `Ranking.HistoryAgreesUnlessTied` | backend/django_app/apps/contests/services.py:228-243 | the place in the contest history equals the leaderboard place if and only if no two rows ahead are tied, and is never smaller |
| `Ranking.HistoryRankIsNotDense` | backend/django_app/apps/contests/services.py:217-221 | a table on which the two places differ |
| `Elo.RanksAboveIsTotal` | backend/django_app/apps/users/services.py:46-61 | the comparator is irreflexive, asymmetric, total on distinct results and transitive, missing times included |
| `Elo.ExpectedComplement` | backend/django_app/apps/users/services.py:88 | the two sides of a duel expect exactly one point between them |
| `Elo.ExpectedOdds` | backend/django_app/apps/users/services.py:88 | what the two sides expect stands in the ratio the curve gives their rating difference, which with the complement leaves one expectation only |
| `Elo.ExpectedMonotone` | backend/django_app/apps/users/services.py:88 | a higher rating expects at least as much from the same opponent |
| `Elo.GainAntisymmetric` | backend/django_app/apps/users/services.py:83-92 | a duel pays one side what it takes from the other |
| `Elo.TotalPermutes` | backend/django_app/apps/users/services.py:68-72 | the sum over opponents does not depend on the order of the list |
| `Elo.TotalSkipsSelf` | backend/django_app/apps/users/services.py:86-87 | leaving the own entry out of the sum and leaving it in come to the same |
| `Elo.FieldIsZeroSum` | backend/django_app/apps/users/services.py:82-94 | over the whole field the unscaled gains sum to zero |
| `Elo.ChangesCancel` | backend/django_app/apps/users/services.py:94 | the unrounded changes of a field of two or more sum to zero |
| `Elo.DeltaRespectsResult` | backend/django_app/apps/users/services.py:64-96 | who finishes above an opponent rated no lower is paid at least as much, after rounding, in any field |
| `Elo.DeltaBound` | backend/django_app/apps/users/services.py:66-68 | no rounded change exceeds K_FACTOR either way, whatever the field size |
| `Elo.RatingDriftIsBounded` | backend/django_app/apps/users/services.py:94 | the rounded changes of a field of n sum to at most n/2 in absolute value |
| `Elo.RoundIsTheOne` | backend/django_app/apps/users/services.py:94 | the rounded value is the nearest integer and, of two equally near, the even one; no other integer is |
| `Elo.RoundMonotone` | backend/django_app/apps/users/services.py:94 | rounding half to even never swaps two values |
| `Elo.DeltasPermute` | backend/django_app/apps/users/services.py:71-72 | the resulting dictionary is the same for every order of the list |
| `Elo.TwoContestants` | backend/django_app/apps/users/services.py:82-96 | for two contestants the deltas directly from the curve and the result: 32 times result less expectation, rounded |
| `Elo.EvenField` | backend/django_app/apps/users/services.py:82-96 | among equals each is paid 16 times wins less losses per opponent, rounded |
| `Elo.SoleWinnerAndLast` | backend/django_app/apps/users/services.py:82-96 | among equals a sole winner is paid exactly 16 and a sole last place exactly -16, whatever the field size |
| `Elo.UpsetPaysItAll` | backend/django_app/apps/users/services.py:82-96 | a 1200 who finishes above a 2000 takes 32 from them |
| `Elo.PlayAll` | backend/django_app/apps/users/services.py:82-92 | the inner loop ends with actual minus expected equal to the summed gains |
| `Elo.ComputeEloDeltas` | backend/django_app/apps/users/services.py:64-96 | the nested loops fill exactly the specified dictionary, empty for fewer than two |
| `Ratings.EntriesPermute` | backend/django_app/apps/contests/services.py:302-322 | two listings of one rating set make the same entries up to order, each user once |
| `Ratings.Database.PayAll` | backend/django_app/apps/contests/services.py:386-414 | every listed user gets the new rating, peak and history point off the snapshot, and a score row with delta and new rating; nobody else changes |
| `Ratings.Database.ApplyContestRatings` | backend/django_app/apps/contests/services.py:338-429 | the database afterwards is the award of the specified deltas, a mere mark for fields under two, and unchanged for a rated contest |
| `Ratings.Database.AnnounceFinishedContest` | backend/django_app/apps/contests/tasks.py:292-317 | every participant has the contest-ended row afterwards, and exactly those who lacked it are returned |
| `Ratings.Database.ApplyFinishedContestRatings` | backend/django_app/apps/contests/tasks.py:133-165 | the loop over due contests with each failure isolated: exact database, counts, and exactly the newly told to ring |
| `Ratings.TaskRatesTheDue` | backend/django_app/apps/contests/tasks.py:140-162 | after a run every due contest whose transaction held is rated and told to all participants; a failed one and every other contest is just as before |
| `Ratings.AwardWrites` | backend/django_app/apps/contests/services.py:391-414 | each delta is stored once on a score row, added once to the rating, and the rating after stands beside it; results stay, and a new row has zeros |
| `Ratings.AwardIsTheFields` | backend/django_app/apps/contests/services.py:382-414 | against the score table: for any list of exactly those with a score row or a submission, each with the rating held and their own row's result or zeros, everybody's stored delta is the Elo change of their place in that list |
| `Ratings.BetterOfTwoTakesSixteen` | backend/django_app/apps/contests/services.py:302-322 | two contestants of one rating: the one whose result ranks above takes 16 from the other |
| `Ratings.CountsTheCommitted` | backend/django_app/apps/contests/tasks.py:150-153 | the contests reported as processed are those whose transaction held |
| `Ratings.PredictionCovers` | backend/django_app/apps/contests/services.py:508-520 | predictions exist for exactly those who would be rated, and for nobody once the contest is rated or with fewer than two |
| `Ratings.PredictionEqualsAward` | backend/django_app/apps/contests/services.py:490-520 | with nothing changed in between, whatever order either listing had, the predicted users and numbers are exactly the stored deltas and rating steps |
| `RatingLedger.LedgerBalances` | backend/django_app/apps/contests/services.py:357-429 | after any schedule of overlapping runs, rollbacks, late scores and submissions: rating = start + stored deltas, newest history point = rating, peak = maximum of start and history, rated contests told to every participant |
| `RatingLedger.StepKeepsLocks` | backend/django_app/apps/contests/services.py:358-379 | every step keeps: one run per contest row, disjoint user locks, and locked users unchanged since their snapshot |
| `RatingLedger.CommitStep` | backend/django_app/apps/contests/tasks.py:147-149 | a commit rates and announces its one contest together, touches only its members' users, or changes nothing |
| `RatingLedger.RatedOnceForAll` | backend/django_app/apps/contests/services.py:358-361 | a rated contest stays rated and its deltas never change again |
| `RatingLedger.FreshDatabaseIsSound` | backend/django_app/apps/contests/services.py:373-380 | a database nobody was rated in satisfies the ledger's invariant |
| `RatingLedger.CommitIsTheAward` | backend/django_app/apps/contests/services.py:382-425 | an undisturbed transaction is the sequential award followed by the announcement |
| `RatingLedger.UndisturbedRun` | backend/django_app/apps/contests/services.py:357-429 | the schedule of one transaction with nobody in between, from begin to commit, leaves the database of the sequential code, rating everyone with a score row or a submission |
| `RatingLedger.LateScoreKeepsTheDelta` | backend/django_app/apps/contests/services.py:98-108 | a score computed during a rating replaces the result of its user and keeps the stored delta and everybody else's row |
| `RatingDrift.CommitLeaks` | backend/django_app/apps/contests/services.py:391-414 | the deltas a commit stores sum to at most half a point per rated entry |
| `RatingDrift.DriftIsBounded` | backend/django_app/apps/contests/services.py:357-429 | over any schedule of overlapping runs, rollbacks and late scores, all ratings together move by at most half a point per rated entry |
| `RatingDrift.FreshDatabaseIsTight` | backend/django_app/apps/contests/services.py:373-380 | a database nobody was rated in starts without drift |
| `LeaderboardCache.ReadersSeeWhatWasSignalled` | backend/django_app/apps/submissions/signals.py:55-61 | in every schedule in which no set of the counter is overtaken and the key is not evicted, no request that starts after a signal is answered with older standings, and every page of a generation is at least as new as every commit whose bust led to it |
| `LeaderboardCache.RunKeepsFresh` | backend/django_app/apps/contests/cache.py:32-64 | the invariant behind it over whole runs: floors of generations, floors of readers and writers |
| `LeaderboardCache.KeyInPlaceIsInTime` | backend/django_app/apps/contests/cache.py:34-39 | with the key present and not evicted no schedule has an overtaken set |
| `LeaderboardCache.LateSeedServesStalePage` | backend/django_app/apps/contests/cache.py:35-38 | from an empty cache, over any standings, some schedule without eviction serves stale standings |
| `LeaderboardCache.SafeIff` | backend/django_app/apps/contests/cache.py:32-64 | the exact condition: from a fresh state no schedule short of an eviction ever serves stale standings if and only if the key is present and nobody is about to set it outright |
| `LeaderboardCache.PendingSetStrikes` | backend/django_app/apps/contests/cache.py:34-39 | from any state at all in which a set is pending, a schedule that serves stale standings is constructed |
| `LeaderboardCache.EvictionIsNeverSafe` | backend/django_app/apps/contests/cache.py:61-64 | from any state at all, losing the key opens the way to stale standings |
| `LeaderboardCache.Cache.GetGeneration` | backend/django_app/apps/contests/cache.py:32-39 | one or two events of the protocol: the request ends up keyed with the stored counter, a present counter is not touched, so calls agree until a bust or an eviction, and freshness is kept |
| `LeaderboardCache.Cache.Bust` | backend/django_app/apps/contests/cache.py:53-64 | the bust of one writer as protocol events, the missing key included; from a fresh cache no stored page answers any request afterwards |
| `LeaderboardCache.Cache.Publish` | backend/django_app/apps/submissions/signals.py:55-61 | bust, then signal: afterwards the commit is signalled and, from a fresh cache, no page stored before it answers any request |
| `LeaderboardCache.Cache.Leaderboard` | backend/django_app/apps/contests/views.py:271-303 | the view as protocol events: a hit answers with the stored page, a miss with the present standings, which it stores; from a fresh cache the answer is at least as new as everything signalled before |
| `ContestSocket.NoLostContestEnded` | backend/django_app/apps/realtime/consumers/contest.py:49-56 | every interleaving: a socket that completed connect has one event waiting for each broadcast step in the schedule so far and is told when it handles one; a closed one was told |
| `ContestSocket.TaskTellsTheWaiting` | backend/django_app/apps/contests/tasks.py:140-160 | once a contest is over, one run of the task from selection to broadcast leaves every waiting socket with the event, and its handler passes it on |
| `ContestSocket.ToldOnlyWhenRated` | backend/django_app/apps/contests/tasks.py:155-160 | nobody is told before the contest is over and its ratings are committed |
| `ContestSocket.Consumer.Connect` | backend/django_app/apps/realtime/consumers/contest.py:27-56 | the close codes; the recorded stages join, accept, check in that order; open exactly for an admitted participant of an unrated contest |
| `ContestSocket.Consumer.ContestEnded` | backend/django_app/apps/realtime/consumers/contest.py:69-71 | the event is passed on once and the socket closes |
| `NotificationFeed.MergeAddsTheMissing` | frontend/src/hooks/useNotificationFeed.js:9-15 | merging adds exactly the unknown rows, in the order of the page and marked fresh when unseen, keeps the list as a block with its marks, and never repeats an id |
| `NotificationFeed.FeedHasNoGaps` | frontend/src/hooks/useNotificationFeed.js:43-98 | every interleaving of loads, rings, pages, arrivals, failures and stale answers: ids unique, the mount-time rows held are always the newest ones without a gap, and "no more" means all of them |
| `NotificationFeed.FetchIsNeverStuck` | frontend/src/hooks/useNotificationFeed.js:79-97 | whenever the panel holds back further pages, a page of the present load is on its way or waiting to land |
| `FeedOrder.RowsStandInOrder` | frontend/src/hooks/useNotificationFeed.js:43-98 | in every schedule in which answers with the newest page land in the turn they were taken, the mount-time rows on screen stand in the order of the mount-time feed |
| `FeedOrder.RingKeepsOrderIff` | frontend/src/hooks/useNotificationFeed.js:65-73 | a ring's page put on top keeps that order if and only if no mount-time row is on screen yet or the page brings none that is missing |
| `FeedOrder.BelowKeepsOrder` | frontend/src/hooks/useNotificationFeed.js:48-54 | a page put below always keeps it |
| `FeedOrder.OvertakenRingTurnsRowsRound` | frontend/src/hooks/useNotificationFeed.js:65-73 | a schedule in which a ring's answer, overtaken by the first load, puts the older of two rows on top |
| `NotificationFeed.RowsAndMarksStay` | frontend/src/hooks/useNotificationFeed.js:24-27 | until the list is started over, what is on screen stays, in order and with its mark |
| `NotificationFeed.StepKeepsOk` | frontend/src/hooks/useNotificationFeed.js:66-98 | the invariant of the panel and its requests in flight survives every event |
| `NotificationFeed.Hook.Load` | frontend/src/hooks/useNotificationFeed.js:43-47 | a (re)load clears the list and makes every earlier answer stale |
| `NotificationFeed.Hook.OnFirst` | frontend/src/hooks/useNotificationFeed.js:48-55 | page 1 is merged below what is there, unless stale |
| `NotificationFeed.Hook.OnRing` | frontend/src/hooks/useNotificationFeed.js:70-73 | a ring's page is merged on top, unless stale, and moves neither page number nor hasMore |
| `NotificationFeed.Hook.LoadMorePage` | frontend/src/hooks/useNotificationFeed.js:79-84 | asks for the page after the last landed one, one request at a time and only while there is more |
| `NotificationFeed.Hook.OnMore` | frontend/src/hooks/useNotificationFeed.js:85-97 | a later page advances the counter and is appended, unless stale |
| `NotificationFeed.Hook.OnFailure` | frontend/src/hooks/useNotificationFeed.js:92-97 | a failure is shown except for rings, frees the fetch, and is ignored when stale |
| `Announcements.ByNameIff` | backend/django_app/apps/problems/notifications.py:83-106 | who is aimed at by name: exactly the active non-staff users who took part in no finished contest with the problem, for exactly the known problems of the batch |
| `Announcements.BySummaryIff` | backend/django_app/apps/problems/notifications.py:84-116 | who is aimed at by a summary, and under which key: exactly the active non-staff entrants of a finished contest that had some problem of the batch, with the digest of those it had |
| `Announcements.EveryoneIsCovered` | backend/django_app/apps/problems/notifications.py:83-116 | every active non-staff user gets each problem's own row, or entered a finished contest with it and gets that contest's summary for this batch |
| `Announcements.NobodyIsToldTwice` | backend/django_app/apps/problems/notifications.py:99-110 | nobody is aimed at both by name and by summary for one problem |
| `Announcements.NotificationTable.AnnounceTwice` | backend/django_app/apps/notifications/services.py:66-93 | a batch announced, another batch, then the first again in any order: the last call leaves the table as it is and rings nobody |
| `Announcements.LaterBatchIsNewsIff` | backend/django_app/apps/problems/notifications.py:22-31 | of two batches with problems of one contest, the later is a new row for its entrants if and only if the digests of the two problem sets differ |
| `Announcements.NotificationTable.CreateBulk` | backend/django_app/apps/notifications/services.py:41-93 | afterwards everyone has the row, and exactly those who lacked it are returned |
| `Announcements.NotificationTable.AnnounceNewProblems` | backend/django_app/apps/problems/notifications.py:34-119 | the table grows by exactly the rows aimed at, and exactly those with a new row are rung |
| `Announcements.NotificationTable.TellByName` | backend/django_app/apps/problems/notifications.py:75-106 | the first loop: by-name rows for everyone but the insiders, and the dictionaries of contests met |
| `Announcements.NotificationTable.Summarise` | backend/django_app/apps/problems/notifications.py:108-116 | the second loop: one summary per contest to its entrants in the audience |
| `Announcements.MeetContests` | backend/django_app/apps/problems/notifications.py:84-97 | the inner loop: the insiders are the entrants of all finished contests of the problem, remembered with what the batch owes them |
| `DailyProblem.PickProblem` | backend/django_app/apps/problems/tasks.py:54-81 | some problem the two queries allow is returned |
| `DailyProblem.PickIff` | backend/django_app/apps/problems/tasks.py:64-81 | which problems those are, in terms of the days: any visible one not used on the last seven days if there is one, otherwise any whose last use no visible problem's last use precedes |
| `DailyProblem.FallbackMeetsNoNull` | backend/django_app/apps/problems/tasks.py:74-80 | in the fallback every visible problem has a last use within the window |
| `DailyProblem.DaysHoldOneEach` | backend/django_app/apps/problems/tasks.py:41-44 | problems last used within a stretch of days are no more than the days |
| `DailyProblem.PickKeepsDistance` | backend/django_app/apps/problems/tasks.py:54-81 | with k visible problems the pick was not the daily on any of the previous min(k, 8) - 1 days, whichever branch it came from |
| `DailyProblem.DailyTable.Assign` | backend/django_app/apps/problems/tasks.py:30-51 | one row per day, never changed; nothing when the day has one or no problem is visible |
| `DailyProblem.RunKeepsDistance` | backend/django_app/apps/problems/tasks.py:18-51 | over any run with at least k visible problems, two days closer than min(k, 8) never share their problem |
| `ContestLetters.IndexToLetter` | frontend/src/utils/contestLetters.js:7-13 | the loop terminates with the label of the position, empty for negative ones |
| `ContestLetters.LetterToIndex` | frontend/src/utils/contestLetters.js:18-25 | the fold computes the position, -1 for anything that is not a non-empty run of letters |
| `ContestLetters.IndexRoundTrip` | frontend/src/utils/contestLetters.js:7-25 | every position is found again from its label |
| `ContestLetters.LetterRoundTrip` | frontend/src/utils/contestLetters.js:15-25 | every word of letters, in either case, is in upper case the label of the position it names |
| `ContestLetters.NamesExactly` | frontend/src/utils/contestLetters.js:15-25 | a word names a position if and only if it is that position's label, case aside |
| `ContestLetters.OnlyLettersName` | frontend/src/utils/contestLetters.js:18-19 | a word is answered -1 if and only if it is empty or holds something other than a letter |
| `ContestLetters.LabelsAscend` | frontend/src/utils/contestLetters.js:6-13 | labels come shorter first and alphabetically within one length |

## Left out

- Docker: `sweep_sandboxes`, container limits and what a run returns are parameters; a sandbox run may return anything or raise.
- The endless loops of `worker_loop` and `maintenance_loop`: their iterations are the events of `JudgeQueue` and the methods of `JudgeWorker`, with no fairness assumed, so nothing is said about when a payload is judged.
- The timing of heartbeats and counters: expiry is an event that may come at any moment; TTL lengths are not modelled.
- JudgeWorker.Redis.RecoverOrphans: takes the list of keys SCAN yields as given and runs without interleaving; the interleaved sweep is in `JudgeQueue`.
- The queue between the judge and the web side (`consume_judge_results`): only the write-once rule of `apply_result` is modelled.
- Runner.RunSubmission: limits and language of a request are left to the sandbox parameter; its order and results are kept.
- Floating point: ratings are computed over exact reals, and 10^(d/400) enters by three properties (positive, reciprocal at -d, increasing).
- Unicode: Python strings are sequences of scalar values; whitespace and line breaks are listed by code point.
- JavaScript's 2^53 limit: positions are unbounded integers.
- Rating-changed and rank-changed notifications, `get_rank`, and ringing them: the award is modelled without these rows.
- RatingLedger.LedgerBalances: locks of all users of a contest are taken in one step, and a run whose insert meets a score row that appeared meanwhile is taken to roll back.
- Rejudging, admin edits of ratings, rosters and rows, deletions and retention: not events of any module.
- Scoring.Tables.Create: a submission that is created with a verdict already set is not modelled; only the judge writes verdicts.
- Ranking.HistoryAgreesUnlessTied: is about score rows as scoring leaves them (a last accepted time exactly when there are points), so the NULL branch of the history query matters only for rows without points.
- LeaderboardCache.Cache.Leaderboard: predicted deltas inside cached pages are left out, and so are join and leave during a round; neither busts the cache, so only scores, ranks and stored deltas are covered.
- The page lifetime of ten seconds: expiry of a page is an event that may come at any moment.
- ContestSocket: the channel layer delivers to every joined channel and loses nothing; `leaderboard_update` is not modelled.
- `SubmissionConsumer`: reads before joining, and its client polls; no promise to prove.
- Announcements: the digest in the summary key is some function of the set of problems, and nothing is assumed of it; texts and links are left out.
- `notify_users` giving up at its first failure: who is to be rung is modelled, the ringing is not.
- NotificationFeed.FeedHasNoGaps: rows are never deleted from the server's feed while a panel is open; the `loading` flag is left out.
- NotificationFeed.Hook.Load: clearing the list and bumping the generation are one step here; in the hook `reload` clears and the effect after the next render bumps, and an answer of the old generation that lands in between is not modelled.
- DailyProblem.PickKeepsDistance: assumes no daily row dated today or later, as the task itself leaves the table.
- Authentication, tickets, e-mail, image processing, search, admin forms, serializers and React rendering.
