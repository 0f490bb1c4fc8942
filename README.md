# Betting platform core, modelled in Dafny

This project models the bet lifecycle of a sports-betting back end written in TypeScript:

- A player places single or combo wagers from a bet slip. The stake is debited and the
  possible win is the stake times the product of the legs' decimal odds.
- Each leg waits in a Redis sorted set (`waitingQueue`) scored by its start time.
- When the event starts, a worker moves the leg onto a Redis list (`processingQueue`).
- A second worker settles the legs of completed games with four market rules (h2h,
  spreads, totals, outrights), then derives the parent bet's status and pays the player.
- Around this sit manual resolution and stake edits by an administrator, early
  redemption at the current odds less a commission, credit transfers between an agent
  and a subordinate account, the player's in-memory bet slip, the role hierarchy, and
  the filters the odds catalogue applies.

How the model is built:

- The Mongo store is a value `Records.Db`, one map per collection and the transaction
  log as a sequence.
- Each request handler is one step from a store to a store. Among the bet handlers only
  `placeBet` runs its store writes inside one Mongo session, so its rejections write
  nothing. `performTransaction` also runs in one session, so a rejected transfer writes
  nothing either. `resolveBet`
  and `redeemPlayerBet` open no session, and `updateBet` opens one only for its patch
  block. Where such a handler writes and then answers with an error, the write stays:
  `resolveBet`, for example, saves the leg before it answers 404 for a missing parent,
  and the model does the same.
- The two Redis structures are classes: `WaitingQueue.SortedSet` with a member-to-score
  map, and `ProcessingQueue.Queue` with a sequence whose head is the LPUSH end. Workers
  and handlers change them in place.
- The player's socket object, `PlayerSocket.Player`, is a class with the slip map and
  its insertion order. The socket module's global maps form `SocketState.Registry`.
- Odds and credits are `real` and scores are `int`.
- Odds-API responses, the clock, thrown I/O errors and the odds feed are parameters.

Several behaviours of the code are reproduced as written, not corrected:

- h2h pays a tie only to the lower-case selection `"draw"`, yet aggregation looks for
  `'Draw'`.
- Aggregation pays again whenever it reaches a paying branch; it never checks
  `isResolved`.
- A negative stake passes every check at placement.
- Waiting-set scores are stored in seconds but queried with a bound in milliseconds, so
  the commence-time test inside the loop is the real gate.
- The redemption pays the calling player and never checks that the bet is theirs.

## Model

| member | source | states |
|---|---|---|
| Settlement.ScoreOf | src/workers/processingQueueWorker.ts:356-357 | `find(...)?.score` is `undefined` exactly when no entrant has the name; otherwise it is the score of an entrant of that name |
| Settlement.CheckH2HBetResult | src/workers/processingQueueWorker.ts:346-369 | pending iff the game is not completed; failed iff it is completed and a team score is undefined; never redeem; draw only for a selection other than `"draw"` |
| Settlement.H2HDecided | src/workers/processingQueueWorker.ts:363-368 | on a scored game a tie gives won iff the selection is `"draw"` and draw otherwise; an untied game gives won iff the selection is the higher-scoring team, else lost |
| Settlement.H2HCapitalDrawIsNotWon | src/workers/processingQueueWorker.ts:364 | the capitalised `'Draw'` on a tied game settles as draw, not won |
| Settlement.H2HOneWinner | src/workers/processingQueueWorker.ts:367-368 | two selections on different names never both win one h2h game |
| Settlement.CheckSpreadBetResult | src/workers/processingQueueWorker.ts:371-419 | pending iff not completed; failed iff completed without both scores; a win needs a team selection with a line |
| Settlement.SpreadDecided | src/workers/processingQueueWorker.ts:386-418 | with d = home − away: draw iff \|d\| = \|points\|; a favourite line wins iff d > \|points\| (home) or d < −\|points\| (away); an underdog line wins iff d ≥ points (home) or d ≤ points (away); else lost |
| Settlement.SpreadWithoutLineLoses | src/workers/processingQueueWorker.ts:386-418 | a scored leg with no line is lost |
| Settlement.SpreadSidesComplementary | src/workers/processingQueueWorker.ts:386-418 | home and away on the same favourite line never both win |
| Settlement.SpreadHomeUnderdogNeedsMargin | src/workers/processingQueueWorker.ts:405-409 | a home underdog at +p that draws or loses by less than p is lost (the code needs d ≥ p) |
| Settlement.CheckTotalsBetResult | src/workers/processingQueueWorker.ts:421-456 | failed iff completed with a missing or negative score; pending iff not completed, or not failed, not a push, and not `"Over"`/`"Under"`; a win needs Over or Under with a line |
| Settlement.TotalsDecided | src/workers/processingQueueWorker.ts:437-455 | on a valid score: draw iff the total equals the line; Over wins iff total > line; Under wins iff total < line; otherwise lost |
| Settlement.TotalsSidesComplementary | src/workers/processingQueueWorker.ts:437-455 | Over and Under on the same line both push, or exactly one wins and the other loses |
| Settlement.MaxScore | src/workers/processingQueueWorker.ts:478 | `Math.max` of the scores with null as 0: an upper bound that some entrant attains |
| Settlement.Leaders | src/workers/processingQueueWorker.ts:479 | exactly the entrants whose score is the maximum (a null score never is) |
| Settlement.LeadersNonEmpty | src/workers/processingQueueWorker.ts:470-479 | with a valid selection score the leader list is not empty |
| Settlement.CheckOutrightsBetResult | src/workers/processingQueueWorker.ts:458-498 | pending iff not completed; failed for an unknown selection or a null or negative selection score |
| Settlement.OutrightsDecided | src/workers/processingQueueWorker.ts:478-497 | a shared maximum gives draw iff the selection holds it, else lost; a sole maximum gives won iff the selection holds it, else lost |
| Settlement.OutrightsOneWinner | src/workers/processingQueueWorker.ts:478-497 | two different entrants never both win one outright market |
| Settlement.ResultFor | src/workers/processingQueueWorker.ts:174-192 | the category switch calls the matching rule; an unknown category returns without a result |
| Settlement.Classify | src/workers/processingQueueWorker.ts:243-321 | first match wins: lost iff any leg lost; failed iff none lost and some failed; lost on a draw not backed by all `'Draw'` selections; won iff all won; draw iff all drawn and all `'Draw'`; otherwise unresolved |
| Settlement.ParentStatus | src/workers/processingQueueWorker.ts:250-321 | the unresolved branch writes no status; lost is written exactly by the first and third branches |
| Settlement.PaidParentHasNoOpenLeg | src/workers/processingQueueWorker.ts:290-317 | a paid parent has no lost, failed or pending leg |
| Settlement.DrawnTeamLegLosesParent | src/workers/processingQueueWorker.ts:277-289 | a single drawn leg on a team name makes the parent lost |
| Settlement.TiedDrawSelectionPaysAsDraw | src/workers/processingQueueWorker.ts:305-317 | a lone `'Draw'` leg on a tied h2h game settles as draw and the parent is paid as drawn |
| Settlement.PendingLegKeepsParentOpen | src/workers/processingQueueWorker.ts:318-321 | a pending leg with no lost, failed or drawn leg leaves the parent unresolved |
| ProcessingWorker.AwardWinningsToPlayer | src/workers/processingQueueWorker.ts:324-344 | the player gains exactly the amount, every other player and collection is unchanged, and a missing player changes nothing |
| ProcessingWorker.CheckAndUpdateParentBet | src/workers/processingQueueWorker.ts:242-322 | writes the status and resolved flag of the classified branch and pays only on won and draw; legs, scores, users and transfers are unchanged |
| ProcessingWorker.CreditsMoveOnlyOnPayout | src/workers/processingQueueWorker.ts:293-317 | credits change only on a paying branch, and then only the parent's player gains, by exactly the possible win |
| ProcessingWorker.RepeatedAggregationPaysTwice | src/workers/processingQueueWorker.ts:293-307 | aggregating an already-paid parent again credits the player a second time |
| ProcessingWorker.UpsertScore | src/workers/processingQueueWorker.ts:149-157 | the score record of the game is inserted or replaced and nothing else changes |
| ProcessingWorker.MarkFailedIdempotent | src/workers/processingQueueWorker.ts:210-215 | marking a leg failed twice equals marking it once |
| ProcessingWorker.Attempt | src/workers/processingQueueWorker.ts:142-205 | one attempt upserts the score and then returns early with nothing else changed, or writes the result to the leg as resolved and aggregates the parent once |
| ProcessingWorker.CompletedBetSpec | src/workers/processingQueueWorker.ts:134-240 | a missing leg changes nothing; it rethrows iff three attempts throw; then the leg is failed and unresolved, the parent failed and unresolved, and no credits move |
| ProcessingWorker.UnsettledResultChangesOnlyScores | src/workers/processingQueueWorker.ts:194-197 | a pending or failed result leaves the leg as it was and only stores the score |
| ProcessingWorker.FinalResultResolvesLeg | src/workers/processingQueueWorker.ts:199-205 | a final result is written to the leg with `isResolved` true, and the parent is aggregated |
| ProcessingWorker.ProcessCompletedBet | src/workers/processingQueueWorker.ts:134-240 | the retry loop ends in the state `CompletedBetSpec` states |
| ProcessingWorker.SettleLeg | src/workers/processingQueueWorker.ts:109-124 | the processed leg leaves the processing list whether it settled or threw |
| ProcessingWorker.SettleLegs | src/workers/processingQueueWorker.ts:107-126 | settling a game's legs only removes entries from the list and never aborts |
| ProcessingWorker.SettleLegsRemovesAll | src/workers/processingQueueWorker.ts:105-126 | every leg processed for a game has left the list |
| ProcessingWorker.EventLegs | src/workers/processingQueueWorker.ts:106 | exactly the bets on the game's event |
| ProcessingWorker.ProcessLegs | src/workers/processingQueueWorker.ts:107-126 | the leg loop ends in the state `SettleLegs` states |
| ProcessingWorker.SettleGames | src/workers/processingQueueWorker.ts:105-127 | settling a sport's completed games only removes entries and never aborts |
| ProcessingWorker.ProcessGames | src/workers/processingQueueWorker.ts:105-127 | the game loop ends in the state `SettleGames` states |
| ProcessingWorker.SettleGamesRemovesMatched | src/workers/processingQueueWorker.ts:105-127 | every bet on a processed completed game has left the list |
| ProcessingWorker.SportStep | src/workers/processingQueueWorker.ts:94-128 | one sport settles its completed games, or ends the sweep when its scores request throws |
| ProcessingWorker.SportStepRemovesMatched | src/workers/processingQueueWorker.ts:98-127 | a sport step that does not abort removes every bet on each of its completed games |
| ProcessingWorker.SettleSports | src/workers/processingQueueWorker.ts:92-132 | the sweep over sports only removes entries, and once aborted changes nothing more |
| ProcessingWorker.SettleSportsRemovesMatched | src/workers/processingQueueWorker.ts:92-132 | a sweep that ran to the end removed every bet on a completed game of a processed sport |
| ProcessingWorker.ProcessBets | src/workers/processingQueueWorker.ts:92-132 | the nested loops end in the state `SettleSports` states |
| ProcessingWorker.AbortedSweepStops | src/workers/processingQueueWorker.ts:129-131 | once a scores request throws, the remaining sports are skipped |
| ProcessingWorker.OpenLegs | src/workers/processingQueueWorker.ts:64-75 | exactly the pending queue entries that have a sport |
| ProcessingWorker.SportsOf | src/workers/processingQueueWorker.ts:69-77 | exactly the sports of the collected entries, each listed once |
| ProcessingWorker.DropStale | src/workers/processingQueueWorker.ts:71-73 | exactly the entries that are not stale remain |
| ProcessingWorker.CollectQueue | src/workers/processingQueueWorker.ts:64-77 | collects the open entries in order with their distinct sports, and removes every stale entry from the list |
| ProcessingWorker.ProcessBetsFromQueue | src/workers/processingQueueWorker.ts:54-90 | collects, then processes the open entries if there are any |
| ProcessingWorker.SweepOutcome | src/workers/processingQueueWorker.ts:54-132 | afterwards the list holds only earlier entries, none stale and, unless a scores request threw, none open on a completed game of its sport |
| WaitingQueue.SecondsScore | src/bets/betController.ts:292 | the score is the commence time in milliseconds divided by 1000 |
| WaitingQueue.FetchedLongBeforeDue | src/workers/waitingQueueWorker.ts:27-36 | a start anywhere up to 1000 × now (in ms) gives a seconds score inside the fetch range [0, now], so far-future members are fetched long before they are due |
| WaitingQueue.Without | src/utils/WaitingQueue.ts:21 | ZREM: the member is gone and every other member keeps its score |
| WaitingQueue.WithoutIdempotent | src/utils/WaitingQueue.ts:21 | removing twice equals removing once, and removing an absent member is a no-op |
| WaitingQueue.MemberIdentity | src/utils/WaitingQueue.ts:3-20 | a member rebuilt with another commence time is a different member and leaves the original in place |
| WaitingQueue.SortedSet.Add | src/bets/betController.ts:298-302 | ZADD sets the member's score |
| WaitingQueue.SortedSet.Remove | src/utils/WaitingQueue.ts:12-22 | the set becomes `Without(old set, member)` |
| WaitingQueue.SortedSet.RangeByScore | src/workers/waitingQueueWorker.ts:28 | exactly the members scored in [lo, hi], each once, in ascending score order |
| ProcessingQueue.NextOut | src/utils/ProcessingQueue.ts:11-13 | RPOP's item: null for an empty list, else the last element |
| ProcessingQueue.RemoveAll | src/utils/ProcessingQueue.ts:29-31 | LREM 0: no copy of the item is left, and the rest keep their order and multiplicity |
| ProcessingQueue.RemoveAllIdempotent | src/utils/ProcessingQueue.ts:29-31 | removing twice equals removing once |
| ProcessingQueue.RemoveAllAfterPush | src/utils/ProcessingQueue.ts:6-31 | removing an item commutes with LPUSH of a different one |
| ProcessingQueue.DrainAppend | src/utils/ProcessingQueue.ts:6-13 | popping a concatenation pops the back part first, then the front part |
| ProcessingQueue.FifoOrder | src/utils/ProcessingQueue.ts:6-13 | items pushed after the current contents are popped after them, in push order |
| ProcessingQueue.Queue.Enqueue | src/utils/ProcessingQueue.ts:6-8 | LPUSH prepends, and the size grows by one |
| ProcessingQueue.Queue.Dequeue | src/utils/ProcessingQueue.ts:11-13 | returns `NextOut`; an empty list stays empty; otherwise the last element is removed and the size shrinks by one |
| ProcessingQueue.Queue.Peek | src/utils/ProcessingQueue.ts:16-19 | the item the next dequeue returns, or null; the list is unchanged |
| ProcessingQueue.Queue.GetAll | src/utils/ProcessingQueue.ts:21-23 | the whole list, head first |
| ProcessingQueue.Queue.Size | src/utils/ProcessingQueue.ts:25-27 | the length of the list |
| ProcessingQueue.Queue.RemoveItem | src/utils/ProcessingQueue.ts:29-31 | the list becomes `RemoveAll(old list, item)`, and the count returned is how many copies there were |
| ProcessingQueue.Queue.CheckIfBetIsInProcessingQueue | src/utils/ProcessingQueue.ts:34-47 | true iff some element's `_id` equals the id |
| WaitingWorker.Promotions | src/workers/waitingQueueWorker.ts:30-63 | the leg snapshots pushed: each due fetched member with both records and no failure, in fetch order |
| WaitingWorker.PromotionsCover | src/workers/waitingQueueWorker.ts:36-54 | every due, promotable fetched member contributes its leg snapshot |
| WaitingWorker.Promoted | src/workers/waitingQueueWorker.ts:30-54 | exactly the fetched members that are due, have both records and whose MULTI does not fail |
| WaitingWorker.PromotionsOfPromoted | src/workers/waitingQueueWorker.ts:39-51 | the i-th pushed snapshot is the stored leg of the i-th promoted member |
| WaitingWorker.PromotedOnceInOrder | src/workers/waitingQueueWorker.ts:28-54 | from a fetch that lists each member once in ascending score order, each member is promoted at most once, and in ascending score order |
| WaitingWorker.CheckBetsCommenceTime | src/workers/waitingQueueWorker.ts:26-64 | fetches the members scored in [0, now], each once and in ascending score order; removes exactly the due ones; pushes `Promotions`, which come out of the processing list after its earlier contents and in fetch order |
| WaitingWorker.SweepLeavesOnlyFuture | src/workers/waitingQueueWorker.ts:30-63 | no due fetched member is left waiting, and every member kept keeps its score |
| SocketState.DropMember | src/players/playerSocket.ts:98-104 | the value leaves the key's set, and the key is deleted once its set is empty |
| SocketState.AddMember | src/players/playerSocket.ts:67-70 | the key's set, created if absent, gains the value |
| PlayerSocket.GenerateBetId | src/players/playerSocket.ts:194-196 | the key is the event id, name, category and odds joined by `_` |
| PlayerSocket.GenerateBetIdSeparatesEvents | src/players/playerSocket.ts:194-196 | entries on different events with ids of equal length get different keys |
| PlayerSocket.NewBalance | src/players/playerSocket.ts:205-212 | a credit adds the amount; a debit subtracts it and clamps at 0 |
| PlayerSocket.DebitClampLosesTheExcess | src/players/playerSocket.ts:207-211 | an overdrawing debit empties the balance, and crediting the same amount back does not restore it |
| PlayerSocket.Unlist | src/players/playerSocket.ts:94 | the insertion order without the removed key |
| PlayerSocket.UnlistDistinct | src/players/playerSocket.ts:94 | removing a key from a duplicate-free insertion order keeps it duplicate-free |
| PlayerSocket.Player.constructor | src/players/playerSocket.ts:22-37 | an empty slip for the given player |
| PlayerSocket.Player.AddBetToSlip | src/players/playerSocket.ts:55-72 | a known id changes nothing; otherwise the slip gains the entry, the sport's rooms are reset to the one event, and `playerBets` and the stored event rooms gain the event |
| PlayerSocket.Player.JoinEventRoom | src/players/playerSocket.ts:485-532 | both event-room maps gain the event under the sport, and the current room is `sport:event` |
| PlayerSocket.Player.UpdateBetAmount | src/players/playerSocket.ts:75-88 | only the amount of the entry under the generated key changes, and only if that key is present |
| PlayerSocket.Player.RemoveBetFromSlip | src/players/playerSocket.ts:90-154 | an absent id only reports an error; otherwise exactly that entry goes, `playerBets` drops the event, and, when no other entry is on the same sport and event, both room maps drop it; the slip and room maps together are `Removal` of the old ones |
| PlayerSocket.Removal | src/players/playerSocket.ts:90-154 | the same removal on values: an absent id changes nothing; otherwise the slip loses exactly that id and its order loses exactly that id |
| PlayerSocket.Player.RemoveAllBetsFromSlip | src/players/playerSocket.ts:156-187 | the slip ends empty; only the first entry's event leaves `playerBets` (under the user id); the room maps, the cached balance and the current room are unchanged |
| PlayerSocket.Player.UpdateBalance | src/players/playerSocket.ts:198-222 | a missing player changes nothing; otherwise the record and the cached balance take `NewBalance` |
| StoreController.CompletedGames | src/store/storeController.ts:101-103 | exactly the completed games |
| StoreController.FutureGames | src/store/storeController.ts:105-108 | exactly the games after the end of today that are not completed |
| StoreController.GetScoresForProcessing | src/store/storeController.ts:84-113 | the two lists as above, which never share a game |
| StoreController.CompletedGamesAppend | src/store/storeController.ts:101-103 | filtering keeps input order: the filter of a concatenation is the concatenation of the filters |
| StoreController.CompletedById | src/store/storeController.ts:151-167 | true only if a score with the id is completed |
| StoreController.ProcessedData | src/store/storeController.ts:149-171 | one listing per odds event, in order |
| StoreController.Filter | src/store/storeController.ts:174-197 | exactly the listings that satisfy the predicate |
| StoreController.GetOdds | src/store/storeController.ts:116-204 | the live, today's upcoming, future and completed lists as the four filters of the processed data |
| StoreController.PartitionExact | src/store/storeController.ts:174-197 | with start of today ≤ now ≤ end of today, a listed event is in exactly one list; an empty `{}` entry is in no list that needs a start time |
| StoreController.Lower | src/store/storeController.ts:287 | `toLowerCase` on ASCII letters, character by character |
| StoreController.Matching | src/store/storeController.ts:285-308 | exactly the events whose home or away team contains the query, case-insensitively |
| StoreController.FilterEvents | src/store/storeController.ts:285-292 | the pushing loop yields `Matching` |
| StoreController.SearchEvent | src/store/storeController.ts:273-310 | an empty query returns the whole odds view; otherwise the live, today's and future lists, each filtered by `Matching` |
| StoreController.MatchingIgnoresCase | src/store/storeController.ts:287-288 | a query and its lower-case form select the same events |
| StoreController.LowerIdempotent | src/store/storeController.ts:287 | lowering twice equals lowering once |
| StoreController.AllEntries | src/store/storeController.ts:335 | at least one entry per sport |
| StoreController.GroupEntries | src/store/storeController.ts:330-334 | exactly the entries of the sports of that group |
| StoreController.Groups | src/store/storeController.ts:330-341 | each group other than `All`, once, by first appearance |
| StoreController.Categories | src/store/storeController.ts:338-341 | `All` first, then one category per group with its entries |
| StoreController.AllListsEverySport | src/store/storeController.ts:327-336 | with no sport grouped as `All`, the `All` category lists every sport once, in input order |
| StoreController.GetCategories | src/store/storeController.ts:312-348 | the filling loop yields `Categories` |
| StoreController.GetCategorySports | src/store/storeController.ts:350-367 | `all` in any case gives every active sport; another value gives the active sports of that group |
| StoreController.FindSport | src/store/storeController.ts:247-249 | the first flattened entry with the key, or none when there is none |
| StoreController.EventOddsRequest | src/store/storeController.ts:246-252 | `outrights` iff the sport's `has_outrights` is set, else `h2h,spreads,totals`; the region is `us` |
| StoreController.CacheDuration | src/store/storeController.ts:47-51 | 43200 s for `sportsList`, 30 s otherwise |
| StoreController.ResponseCache.FetchFromApi | src/store/storeController.ts:30-65 | a non-empty cached value is returned without fetching; otherwise the fetched text is cached with `CacheDuration`, or the call fails |
| StoreController.RemoveInactiveRooms | src/store/storeController.ts:400-418 | the active rooms become their intersection with the adapter's rooms, and the set is returned |
| Utils.AllowedRoles | src/utils/utils.ts:16-47 | admin manages distributor, subdistributor, agent and player; each lower role manages only the next one down; any other role manages none |
| Utils.HierarchyDescends | src/utils/utils.ts:16-21 | every managed role is strictly lower, so no role manages itself |
| Utils.HasPermission | src/utils/utils.ts:26-51 | true iff the three arguments are non-empty, the requester exists, the target exists (created by the requester unless they are an admin), and the target's role is allowed |
| Utils.TargetLookup | src/utils/utils.ts:39-44 | the target is found iff it exists and the requester is an admin or created it, and then it is the stored account |
| Records.SetBetStatus | src/workers/processingQueueWorker.ts:250-317 | the status and resolved flag of one bet are written; a missing id changes nothing |
| Records.SetBetResolved | src/workers/processingQueueWorker.ts:318-321 | only the resolved flag of one bet is written; a missing id changes nothing |
| Records.SetDetailStatus | src/workers/processingQueueWorker.ts:199-214 | the status and resolved flag of one leg are written |
| Records.AddCredits | src/workers/processingQueueWorker.ts:327-338 | one player's credits change by the delta; a missing player is left alone |
| Records.FoundDetails | src/workers/processingQueueWorker.ts:243 | the stored legs of the ids that exist, each found id contributing its leg; no order is stated, as `$in` promises none, and every caller only asks whether some or all legs have a status |
| BetController.WithDetailStatus | src/bets/betController.ts:739-745 | only the leg's status is written |
| BetController.WithBetStatus | src/bets/betController.ts:788-789 | only the bet's status is written |
| BetController.MembersOf | src/bets/betController.ts:604-609 | one waiting-set member per leg |
| BetController.OddsProductAtLeastOne | src/bets/betController.ts:192-198 | decimal odds of at least 1 multiply to at least 1 |
| BetController.ScheduleBetDetailJob | src/bets/betController.ts:287-302 | ZADD of the leg's member with its commence time in seconds |
| BetController.FindOrphanedRival | src/bets/betController.ts:164-183 | true iff some pending leg on the same event and market has no parent bet |
| BetController.PlaceBetSpec | src/bets/betController.ts:37-283 | the reference definition of `placeBet`: the checks in source order, then the debit, the legs and the parent; its properties are stated by PlaceBetAccepts, PlaceBetDebitsStake, PlaceBetParent, PlaceBetPayout, PlaceBetLegs and PlaceBetKeepsPayouts |
| BetController.OddsProduct | src/bets/betController.ts:192-198 | `cumulativeOdds`, the product of the legs' odds in leg order; stated by OddsProductAtLeastOne and PayoutCoversStake |
| BetController.NewLegs | src/bets/betController.ts:199-204 | one new leg per slip entry, in order: entry `i` under the i-th new id, keyed to the parent, pending and unresolved |
| BetController.SaveLegs | src/bets/betController.ts:192-211 | saves the legs in order, schedules each, and returns the product of the odds; the slip and the room maps end as `Removals` of the entries; the cached balance, current room and active rooms are unchanged |
| BetController.SaveLeg | src/bets/betController.ts:200-210 | one leg is built from its slip entry, saved and scheduled at its start in seconds; the slip and the room maps take one `Removal`; the cached balance, current room and active rooms are unchanged |
| BetController.SaveNext | src/bets/betController.ts:192-211 | one pass of the saving loop extends the saved legs, the odds product, the waiting set, the removed slip ids and the `Removals` of the slip and rooms by the next entry |
| BetController.NewLegsKeepOdds | src/bets/betController.ts:192-207 | the saved legs carry the same odds product as the slip entries |
| BetController.PlaceBet | src/bets/betController.ts:37-285 | the new store is `PlaceBetSpec`; on success the legs are scheduled and the slip and room maps are `Removals` of the entries; a rejection leaves the waiting set, the slip, its order and the room maps unchanged; the session's cached balance, current room and the active rooms are never written |
| BetController.CommitPlacement | src/bets/betController.ts:186-226 | once every check has passed, the store becomes the accepted `PlaceBetSpec`, with the same waiting-set, slip and room effects as `PlaceBet`'s success |
| BetController.Removals | src/bets/betController.ts:194-211 | the slip and rooms after the saving loop's `removeBetFromSlip` calls, one `Removal` per entry in order; the slip loses exactly the placed entries' ids |
| BetController.PlaceBetAccepts | src/bets/betController.ts:53-283 | accepted iff connected, the player exists, the stake is at most the credits and not 0, no rival leg is orphaned, and the slip is not empty (an empty slip throws on the first leg's name and the session is aborted) |
| BetController.PlaceBetDebitsStake | src/bets/betController.ts:186-187 | the player's credits fall by exactly the stake; no other balance or collection changes |
| BetController.NegativeStakeIsAccepted | src/bets/betController.ts:71-186 | on a non-empty slip a negative stake is accepted and raises the balance |
| BetController.PlaceBetParent | src/bets/betController.ts:213-226 | the parent is pending with retry count 0, lists the leg ids in order, and pays the stake times the odds product |
| BetController.PlaceBetPayout | src/bets/betController.ts:192-213 | the possible win is the stake times the product of the odds in leg order |
| BetController.PlaceBetLegs | src/bets/betController.ts:200-207 | each leg is saved pending under the parent with its entry's selection and event; older legs are untouched |
| BetController.PayoutCoversStake | src/bets/betController.ts:192-213 | decimal odds and a stake that is not negative give a possible win of at least the stake |
| BetController.ScheduleAllAt | src/bets/betController.ts:210-302 | every scheduled leg is in the waiting set under its member, scored in seconds |
| BetController.PlaceBetKeepsPayouts | src/bets/betController.ts:216-226 | placing under a fresh id keeps every other bet's payout |
| Redemption.FindBookmakerFirst | src/bets/betController.ts:622-624 | the first bookmaker with the key, or none when none has it |
| Redemption.FindOutcomeFound | src/bets/betController.ts:640-642 | an outcome is found exactly when the market lists one with the selection's name |
| Redemption.PriceLegCases | src/bets/betController.ts:527-643 | no price source iff no bookmaker has the leg's key; a quoted price is the price of an outcome of that name in the leg's market; the quote-only lookup finds no price for a totals leg and otherwise agrees |
| Redemption.PriceLeg | src/bets/betController.ts:527-643 | the reference definition of the per-leg price lookup; stated by PriceLegCases |
| Redemption.LoadLegs | src/bets/betController.ts:596-598 | one slot per id; stated slot by slot by LoadLegsAt |
| Redemption.LookUpAt | src/bets/betController.ts:596-602 | one lookup per loaded slot, in order |
| Redemption.LoadLegsAt | src/bets/betController.ts:596-598 | each slot holds the document stored under its id, or null |
| Redemption.RatioOfSame | src/bets/betController.ts:682 | unchanged odds give a ratio of exactly 1 |
| Redemption.Ratio | src/bets/betController.ts:682 | the ratio of the new to the old odds product, times the old product giving back the new one; 0 for a zero old product |
| Redemption.FinalPayout | src/bets/betController.ts:682-684 | with no commission the payout is the ratio times the stake; a commission between 0 and 100 never raises it above that or below 0 |
| Redemption.FinalPayoutAtEvenOdds | src/bets/betController.ts:682-684 | unchanged odds pay the stake less the commission percentage |
| Redemption.WalkStops | src/bets/betController.ts:627-631 | after the walk stops, no further leg is looked at |
| Redemption.Walk | src/bets/betController.ts:596-651 | the reference definition of the redemption loop over the looked-up legs; stated by WalkStops, WalkRunning, WalkGoneReached, WalkAgrees and WalkUnchangedOdds |
| Redemption.WalkRunning | src/bets/betController.ts:602-651 | a walk that runs through reaches and prices every leg in order |
| Redemption.WalkGoneReached | src/bets/betController.ts:622-631 | the bookmaker can only be found gone on a leg the walk reached |
| Redemption.WalkAgrees | src/bets/betController.ts:514-651 | two lookups that differ only by missing prices on found legs walk the same way, unless the walk throws |
| Redemption.WalkUnchangedOdds | src/bets/betController.ts:602-651 | with every leg quoted at its own odds, the walk runs through and both products agree |
| Redemption.MarkRedeemedEffect | src/bets/betController.ts:645-647 | every priced leg ends redeemed and resolved; every other leg is untouched |
| Redemption.MarkRedeemed | src/bets/betController.ts:645-647 | the redeem writes keep the set of legs; their effect is stated by MarkRedeemedEffect |
| Redemption.FailSlots | src/bets/betController.ts:654-657 | the failure loop keeps the set of legs; stated by FailSlotsCrashed, FailSlotsAt and FailSlotsUntouched |
| Redemption.FailStops | src/bets/betController.ts:654-657 | once the failure loop has thrown, later slots change nothing |
| Redemption.FailSlotsCrashed | src/bets/betController.ts:654-657 | the failure loop throws exactly when some leg is missing |
| Redemption.FailSlotsAt | src/bets/betController.ts:654-657 | with no leg missing, every loaded leg is saved failed and nothing else changes |
| Redemption.FailSlotsUntouched | src/bets/betController.ts:654-657 | legs under other ids are untouched |
| Redemption.QuoteLegs | src/bets/betController.ts:511-547 | the loop's two products and stop agree with the walk of the loaded legs |
| Redemption.RedeemBetInfo | src/bets/betController.ts:482-565 | the answer is `RedeemInfoSpec` |
| Redemption.RedeemLegs | src/bets/betController.ts:599-651 | the loop takes each reached leg off the waiting set, saves each priced leg redeemed, and returns the walk's products |
| Redemption.RedeemLeg | src/bets/betController.ts:599-651 | one iteration of the loop advances the walk by one leg: the member leaves the waiting set, a priced leg is saved redeemed and the bet is marked redeem |
| Redemption.RedeemPlayerBet | src/bets/betController.ts:568-718 | the store, reply and waiting set are as `RedeemSpec` states |
| Redemption.RedeemSpec | src/bets/betController.ts:568-718 | the reference definition of `redeemPlayerBet`; stated by the RedemptionLaws lemmas |
| Redemption.RedeemInfoSpec | src/bets/betController.ts:482-565 | the reference definition of `redeemBetInfo`; stated by InfoMatchesRedeem, InfoThrowsOnTotals and InfoAgreesWithoutTotals |
| Redemption.FailLegs | src/bets/betController.ts:654-657 | the failure loop yields `FailSlots` |
| RedemptionLaws.RedeemRefusals | src/bets/betController.ts:577-592 | a request for a missing player, a missing bet or a bet that is not pending is exactly one refused before any leg is reached, and it writes nothing |
| RedemptionLaws.LookUpLoaded | src/bets/betController.ts:596-643 | each id of the bet gives the stored leg with its current price, or a missing slot |
| RedemptionLaws.RedeemRefundsStake | src/bets/betController.ts:653-680 | a vanished bookmaker fails every leg and the bet, refunds the stake in full and answers 400 |
| RedemptionLaws.RedeemRunningCredits | src/bets/betController.ts:681-710 | a walk that runs through answers done and credits the caller with the payout |
| RedemptionLaws.RedeemPaysOut | src/bets/betController.ts:682-689 | credits rise by (new product / old product) × stake × (1 − commission/100) and the bet becomes redeem |
| RedemptionLaws.RedeemTouchesOnlyCaller | src/bets/betController.ts:568-718 | only the calling player's credits change, only this bet is written, and users, scores and transfers are untouched |
| RedemptionLaws.InfoWalkAgrees | src/bets/betController.ts:514-651 | when the quote's walk does not throw, it is the redemption's walk |
| RedemptionLaws.InfoMatchesRedeem | src/bets/betController.ts:482-718 | a quoted payout means the redemption is admitted, answers done and credits exactly that amount; a quoted full refund means it is admitted and, with the legs stored, answers 400 and refunds exactly that amount |
| RedemptionLaws.InfoThrowsOnTotals | src/bets/betController.ts:540-544 | a bet that redeems with a totals leg cannot be quoted: the quote throws |
| RedemptionLaws.InfoAgreesWithoutTotals | src/bets/betController.ts:548-689 | without totals legs a payout is quoted exactly when one is made, and it is the same amount |
| RedemptionLaws.RedeemAtUnchangedOdds | src/bets/betController.ts:682-685 | when the odds have not moved, the caller gains the stake less the commission |
| RedemptionLaws.RedeemAtEvenProducts | src/bets/betController.ts:682-685 | equal non-zero products pay the stake less the commission |
| RedemptionLaws.UnchangedOddsWalk | src/bets/betController.ts:602-651 | with unchanged odds the walk runs through with equal products of at least 1 |
| BetAdmin.RemoveLegs | src/bets/betController.ts:819-826 | every leg's member leaves the waiting set and nothing else does |
| BetAdmin.ResolveBet | src/bets/betController.ts:734-834 | store, reply and waiting set as `ResolveSpec` states |
| BetAdmin.ResolveSpec | src/bets/betController.ts:734-834 | the reference definition of `resolveBet`; stated by ResolveRevertsWhenShort, ResolveClawsBack, ResolvePaysWinner, ResolveTouchesOnlyParent, ResolveEffect and ResolveTwiceIsOnce |
| BetAdmin.ResolveRevertsWhenShort | src/bets/betController.ts:766-783 | a won parent, a leg not won and too few credits: the leg is set back to won, 400, nothing else changes |
| BetAdmin.ResolveClawsBack | src/bets/betController.ts:766-797 | with enough credits the winnings are taken back and the parent becomes lost |
| BetAdmin.ResolvePaysWinner | src/bets/betController.ts:799-816 | all legs won on a parent not won: the player gains the winnings and the parent becomes won |
| BetAdmin.ResolveTouchesOnlyParent | src/bets/betController.ts:734-834 | only the parent's player's credits, the leg and the parent change; no payout changes |
| BetAdmin.ResolveEffect | src/bets/betController.ts:734-816 | the outcome is a leg status, one credit change for the parent's player and a parent status; a missing leg changes nothing and an orphan leg only gets its status |
| BetAdmin.ResolveTwiceIsOnce | src/bets/betController.ts:734-834 | resolving the same leg to the same status twice leaves the store as resolving once |
| BetAdmin.UpdateBet | src/bets/betController.ts:836-1001 | store, reply and both queues as `UpdateSpec` and `UpdateDrop` state |
| BetAdmin.UpdateSpec | src/bets/betController.ts:836-1001 | the reference definition of `updateBet`; stated by UpdateRefusedWhileProcessing, UpdateRefusesShortIncrease and UpdateSettles |
| BetAdmin.DropFor | src/bets/betController.ts:862-875 | no removal iff the leg is not pending or is patched to pending; otherwise its waiting-set member once its start has passed, and the leg itself from the processing list before that |
| BetAdmin.DropLeg | src/bets/betController.ts:862-875 | a pending leg given another status is removed: its waiting-set member once its start has passed, or else the leg itself from the processing list, as `DropFor` says |
| BetAdmin.SettleEdit | src/bets/betController.ts:927-979 | the settlement after an edit yields `Resettle` |
| BetAdmin.Resettle | src/bets/betController.ts:927-979 | the reference definition of the settling step after an edit; stated by UpdateSettles |
| BetAdmin.UpdateRefusedWhileProcessing | src/bets/betController.ts:854-857 | a leg in the processing list answers 409 and nothing changes |
| BetAdmin.UpdateRefusesShortIncrease | src/bets/betController.ts:892-897 | raising the stake by more than the credits answers 400 and writes nothing |
| BetAdmin.MoveStakeDifference | src/bets/betController.ts:889-905 | in either direction the credits fall by exactly new − previous |
| BetAdmin.MoveStake | src/bets/betController.ts:889-908 | the stake move of `updateBet`; stated by MoveStakeDifference |
| BetAdmin.UpdateSettles | src/bets/betController.ts:907-979 | a request that passes the checks answers done; the stake becomes the new one and the credits move by the difference; the leg is patched and resolved; the parent is paid when all re-read legs won, clawed back (only if the credits cover it) and lost when a paid parent has a leg not won, and otherwise takes the patched status |
| BetAdmin.UpdateProcessingDropIsEmpty | src/bets/betController.ts:871-873 | a leg not yet started is never in the processing list, so that removal changes nothing |
| TransactionService.UpdateCredits | src/transactions/transactionService.ts:112-158 | the four `$inc` updates give each account its per-account deltas, which also covers a transfer of an account to itself |
| TransactionService.PlanSettles | src/transactions/transactionService.ts:123-158 | replaying the four updates yields the settled store |
| TransactionService.Plan | src/transactions/transactionService.ts:123-158 | four updates: two credit updates on the sender and the receiver that cancel out, then two counter updates by the amount |
| TransactionService.PerformTransaction | src/transactions/transactionService.ts:12-83 | the result is `TransactSpec` |
| TransactionService.TransactSpec | src/transactions/transactionService.ts:12-83 | the reference definition of `performTransaction`; stated by TransactRejects, TransactConserves, TransactIsolates, TransactOrientation and TransactCounters |
| TransactionService.ValidateCredits | src/transactions/transactionService.ts:98-110 | the credit check of `validateCredits`; stated by TransactRejects |
| TransactionService.TransactRejects | src/transactions/transactionService.ts:32-110 | rejected, always with 400, iff the amount is not positive, or on a recharge the sender document passed in has fewer credits than the amount, or on a redeem the receiver document does |
| TransactionService.TransactConserves | src/transactions/transactionService.ts:123-135 | the sum of the two parties' credits is kept, and a transfer to oneself leaves the credits as they were |
| TransactionService.TransactIsolates | src/transactions/transactionService.ts:126-158 | every other account is untouched |
| TransactionService.TransactOrientation | src/transactions/transactionService.ts:57-71 | for two different parties, the record is appended last with the given type and amount, its sender lost the amount and its receiver gained it (a redeem records the parties swapped) |
| TransactionService.TransactCounters | src/transactions/transactionService.ts:136-158 | for two different parties: a recharge raises the receiver's `totalRecharge` and the sender's `totalRedeem` by the amount; a redeem raises the sender's `totalRecharge` and the receiver's `totalRedeem`; the other two counters stay |

## Left out

- I/O is not modelled: Mongo queries, sessions, population and aggregation, Redis
  pub/sub and caching, axios calls, socket.io emits and notification texts. An I/O
  error in the middle of a handler is not modelled, except for the thrown errors that
  are parameters (below).
- Concurrency is not modelled: the infinite worker loops, and races between
  redemption, promotion and settlement. `placeBet` does not await its
  `removeBetFromSlip` calls. The model runs each one to completion, in slip order,
  before the next leg is saved.
- Inputs from outside the core are parameters. These are the clock, the odds and scores
  responses, the current prices for redemption (`quotes`), the ObjectIds `placeBet`
  generates, exceptions thrown by I/O (`faults`, `fails`), and the rooms of the socket
  adapter. Expiry of cached keys is not modelled: neither the `EX 300` on the
  `globalEventRooms` writes of `addBetToSlip` and `joinEventRoom`, nor the lifetime
  `fetchFromApi` gives its cache entries, which appears only as `CacheDuration`.
- Floating point is not modelled: odds and credits are exact reals. JavaScript
  turns a zero product of old odds into Infinity or NaN; `Redemption.Ratio` gives 0
  there.
- Redemption.RedeemSpec: `parseInt` of the commission setting is taken as a given
  integer, and its NaN case is not modelled.
- Redemption.RedeemSpec: an invalid ObjectId is not modelled (`new ObjectId(betId)`
  throws in the source).
- Redemption: odds fetches that throw are not modelled; the feed is a total function.
- ProcessCompletedBet: an attempt of the retry loop is modelled as throwing only
  before any write, after the leg is read. In the source it can also throw after the
  score upsert, after the leg is saved, or inside `checkAndUpdateParentBet` after the
  payout (the notification publish follows the award). The catch then overwrites the
  settled leg with failed, and a later successful attempt settles and aggregates again,
  paying the player a second time. `RepeatedAggregationPaysTwice` shows that second
  payment for a repeated aggregation, but the retry loop does not produce it.
- CompletedBetSpec: for the same reason its `faults` count says only how many attempts
  throw, not where in the attempt each one throws.
- StoreController.Lower: only the ASCII letters A to Z are lowered. `toLowerCase` also
  lowers other Unicode letters, so a team name with non-ASCII capitals can match in the
  source and not in the model.
- StoreController.Groups: the groups are listed in first-appearance order. JavaScript's
  `Object.keys` lists integer-like keys first, so a group named like `"1"` would come
  earlier in the source than in the model.
- PlaceBetSpec: the MYBETS read-back and the message to the socket are left out. They
  only report state.
- TransactionService.TransactSpec: `validateCredits` reads the sender and receiver
  documents the caller passed in, not the stored ones. The model keeps them as separate
  parameters.
- TransactionService: the 500 of `getModelInstance` cannot happen with the two-value
  `Collection` type.
- TransactionService: `handlePlayerUpdate` only sends socket messages.
- BetAdmin.UpdateSpec: only the `status` and `amount` fields of the patches are
  modelled. Other fields, a missing `amount`, and `updatedBet` being null (dead once
  the bet exists) are left out.
- BetAdmin.ResolveSpec: a status outside the leg enum is not modelled.
- The parent `Bet` schema has no `isResolved` path. In strict mode Mongoose would drop
  those writes; the model keeps them as the code writes them.
- Balance clamping and credit updates through `updateBalance` are modelled only on the
  one stored player record. `updateSocket`, `sendBetSlip`, message and room joins on
  the socket are I/O.
- `selectBookmaker` (a floating-point margin) is not modelled. Whether an event has a
  bookmaker is an input flag.
- `getLatestOddsForAllEvents`, `updateLiveData` and the disabled odds-freshness check in
  `placeBet` only broadcast or are dead code.
