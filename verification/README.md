# A verified model of the LLM proxy's routing, ledger and streaming core

The repository is a proxy in front of several language-model accounts. It decides which account and
model serve a request, keeps a ledger of what every call cost, reads usage out of the answers while
they stream through, and carries a few pieces of service infrastructure around that. This project
models the parts whose correctness is not visible from reading one function, and proves what they
promise over every input, every run and every interleaving.

| File | Component |
|---|---|
| `Shared.dfy` | options and results, whitespace, a JavaScript Map as the sequence its iterator yields |
| `Ledger.dfy`, `LogCall.dfy` | one logged call, statement by statement, against any second writer; duplicate enrichment |
| `LegacyRepair.dfy`, `ExportFiles.dfy`, `UsageSummary.dfy` | the one-shot duplicate repair; export and hydration; the zero-filled summary |
| `RoutingConfig.dfy`, `RoutingParser.dfy`, `RoutingFields.dfy`, `RoutingAcceptance.dfy`, `RouteResolver.dfy`, `RoutingSamples.dfy`, `FallbackChain.dfy` | exactly what the validator accepts and what it takes over from the documents, the resolver with its offload ladder, the attempt list |
| `TurnMemory.dfy`, `Offload.dfy`, `OffloadRuns.dfy`, `SessionRuns.dfy`, `PromptClassifier.dfy` | the turn memory, the offloader, every run of it, session promotion, the downgrade-only classifier |
| `SseEvents.dfy`, `SseText.dfy`, `UsageTaps.dfy` | incremental event streams, what an event says and what a written stream reads as, the usage taps, the frame writer |
| `BracketRepair.dfy`, `CircuitBreaker.dfy`, `ResponseCache.dfy`, `NestedTransactions.dfy` | service infrastructure |

How it is built. Each method that changes state, or loops, is proved equal to a function of its inputs
or its old state; the promises are then lemmas about that function, over all runs. Where a process can
wait, or a second process can act, between two statements, the component is a transition system whose
steps end at those points and whose environment is arbitrary within its own constraints.

What the proofs say that the code's comments do not:

- A model profile survives the provider swap of an offload. An offloaded call runs the target's own
  model for its band exactly when no profile of its route covers that band (or the profile names that
  very model); otherwise the target can be asked for a model it does not have
  (`RouteResolver.OffloadedModelIff`, and `RoutingSamples.ParsedProfileSurvivesOffload` from documents the
  validator accepts).
- An enabled, unguarded target never serves anything exactly when every network is claimed by an enabled
  target of its own (`RouteResolver.NeverPickedIff`); the validator accepts such a document
  (`RoutingSamples.UnreachableTargetAccepted`).
- The in-flight limit is safe from the decisions admitted and not yet served if and only if these fit in
  what is left of it (`OffloadRuns.OwedFitIff`). The guard before an admission counts only the calls in
  flight, so two decides in a row can both be admitted below the limit and pass it together
  (`OffloadRuns.AdmissionSafeIff`, `OffloadRuns.LimitPassedTrace`).
- A session's promotion is kept, whatever overlaps, if and only if no verdict on a decide that had read
  something else writes over it (`SessionRuns.PromotionKeptIff`); once no such decide waits, nothing can
  undo it (`SessionRuns.PromotionAbsorbing`). A run that loses it is `SessionRuns.OverlapTrace`.
- The number of foreign inserts a logged call is sure to survive, three on the machine's own hash and
  four on any other, cannot be raised (`LogCall.BoundIsTight`).
- With no other writer a retry catches the local id counter up at once: the next new request lands on its
  first attempt (`LogCall.RetryCatchesUp`), and against any other writer it stands one past the id
  of the row inserted, or one past the id it gave out when that was higher (`Ledger.CounterRun`).
- Overwriting a key keeps every entry of the cache if and only if the cache is not full or the key is its
  oldest (`ResponseCache.OverwriteKeepsAllIff`).
- A prompt with "Aa" somewhere and the same prompt with "BB" there share a cache key, so the one is
  answered with what was stored for the other (`ResponseCache.OtherPromptsAnswer`).
- Export and hydration give a row back on the exported columns if and only if its process and its
  subscription are not empty (`ExportFiles.ExportHydrateRoundTrip`).
- Closing brackets yields well-closed text if and only if no closer was the wrong one and the text kept
  does not stop inside an escape (`BracketRepair.RepairIsWellClosedIff`).

## Model

| member | source | states |
|---|---|---|
| Ledger.NextIdFree | src/token-usage.ts:1311-1313 | MAX(id)+1 under a hash is above every id there and has a row right below it, or is 1 and there is none; so it is free at the moment it is read |
| Ledger.OwnStep | src/token-usage.ts:1317-1399 | each statement of a logged call keeps both uniqueness constraints, loses no row, never lowers the local counter, and keeps the count of collisions within the foreign rows seen |
| Ledger.TheirStep | src/token-usage.ts:1300-1310 | whatever rows another writer adds or enriches between two statements, that invariant stays |
| Ledger.EveryInterleaving | src/token-usage.ts:1300-1399 | so it holds over every interleaving, from any point of the call to any later one |
| Ledger.LandsUnlessCrowded | src/token-usage.ts:1369-1399 | giving up after five attempts takes at least five foreign rows, four when the first id came from the counter; with none an insert needs at most one attempt, two with the counter |
| Ledger.EndsWithin | src/token-usage.ts:1367-1399 | whatever others do, the call is over after at most eighteen statements of its own |
| Ledger.CounterRun | src/token-usage.ts:1372-1385 | over every interleaving the counter is where the call found it, one further once it took an id from it, or one past the id of its row when that was higher |
| Ledger.CallEnds | src/token-usage.ts:1300-1399 | the whole promise of one call: it ends, both constraints hold, no row is lost, and its row is there, or a row of the same request is, or it was crowded out; after an insert under the machine hash the counter is above the id |
| LogCall.Settle | src/token-usage.ts:1317-1399 | without interference the call runs to its end with the invariant |
| LogCall.TokenUsageDb.LogCall | src/token-usage.ts:1317-1399 | the loop with probe, allocation, insert and retry ends in exactly the table, counter and outcome of its statements |
| LogCall.TokenUsageDb.MergeOnCache | src/token-usage.ts:1332-1365 | a duplicate enriches the row of its request in place, or leaves it |
| LogCall.DuplicateAlone | src/token-usage.ts:1332-1367 | a repeated request changes only its own row, and only when that row has no cache split and the new one has something to add |
| LogCall.InsertAlone | src/token-usage.ts:1369-1399 | a new request adds exactly its row, under the counter's id when that is free, else under one above the highest, on the first attempt or, with a taken counter, the second; the counter ends past that id |
| LogCall.AheadAtStart | src/token-usage.ts:986-993 | the seed puts the counter above every id of the machine |
| LogCall.AheadStays | src/token-usage.ts:999-1000 | without another writer it stays above, and every new request of the machine lands on its first attempt at the counter's id |
| LogCall.RetryCatchesUp | src/token-usage.ts:1380-1384 | after a retry, however far the counter lagged, it is above every id again and the next new request lands on its first attempt |
| LogCall.BoundIsTight | src/token-usage.ts:1369-1399 | five foreign inserts (four on the machine hash with a taken counter id), each taking the id just allocated, make the call fail |
| LogCall.FirstBearing | src/token-usage.ts:1341-1344 | the first row with a cache split, or the number of rows when none has one |
| LogCall.EnrichmentClosedForm | src/token-usage.ts:1324-1367 | any list of same-request arrivals, one after the other, leaves one row: the first, with the split of the first cache-bearing arrival and the highest reasoning count up to and including it |
| LegacyRepair.MergeGroup | src/token-usage.ts:915-933 | the update leaves the earliest row with the split of the first cache-bearing row of its group and the group's highest reasoning count |
| LegacyRepair.EnrichSurvivors | src/token-usage.ts:897-935 | every first row of a group is enriched, no other row changes |
| LegacyRepair.RepairDuplicates | src/token-usage.ts:895-952 | enrich, then delete all but the first row of every group, yields the repaired table |
| LegacyRepair.SurvivorClosedForm | src/token-usage.ts:919-933 | the survivor is the earliest row, with the split of the first cache-bearing row of its group and the group's highest reasoning count |
| LegacyRepair.RepairedRowIs | src/token-usage.ts:897-948 | on the table itself: every request's first row is left, with the split of the first of its rows that has one, or none, and the highest reasoning count among all its rows |
| LegacyRepair.RepairAgreesWithArrivals | src/token-usage.ts:887-894 | repairing a group gives the cache split its rows would have left by arriving one by one, and at least their reasoning count |
| LegacyRepair.RepairedUnique | src/token-usage.ts:939-953 | one row is left per non-empty request id, so the unique index can be built |
| LegacyRepair.NothingLost | src/token-usage.ts:939-948 | every request is still there, carried by the first row of its group; a row without request id stands for itself |
| LegacyRepair.EmptyIdsUntouched | src/token-usage.ts:941-947 | rows without a request id are kept, in order, untouched |
| LegacyRepair.RepairIdempotent | src/token-usage.ts:882-952 | a second repair changes nothing |
| ExportFiles.MergeKeepsAndPrefers | src/token-usage.ts:458-469 | the merged file has every key of the old file and every database row, and an old row only where the database has none for its key |
| ExportFiles.MergeOrder | src/token-usage.ts:458-469 | old rows are kept or dropped one by one, and those kept come first, in their order |
| ExportFiles.ExportTwice | src/token-usage.ts:458-474 | exporting an unchanged database again gives the same file |
| ExportFiles.HydrateFromExports | src/token-usage.ts:1065-1108 | reading the files row by row with INSERT OR IGNORE yields the hydrated table |
| ExportFiles.HashIs | src/token-usage.ts:1067-1068 | a row goes under its own hash when that is a small letter and five small letters or digits, else under the file's |
| ExportFiles.ColumnsAre | src/token-usage.ts:1072-1093 | each column present is taken as it is and each one missing gets its default |
| ExportFiles.HydratedFirst | src/token-usage.ts:1065-1093 | a new key gets the first row of the file that gives it, and no key is added that none gives |
| ExportFiles.FirstFileWins | src/token-usage.ts:1097-1108 | across files the first one that gives a key wins |
| ExportFiles.NoFileGives | src/token-usage.ts:1097-1108 | a key that no file gives is not added |
| ExportFiles.HydrationOnlyAdds | src/token-usage.ts:1053-1096 | no existing row changes, and every key of every file is there afterwards |
| ExportFiles.HydrateTwice | src/token-usage.ts:1049-1060 | hydrating twice is hydrating once |
| ExportFiles.RowRestored | src/token-usage.ts:1067-1093 | a written row read back keeps its key, whatever the file is called when its hash is well-formed, and its exported columns, but for an empty process or subscription |
| ExportFiles.ExportHydrateRoundTrip | src/token-usage.ts:448-471 | a window hydrated into an empty table restores exactly its rows, each equal on the exported columns iff process and subscription are not empty |
| UsageSummary.BucketMap | src/token-usage.ts:1696-1711 | the map filled from the grouped query answers every bucket's sums, and zeros for the rest |
| UsageSummary.ByHour | src/token-usage.ts:1713-1726 | the loop over bucket starts yields one point a bucket from since's to now's, each with its bucket's sums |
| UsageSummary.SlotMap | src/token-usage.ts:1732-1749 | the slots filled from the query grouped by bucket and column answer every bucket's sum per name, and zero for the rest |
| UsageSummary.ByColumnHour | src/token-usage.ts:1750-1756 | the stacked loop yields, per bucket and name, the sum of its rows |
| UsageSummary.BucketsTile | src/token-usage.ts:1713-1726 | bucket starts are consecutive multiples of the width, and every moment from since to now falls into the one its floor names |
| UsageSummary.GroupsConserve | src/token-usage.ts:1696-1708 | adding up the groups of a duplicate-free list adds up the rows that belong to them, in every count |
| UsageSummary.SeriesConserve | src/token-usage.ts:1542-1550 | the column sums of by_hour plus the rows later than its last bucket are the totals, in every count |
| UsageSummary.PointConserves | src/token-usage.ts:1750-1756 | one stacked point adds up to its bucket |
| UsageSummary.PivotsConserve | src/token-usage.ts:1730-1808 | the process, model and provider pivots all have the window's grand total, less the rows later than the last bucket |
| UsageSummary.CellsConserve | src/token-usage.ts:1813-1838 | the cells add up to the totals in every count |
| UsageSummary.NothingLate | src/token-usage.ts:1713-1714 | no row is later than the last bucket when all are stamped no later than now |
| UsageSummary.BucketsBounded | src/token-usage.ts:1412-1418 | under the default widths a span of at most 720 hours needs at most 721 buckets |
| UsageSummary.RowAddsToPoint | src/token-usage.ts:1696-1708 | a row adds one call and its four token counts to the point of its own bucket and to no other |
| UsageSummary.RowAddsToStack | src/token-usage.ts:1732-1749 | a row adds its four token counts to its own name in its own bucket and to no other |
| UsageSummary.RowAddsToTotal | src/token-usage.ts:1542-1550 | a row adds one call and its own counts to the totals |
| UsageSummary.SameCellIff | src/token-usage.ts:1816-1827 | two rows share a cell iff bucket, process, provider and model agree |
| UsageSummary.WidthsAre | src/token-usage.ts:1412-1418 | the exact spans at which the default bucket width changes |
| RoutingParser.ParseProviders | proxy-bridge/routing-config.mjs:356-486 | the loop over provider entries stops at the first fault or yields every normalized provider |
| RoutingParser.ParseRoutes | proxy-bridge/routing-config.mjs:584-600 | the same for routes |
| RoutingParser.ParseTargets | proxy-bridge/routing-config.mjs:672-939 | the same for offload targets, with the checks for a network already taken and for a target shadowed by an unguarded one before it |
| RoutingParser.ParseChain | proxy-bridge/routing-config.mjs:965-1004 | the same for one fallback chain, dropping disabled candidates |
| RoutingParser.ParseChains | proxy-bridge/routing-config.mjs:962-1004 | the same for all chains |
| RoutingParser.ParseRoutingConfig | proxy-bridge/routing-config.mjs:340-1004 | the validator yields its first fault or an accepted configuration |
| RoutingParser.ParsedIsAccepted | proxy-bridge/routing-config.mjs:340-1004 | whatever it accepts names only declared, enabled providers, with models where they are needed, targets with distinct networks that serve every band they may be given, and chains without repeats or self-reference |
| RoutingAcceptance.AcceptedIff | proxy-bridge/routing-config.mjs:340-1004 | the exact condition, both ways: two documents are accepted iff both are of version 1, there is a provider, all providers are good, and so are both class defaults, every route, the offload section with each target reachable past those before it, and every chain |
| RoutingFields.ParsedReads | proxy-bridge/routing-config.mjs:340-1004 | an accepted configuration is what the documents say: every provider, route, class default, target and chain, field by field, and nothing else |
| RoutingFields.ProviderReads | proxy-bridge/routing-config.mjs:356-486 | a provider is accepted iff its models and catalogue are, and is on unless switched off, with exactly its models |
| RoutingFields.RouteReads | proxy-bridge/routing-config.mjs:523-568 | an entry is accepted iff its provider is on and serves its band and its profiles are good; it opts out of the offload only on `offload: false`, and has exactly its profiles |
| RoutingFields.RouteKeyIs | proxy-bridge/routing-config.mjs:588-590 | a route key is one part, or two with one slash between them |
| RoutingFields.RouteRefusedIff | proxy-bridge/routing-config.mjs:586-599 | a route is refused iff its key or entry is, or it puts foreground Claude Code on a provider that cannot serve its wire |
| RoutingFields.DefaultReads | proxy-bridge/routing-config.mjs:571-581 | a class default is an entry with a band of its own |
| RoutingFields.TargetReads | proxy-bridge/routing-config.mjs:676-939 | a target takes over its provider, switch, network, scope, bands, scopes by band and limits |
| RoutingFields.TargetRefusedIff | proxy-bridge/routing-config.mjs:676-939 | a target is refused iff its provider, scope, bands, limits or network are, its network is taken, an unguarded one stands before it, or it must serve a band its provider has no model for |
| RoutingFields.PolicyRefusedIff | proxy-bridge/routing-config.mjs:777-816 | bands a target names are declared global ones, and their scopes its own |
| RoutingFields.LimitsAre | proxy-bridge/routing-config.mjs:851-878 | limits are accepted iff the target serves the foreground and each is positive, the ceiling at least a second |
| RoutingFields.CandidateRefusedIff | proxy-bridge/routing-config.mjs:973-1003 | a fallback is refused iff its provider is unknown, or it is on and comes twice or has a bad guard |
| RoutingFields.ChainReads | proxy-bridge/routing-config.mjs:973-1003 | a chain is its candidates that are on, in order, with their guards |
| RouteResolver.PickedIff | proxy-bridge/routing-config.mjs:214-221 | which target serves a network: its own enabled one, or the unguarded one when no enabled target is the network's own |
| RouteResolver.NeverPickedIff | proxy-bridge/routing-config.mjs:214-221 | an enabled unguarded target serves no network at all iff every network has an enabled target of its own |
| RoutingSamples.UnreachableTargetAccepted | proxy-bridge/routing-config.mjs:894-909 | two documents the validator accepts whose third target, enabled and unguarded, serves no network |
| RouteResolver.RouteIsServable | proxy-bridge/routing-config.mjs:1258-1415 | for every accepted configuration and every request the call lands on a declared, enabled provider with a model of that provider's own tables; a profile model, on the route's own provider, is one its catalogue serves |
| RouteResolver.ClassIs | proxy-bridge/routing-config.mjs:285-287 | foreground iff the job starts with `fg-` |
| RouteResolver.EntryPrecedence | proxy-bridge/routing-config.mjs:1262-1284 | the agent's own entry goes before the job's and the job's before the default of its class |
| RouteResolver.BandIs | proxy-bridge/routing-config.mjs:1286-1309 | the entry's band; on a from-caller entry the one asked for, by whom, and without a usable one the class default's |
| RouteResolver.ModelIs | proxy-bridge/routing-config.mjs:1381-1392 | the profile's model for the band, else the provider's for the band, else for the class default's, else for its cheapest |
| RouteResolver.CeilingIs | proxy-bridge/routing-config.mjs:1406-1409 | a ceiling is on record iff a foreground call moved to a target that has one |
| RouteResolver.OffloadedModelIff | proxy-bridge/routing-config.mjs:1366-1392 | an offloaded call runs the target's model for its band iff no profile covers the band or the profile names the same model |
| RoutingSamples.ParsedProfileSurvivesOffload | proxy-bridge/routing-config.mjs:1375-1392 | two documents the validator accepts and a request whose offloaded call is given a model its target does not have |
| RouteResolver.OffloadIsBounded | proxy-bridge/routing-config.mjs:1311-1379 | enabling the offload never alters band, source, matched entry, step, class or profile; unmoved routes are unchanged but for the reason, moved ones name where they came from |
| RouteResolver.MovedIff | proxy-bridge/routing-config.mjs:1317-1379 | on the target's own fields, a call moves iff its picked target may take it: allowed band, class in the scope of that band or, without one, of the target, foreground transport and limits, no opt-out; otherwise exactly one reason is on record, unless the route already names the target |
| RouteResolver.ReasonIsFirstBlock | proxy-bridge/routing-config.mjs:1320-1364 | the reason on record is true of the request and the first of all that are; the call moves iff none is |
| FallbackChain.BuildChain | proxy-bridge/routing-config.mjs:1435-1501 | the loop over candidates yields the attempts and the skipped ones |
| FallbackChain.ChainPartitions | proxy-bridge/routing-config.mjs:1459-1501 | attempts and skipped partition the candidates in order: attempts, with model and implementation, are exactly those that pass every gate, and each skipped one names the first gate it fails |
| FallbackChain.CandidatesOk | proxy-bridge/routing-config.mjs:1435-1462 | the candidates of a resolved route are routable, none comes twice, and after an offload the original provider is the first fallback |
| FallbackChain.CandidatesAre | proxy-bridge/routing-config.mjs:1451-1462 | behind the head the candidates are exactly the declared chain, in order, with its guards; after an offload the origin, unguarded, and then exactly the others of that chain |
| FallbackChain.EligibleTried | proxy-bridge/routing-config.mjs:1459-1501 | every candidate that passes the gates is attempted, with its model |
| FallbackChain.DeclaredFallbackTried | proxy-bridge/routing-config.mjs:1435-1501 | every fallback declared for the resolved provider is attempted with its own model for the band, or its cheapest, unless its guard or the tools gate drops it |
| FallbackChain.AttemptsServable | proxy-bridge/routing-config.mjs:1435-1501 | no provider is attempted twice; each is declared, enabled and capable; the head keeps its model and every other has a model its own provider declares |
| FallbackChain.OffloadKeepsFallback | proxy-bridge/routing-config.mjs:1435-1462 | after an offload the original provider is tried right behind the target with a model of its own, unless the tools gate removes it |
| FallbackChain.OffloadNeverEmpties | proxy-bridge/routing-config.mjs:1435-1501 | a head that would have been tried without the offload is still on the list with it |
| TurnLoop.LastHuman | proxy-bridge/turn-band.mjs:88-118 | the index of the last human message, or -1 |
| TurnLoop.ToolsInCurrentTurn | proxy-bridge/turn-band.mjs:88-118 | the scan decides whether the call is inside a tool loop |
| TurnLoop.EndsInToolIs | proxy-bridge/turn-band.mjs:101-104 | a conversation ends in a tool exchange iff its last message that is not a system one is a tool message |
| TurnLoop.InLoopIs | proxy-bridge/turn-band.mjs:88-108 | a call is in a loop iff a tool message came since the last human one, or that one came upon a conversation that ended in a tool exchange |
| TurnLoop.LoopWithinTurn | proxy-bridge/turn-band.mjs:88-118 | within a turn the answer is yes once any tool message came, and stays yes |
| TurnLoop.LoopAtNewPrompt | proxy-bridge/turn-band.mjs:88-118 | a new human prompt starts a new turn exactly when the conversation before it did not end in a tool exchange |
| PromptClassifier.ClassifierEligibility | proxy-bridge/prompt-classifier.mjs:116-143 | the gate with its byte-counting loop is open iff the band is delegated and above the lowest, the call outside a tool loop and the user text within the limit |
| PromptClassifier.LastUserText | proxy-bridge/prompt-classifier.mjs:159-167 | the backward scan returns the last non-blank user text, cut at the cap |
| PromptClassifier.LastTextIs | proxy-bridge/prompt-classifier.mjs:159-167 | it is the beginning, as far as the cap, of the newest user message that has text |
| PromptClassifier.UserBytesAre | proxy-bridge/prompt-classifier.mjs:136-140 | user messages alone count towards the limit |
| PromptClassifier.DowngradeOnly | proxy-bridge/prompt-classifier.mjs:199-279 | whatever the verdict function does, the band changes only to the strictly lower, allowed band it named, and exactly when every gate is open |
| PromptClassifier.DowngradeEndToEnd | proxy-bridge/routing-config.mjs:1284-1309 | resolved, classified and resolved again, the final band is the classifier's, never above the first, on the same entry; a route with its own band is untouched |
| TurnMemory.TurnBandMemory.RememberRecord | proxy-bridge/turn-band.mjs:202-207 | delete, set, and evicting in a loop puts the record last and keeps the newest `cap` entries |
| TurnMemory.TurnBandMemory.RecallRecord | proxy-bridge/turn-band.mjs:208-220 | a recall answers the record and refreshes it, or drops it past its age |
| TurnMemory.RememberRecords | proxy-bridge/turn-band.mjs:202-207 | afterwards the record is under its key, and under any other key what was there or nothing |
| TurnMemory.RecallRecords | proxy-bridge/turn-band.mjs:208-220 | a recall answers only what was on record and changes nothing elsewhere |
| TurnMemory.RecallAfter | proxy-bridge/turn-band.mjs:197-223 | a key touched is recalled with its exact record if fewer than `cap` distinct other keys were touched since, iff it is young enough |
| TurnMemory.PushedOut | proxy-bridge/turn-band.mjs:202-207 | `cap` distinct other keys remembered since push it out |
| TurnMemory.RecalledIff | proxy-bridge/turn-band.mjs:197-223 | when only remembers intervene, it is recalled iff fewer than `cap` others came and it is young enough |
| TurnMemory.EvictRefines | proxy-bridge/turn-band.mjs:206 | the first key of the iteration order is a least recently touched one |
| TurnMemory.RunRefines | proxy-bridge/turn-band.mjs:197-223 | every run has the same answers as a timestamped map that evicts by oldest stamp and expires by age; the size stays within the cap and the iteration order is last-touch order |
| Offload.Offloader.DecideUntilWait | proxy-bridge/offload.mjs:212-264 | a decide up to its classifier wait, or to its end |
| Offload.Offloader.DecideAfterWait | proxy-bridge/offload.mjs:265-291 | the rest of a decide, on the memories as they are by then and the session record read before |
| Offload.Offloader.ServeBegins | proxy-bridge/offload.mjs:308 | a serve counts itself in |
| Offload.Offloader.ServeEnds | proxy-bridge/offload.mjs:355-372 | a serve counts itself out, and a failed one turns its turn's record to the provider |
| Offload.SessionKeyIs | proxy-bridge/turn-band.mjs:141-144 | calls share a session iff agent and conversation are the same; a loop call or one without a conversation has none |
| Offload.NextRecordIs | proxy-bridge/turn-band.mjs:171-176 | a judged turn leaves an offloaded record, a promotion after one, or, once promoted, nothing |
| OffloadRuns.RunOk | proxy-bridge/offload.mjs:206-373 | over every run of decides, verdicts and serves in any order, the in-flight count is the number of running serves |
| OffloadRuns.InFlightWithinLimit | proxy-bridge/offload.mjs:289-308 | it never exceeds the limit in any run that admits nothing while an admitted decision is still to be served and serves only admitted ones, under one limit, whatever else comes in between |
| OffloadRuns.OwedFitIff | proxy-bridge/offload.mjs:289-308 | every continuation that serves only what is owed stays within the limit iff the calls in flight and the decisions owed fit in it |
| OffloadRuns.AdmissionSafeIff | proxy-bridge/offload.mjs:289-290 | an admission is safe in that sense iff calls in flight and decisions owed are together below the limit, while the guard checks the first alone |
| OffloadRuns.TwoAdmittedPassLimit | proxy-bridge/offload.mjs:289-308 | from every state one below the limit, two decides are both admitted and their serves exceed it |
| OffloadRuns.LimitPassedTrace | proxy-bridge/offload.mjs:289-308 | the same from an empty memory with a limit of one |
| OffloadRuns.AdmittedIsSound | proxy-bridge/offload.mjs:212-291 | in every state an offloaded call passed every gate and runs at an allowed band on the target's model for it: its turn's band in a loop, otherwise the declared one or a strictly lower one from the classifier |
| OffloadRuns.LoopAdmittedIff | proxy-bridge/offload.mjs:212-291 | exactly: a loop call is offloaded iff it passes the outer gates to a usable target and its turn's record is there, young enough and offloaded at a band that, with its model, the size and the in-flight count, passes |
| OffloadRuns.FirstAdmittedIff | proxy-bridge/offload.mjs:212-291 | exactly, for a first call without a classifier; with one it waits under the same gates |
| OffloadRuns.VerdictAdmittedIff | proxy-bridge/offload.mjs:265-291 | exactly, after the wait: offloaded iff the band it ends up with passes, and at that band |
| OffloadRuns.KeptReasonIs | proxy-bridge/offload.mjs:212-291 | a kept call's reason, at the outer and at the last gates, is the first of all that hold |
| OffloadRuns.LoopCallsWriteNothing | proxy-bridge/offload.mjs:226-252 | a tool-loop call leaves every session and every turn's record as they were, but for its own turn's record when that has expired |
| OffloadRuns.MemoryIsLastWrite | proxy-bridge/offload.mjs:222-233 | over every run the memory holds the last record written for a turn, or nothing |
| OffloadRuns.LoopFollowsTurn | proxy-bridge/offload.mjs:247-262 | over every run a loop call is offloaded only if the last record written for its turn says offloaded, and at that record's band |
| OffloadRuns.LoopFollowsTurnIff | proxy-bridge/offload.mjs:247-291 | over every run a loop call past the outer gates is offloaded iff its turn's record is live, was last written as offloaded, and its band passes |
| OffloadRuns.FailedTurnStaysHome | proxy-bridge/offload.mjs:360-368 | after a failed serve no loop call of that turn is offloaded until a first call of it is decided again |
| SessionRuns.RunFresh | proxy-bridge/offload.mjs:237-283 | without overlap, a waiting decide of a session has read what the memory still holds for it |
| SessionRuns.OrderlyNoneStale | proxy-bridge/offload.mjs:237-283 | so decides that did not overlap up to a promotion leave none waiting with an older reading |
| SessionRuns.PromotedStepIff | proxy-bridge/turn-band.mjs:155-176 | in one step a surviving promotion is kept iff the step is not a verdict on a decide with an older reading that writes another record |
| SessionRuns.PromotionKeptIff | proxy-bridge/offload.mjs:237-283 | over every run from every state, whatever overlaps, a promotion whose record survives is kept throughout iff no such verdict comes |
| SessionRuns.PromotionAbsorbing | proxy-bridge/turn-band.mjs:155-176 | over every run, with no order asked of it: once no decide of the session waits with an older reading, a promotion never changes while its record survives, and every first call at a later turn that gets past the outer gates stays on the provider with source session |
| SessionRuns.OverlapLosesPromotion | proxy-bridge/offload.mjs:237-283 | the overlapping trace that overwrites a promotion from a stale read |
| SessionRuns.OverlapTrace | proxy-bridge/offload.mjs:237-283 | the same from an empty memory, with three concrete calls |
| SseEvents.Search | proxy-bridge/measurement.mjs:214-216 | the leftmost match of the delimiter, or the end |
| SseEvents.NothingLost | proxy-bridge/measurement.mjs:198-230 | events, delimiters and leftover make up the text, and the leftover holds no complete delimiter |
| SseEvents.SearchStable | proxy-bridge/measurement.mjs:258-299 | the leftmost match of `\n\n` or `\r?\n\r?\n` stays the leftmost, at the same length, whatever follows |
| SseEvents.EventsSplit | proxy-bridge/measurement.mjs:258-299 | cutting a text anywhere and carrying the leftover over gives the same events |
| SseText.MatchIs | proxy-bridge/measurement.mjs:208-295 | a match is exactly `\n\n`, or two line ends each with or without a carriage return |
| SseText.LinesRejoin | proxy-bridge/measurement.mjs:211-292 | splitting an event into lines loses nothing and leaves no line break in a line |
| SseText.CrLinesAre | proxy-bridge/measurement.mjs:292 | the OpenAI tap's lines are those without one carriage return before a line break |
| SseText.TrimIs | proxy-bridge/measurement.mjs:214-292 | only space is taken off, and none is left at either end |
| SseText.FirstDataIs | proxy-bridge/measurement.mjs:211-214 | the Anthropic tap takes the first data line, whatever lines come before it, and skips an event iff it has none |
| SseText.AllDataIs | proxy-bridge/measurement.mjs:292 | the OpenAI taps take all data lines, trimmed and joined by line breaks |
| SseText.StreamEvents | proxy-bridge/measurement.mjs:258-299 | a written stream is cut into exactly its events and nothing is left over |
| UsageTaps.UsageTap.SseChunk | proxy-bridge/measurement.mjs:198-230 | the loop over one chunk is a step of the tap |
| UsageTaps.ChunkingInvariance | proxy-bridge/measurement.mjs:258-299 | for all chunkings both taps end with the usage and leftover of one whole chunk, and never keep a complete event |
| UsageTaps.SameTextSameUsage | proxy-bridge/measurement.mjs:198-299 | two chunkings of one text agree |
| UsageTaps.AnthropicReads | proxy-bridge/measurement.mjs:198-230 | in any chunks, a stream with one message_start ends with its input and cache counts and the last cumulative output count, never a sum |
| UsageTaps.AnthropicTextRead | proxy-bridge/measurement.mjs:198-230 | from text to usage: frames written as an `event:` and a `data:` line, in any chunks, end with the start's counts and the last delta's output |
| UsageTaps.ChatReads | proxy-bridge/measurement.mjs:258-299 | in any chunks, a chat stream ends with the counts of its last usage object, cached tokens out of the input, and the model the last such frame names, or else the first any frame names |
| UsageTaps.ResponsesReads | proxy-bridge/measurement.mjs:258-299 | in any chunks, a Responses stream ends with the counts of its last completed response with a usage object, and the model the last such response names, or else the first any response under way names |
| UsageTaps.OpenAITextRead | proxy-bridge/measurement.mjs:258-299 | from text to usage on both wires: written events, with or without an `event:` line, in any chunks, end with the last counts and the model they give |
| UsageTaps.ParseUsageCache | src/usage-cache.ts:42-59 | cache reads, and the cache writes accumulated over the per-lifetime counts when there are any |
| UsageTaps.CacheWriteIs | src/usage-cache.ts:42-59 | cache writes are the flat number when it is given, else the sum over the breakpoints, else none |
| UsageTaps.ResponseSseFrames | proxy-bridge/shim-tools.mjs:110-170 | a created frame, four frames an output item, in order and none of them with a response, and a completed frame, the first and last carrying the whole response |
| UsageTaps.FramesAre | proxy-bridge/shim-tools.mjs:154-167 | four frames an item, the text's first and then each tool call's, each of its own kind and in order |
| SseText.FirstWritten | proxy-bridge/server.mjs:4478 | the first event of a written text is exactly the first item |
| UsageTaps.WriterReaderRoundTrip | proxy-bridge/shim-tools.mjs:131-170 | fed the written text in any chunks, the tap ends with the usage and model the provider reported; only a negative fresh count is lifted to zero |
| BracketRepair.TrailingComma | src/llm-service.ts:553 | the one comma with nothing but whitespace behind it |
| BracketRepair.CloseUnclosedBrackets | src/llm-service.ts:533-556 | the scan with its stack and flags yields the stripped text, a quote if a string is open, and the pending closers in reverse |
| BracketRepair.RepairIsWellClosedIff | src/llm-service.ts:533-556 | the result is well-closed by grammar iff no closer mismatched the stack and the text kept does not stop inside an escape |
| BracketRepair.WrongCloserPassedOver | src/llm-service.ts:545-548 | a closer that is not the one owed next changes nothing of what is owed afterwards |
| BracketRepair.RepairIsIdentityIff | src/llm-service.ts:533-556 | it appends to what it keeps, and changes nothing iff nothing is pending and no comma trails |
| BracketRepair.LastIndexOf | src/llm-service.ts:504-506 | the last place an element ends with a comma behind it, or -1 |
| BracketRepair.RepairTruncatedJson | src/llm-service.ts:500-528 | the part up to the last complete element is tried first, then the whole text, then the input is given back |
| BracketRepair.TruncatedRepairIs | src/llm-service.ts:500-528 | which text comes back, said by the last boundary and the parser alone |
| BracketRepair.TruncatedRepairParses | src/llm-service.ts:500-528 | for any parser that accepts only well-closed text the result is the input, or parses and closes a clean prefix of it; whenever closing all of the input parses, so does the result |
| CircuitBreaker.Breaker.Open | src/circuit-breaker.ts:32-48 | the open test |
| CircuitBreaker.Breaker.Failed | src/circuit-breaker.ts:53-62 | a failure's new state |
| CircuitBreaker.Breaker.Tripped | src/circuit-breaker.ts:69-74 | an immediate trip's new state |
| CircuitBreaker.Breaker.Succeeded | src/circuit-breaker.ts:79-82 | a success's new state |
| CircuitBreaker.BackoffClosedForm | src/circuit-breaker.ts:53-82 | after any run the multiplier is min(2^k, max/base), k counting the trips and at-or-above-threshold failures since the last success |
| CircuitBreaker.OpenIff | src/circuit-breaker.ts:32-48 | the breaker is open iff k > 0 (or the threshold is not positive) and no more than base * 2^k and no more than max has passed since the last failure |
| CircuitBreaker.ProvidersIndependent | src/circuit-breaker.ts:32-82 | other providers' failures and successes never matter |
| ResponseCache.LLMCache.GetResult | src/cache.ts:32-44 | a get, with its counters and the removal of an expired entry |
| ResponseCache.LLMCache.SetResult | src/cache.ts:49-58 | a set, with its eviction |
| ResponseCache.RunInvariant | src/cache.ts:32-58 | over every run only the latest value set under each key is held, within the size bound, and hits plus misses are the gets since the last clear |
| ResponseCache.CountersTell | src/cache.ts:32-44 | hits are the gets since the last clear that were answered, misses those that were not |
| ResponseCache.HitIsLatest | src/cache.ts:32-44 | a hit is the latest value set under its key, younger than the time to live |
| ResponseCache.StoredUntilPushedOut | src/cache.ts:49-58 | while fewer than maxSize sets follow a new entry, whatever gets come in between, a get returns it iff it is young enough |
| ResponseCache.FirstInFirstOut | src/cache.ts:49-58 | after any sets under new keys the cache is the newest maxSize of the old entries and the new ones, in the order they came |
| ResponseCache.HeldIffFewerSets | src/cache.ts:49-58 | a new entry is still there iff fewer than maxSize sets under other new keys followed |
| ResponseCache.OverwriteKeepsAllIff | src/cache.ts:50-57 | setting a present key drops no entry iff the cache is not full or the key is the oldest |
| ResponseCache.SimpleHash | src/cache.ts:71-79 | the shift-and-add loop equals the signed 32-bit residue of the base-31 polynomial |
| ResponseCache.SameKeyIff | src/cache.ts:63-79 | two prompts share a cache key iff their operations are the same, none counting as `default`, and their polynomials agree modulo 2^32 |
| ResponseCache.OtherPromptsAnswer | src/cache.ts:63-79 | "Aa" and "BB" can be exchanged anywhere in a prompt, and a get for the one prompt then returns what was set for the other |
| NestedTransactions.NodeDb.Transaction | proxy-bridge/db-open.cjs:97-113 | for any tree of wrapped functions: it throws iff its control flow says so, the depth is back, the database holds the effects of exactly the functions that returned under returning ancestors, and nothing is visible outside before the outermost one is done |
| NestedTransactions.NodeDb.Body | proxy-bridge/db-open.cjs:103 | the function's own code inside its transaction, including one that catches an inner throw |
| NestedTransactions.NoneSurvive | proxy-bridge/db-open.cjs:107-110 | nothing survives below a function that threw |
| NestedTransactions.MarkUndone | proxy-bridge/db-open.cjs:100-109 | a savepoint released keeps what was written since, rolled back and released leaves no trace |

## Left out

- HTTP, sockets, TLS, child processes, provider SDK calls, file and YAML reading, logging, dashboards: verdicts, parsers, clocks and files are parameters.
- Ledger: SQLite text, schema migrations and the columns that no statement modelled here reads or merges; the table is a map with its two unique constraints.
- Ledger.OwnStep: takes each SQL statement to succeed or to hit a constraint; errors of any other kind, which are logged and drop the row, are not modelled.
- LegacyRepair.RepairDuplicates: the best-effort catches around the two statements are not modelled; both are taken to succeed.
- ExportFiles.HydrateFromExports: files that are missing or do not parse contribute no rows and are not listed; the export window's bounds are given, its time-zone arithmetic (src/token-usage.ts:390-442) is not modelled.
- UsageSummary.ByHour: takes the GROUP BY answers as given by their meaning; getSummary reads the clock several times and the model once, and where the window starts is given; rows before 1970, latency medians and the ranking of pivot columns are left out, and a process, model or provider called `hour`, whose column would replace the bucket start, is not modelled.
- RoutingParser.ParseRoutingConfig: mappings arrive as lists of raw entries, so YAML shape faults are not modelled; the timeouts, retry policy, classifier block and warnings of the validator constrain no later function here and are left out, and so are property names that collide with object prototypes. Checks over the keys of one small mapping are recursive functions, the loops over entries are methods.
- RouteResolver.RouteIsServable: the offload switch, network and estimates are inputs; reasons are names and not sentences.
- Offload.Offloader.DecideUntilWait: the normalized configuration, the caller's declared band, the size estimate, the turn and session keys and the target's health are fields of the call; the counters and the classifier's detail text are left out, and one clock reading stands for all readings between two waits.
- Offload.Offloader.ServeEnds: models success or failure of a serve; that a failed one has written nothing to the client is not claimed, because a late read error reaches the same catch after bytes went out (proxy-bridge/offload.mjs:337-369).
- PromptClassifier.DowngradeOnly: the veto patterns are an arbitrary function of the text and the verdict an arbitrary answer or failure.
- UsageTaps.UsageTap.SseChunk: decoding of bytes into text and of JSON into a frame are given; raw-body capture is left out, and so are request ids and the latency marks.
- UsageTaps.ResponseSseFrames: keeps of a frame only what a usage reader looks at; function_call item ids and their repair (proxy-bridge/shim-tools.mjs:84-105) and the request conversions of that file are left out as easy.
- UsageTaps.WriterReaderRoundTrip: JSON text is taken to be one line and to decode to what was encoded.
- BracketRepair.TruncatedRepairParses: JSON.parse is any predicate that accepts only text with closed brackets and strings; the calls to providers around the repair are left out.
- CircuitBreaker.OpenIff: needs a positive base wait, since a zero one divides by zero; times are integers and waits reals without rounding.
- ResponseCache.SameKeyIff: the decimal form of the hash is any function that tells numbers apart and writes no colon.
- NestedTransactions.NodeDb.Transaction: COMMIT and RELEASE are taken to succeed, and a BEGIN issued as raw SQL beside the wrapper is not modelled; what a wrapped function writes does not depend on what it reads.
- The local/public fallback of the service (src/llm-service.ts:210-292), the target health probe, redaction, span files and provider tables.
