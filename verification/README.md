# DockGraph, modelled and proved in Dafny

DockGraph draws a live graph of the containers, networks, volumes and swarm
services of one or more Docker hosts, and serves their logs and statistics. This
project models the parts of it that keep state, work within bounds, or do
something incrementally that has a simple meaning, and proves that they keep
that meaning over every input and every run. `dafny verify dfyconfig.toml`
checks all of it.

| file | models |
|---|---|
| `LogLines.dfy`, `NewestLines.dfy` | log lines, their stable sort, and the selector that keeps the newest lines of a stream in bounded memory |
| `LogHistory.dfy` | a page of log history over several sources, and paging back through it |
| `LogReader.dfy` | the demultiplexing log reader, down to bytes and read buffers |
| `RateLimit.dfy` | the login rate limiter |
| `ReplayCache.dfy` | the agents' request verifier and its nonce cache |
| `SlotLimiter.dfy` | limits on concurrent requests, under any interleaving of handlers |
| `Graphs.dfy`, `StateManager.dfy` | merging snapshots, diffing graphs, and subscribers that replay deltas |
| `AgentPool.dfy`, `AgentStats.dfy` | which agents the server trusts for which swarm node, and what their stats answers add up to |
| `StatsWorker.dfy`, `StatsHistory.dfy` | stats aggregates, and their bounded, downsampled history |
| `PortRanges.dfy` | port mappings shown as ranges |
| `Common.dfy`, `Reordering.dfy` | options and ends of sequences; multiset sums that do not depend on order |
| `Components.dfy`, `ElkGraph.dfy`, `EdgePaths.dfy` | the graph layout: components, the hierarchy for the layout engine, smoothed edge paths |
| `LogWindows.dfy` | the state machine of the floating log windows |

## How the model stands to the code

* A class of the code is a class here, with its fields; a loop is a `while` or
  `for` loop with its invariants. Each such method is proved against a function
  on values (`Held`, `Attempt`, `Verify`, `Trimmed`, ...), and the theorems are
  about that function and about whole runs of it. Steps that the code takes
  under one lock are one step.
* Times are integers: nanoseconds, or for log lines the rank of a stamp (RFC
  3339, section 5.6) with "does not parse" as an option. The clock is a
  parameter, and runs assume that it does not go back. Sizes and counters are
  unbounded integers; the only width that matters, that of a frame's size
  field, is written out. Floats are reals.
* What comes from outside is a parameter in every form it can take: the answer
  of Docker, an agent, DNS or swarm, including failure; whether a signature or
  an address is good; the order in which concurrent answers arrive; the order
  in which a Go map is walked.
* Strings that are only compared are numbered.

Five results say where the code falls short of a simpler claim, and exactly
when:

* The selector's page is not always "sort everything, then cut": under the byte
  budget, a line dropped early can be jumped over by a small older one that
  arrives later. Over all streams of lines of at most `m` bytes the two are the
  same if and only if pages hold at most one line or `limit` lines of `m` bytes fit in
  the budget (`ExactForEveryStream`; `OutOfOrderMayJump` gives a stream that
  jumps for all other bounds). The wanted page is always the newest end of the
  page returned (`ReferenceIsSuffix`), and for one stream the two are equal
  exactly when the page has no gap (`ExactWhenContiguous`).
* A page over several sources can skip a line that the next page cannot return.
  The line at the cursor is counted in a source's byte budget and dropped
  afterwards, so what is left can look too small to have been cut
  (`CursorLineMayHideACut`); and the merged page itself can jump over a line
  (`MergeMayJump`). Over all sources with lines of at most `m` bytes no page has
  a gap if and only if `limit + 1` such lines fit in the budget, or `limit` of
  them when two are within the margin of 16,415 bytes (`GapFreeExactly`). With
  the code's bounds and the default limit of 200 that is: if and only if no line
  is longer than 2621 bytes (`DefaultPageGapFree`). A single source pages
  without gaps if and only if two lines fit (`OneSourceGapFreeExactly`), so with
  the code's bounds always.
* The login rate limiter, whose table is bounded, answers every attempt like one
  that remembers everything, over all runs of at most `d` clients, if and only
  if its table holds `d` clients (`RightExactly`).
* An update reaches a subscriber that saw the graph before it if and only if its
  queue has room or there is nothing new to see (`UpdateShowsExactly`); one that
  never missed news sees exactly the merged graph (`SubscribersSeeTheGraph`).
* The field-by-field node comparison is equality exactly for nodes without an
  empty label value (`NodeEqualIsEquality`), which the collectors never produce.

## Model

| member | source | states |
|---|---|---|
| LogLines.StableSortSorts | backend/api/logs.go:370-376 | sorting by stamp orders the lines and loses none |
| LogLines.StableSortIsStable | backend/api/logs.go:371-376 | lines sharing a timestamp keep their stream order |
| NewestLines.NewestIsLongest | backend/api/logs.go:189-206 | what fits is the longest end of the lines within the budget: any end that fits and cannot be extended is the one kept |
| NewestLines.NewestWithin | backend/api/logs.go:191-206 | the scan from the newest line keeps that end, and reports its size |
| NewestLines.CutIsMaximal | backend/api/logs.go:374-381 | a page fits in the limit and the budget (or is one line), and one more line would not fit |
| NewestLines.TrimEarly | backend/api/logs.go:170-174 | dropping lines while a stream in order is still being read does not change which lines are kept in the end |
| NewestLines.ReadLogLines | backend/api/logs.go:158-178 | reading a source keeps the newest of its first `limit` lines within the budget, whatever was trimmed on the way |
| NewestLines.Selector.constructor | backend/api/logs.go:340-354 | a new selector holds nothing, for its cursor, limit and budget |
| NewestLines.Selector.Add | backend/api/logs.go:357-368 | after each line the selector holds exactly what the history of all lines added determines, and its running size is right |
| NewestLines.Selector.TrimLines | backend/api/logs.go:374-381 | trimming leaves the newest lines, in order, within both bounds, with their size |
| NewestLines.Selector.Result | backend/api/logs.go:383-387 | the page is sorted and fits, and the page a reader wants (drop by cursor, sort all, cut once) is its newest end |
| NewestLines.HeldCovers | backend/api/logs.go:356-381 | along every stream, early trimming loses only lines behind the line at which the final cut stops |
| NewestLines.PageIsSorted | backend/api/logs.go:383-387 | the page is oldest first and within both bounds |
| NewestLines.ReferenceIsSuffix | backend/api/logs.go:336-387 | for every stream, the wanted page is the newest end of the page returned |
| NewestLines.ExactWhenContiguous | backend/api/logs.go:336-387 | the page is the wanted one if and only if it holds every line newer than its oldest |
| NewestLines.ExactInStampOrder | backend/api/logs.go:336-387 | lines arriving in stamp order give exactly the wanted page |
| NewestLines.ExactUnderBudget | backend/api/logs.go:336-387 | when the newest `limit` lines fit in the byte budget, any arrival order gives exactly these |
| NewestLines.HeldIsBounded | backend/api/logs.go:336-368 | between adds fewer than twice the limit and at most twice the budget is held, or one oversized line |
| NewestLines.OutOfOrderMayJump | backend/api/logs.go:365-380 | for every limit over 1 and every line size and budget under which `limit` lines do not fit, a stream whose page is not the wanted one |
| NewestLines.ExactForEveryStream | backend/api/logs.go:336-387 | all streams of lines of at most `m` bytes give the wanted page if and only if `limit` such lines fit in the budget or the limit is at most 1 |
| LogHistory.FetchLogHistory | backend/api/logs.go:266-311 | a container source's page: its tail up to the cursor, or the part of it that a failing source sends, within the budget, without the line at the cursor, at most `limit` lines |
| LogHistory.FetchIsTail | backend/api/logs.go:259-296 | when a page and one more line fit in the budget, asking for one more line and dropping the one at the cursor gives exactly the newest `limit` lines older than the cursor |
| LogHistory.FetchIsEnd | backend/api/logs.go:259-296 | whatever the bounds and the lines, a source's page is an end of what it has that is older than the cursor |
| LogHistory.OneSourceHasNoGap | backend/api/logs.go:150-154 | and it is empty only if nothing older exists, when any two lines that follow each other fit |
| LogHistory.OneSourceGapFreeExactly | backend/api/logs.go:150-154 | over all logs with lines of at most `m` bytes a single source pages without gaps if and only if two such lines fit |
| LogHistory.OneSourcePagingIsComplete | backend/api/logs.go:150-154 | paging back through one source returns every line exactly once, however its pages are cut by bytes |
| LogHistory.MayHoldOlder | backend/api/logs_aggregate.go:192-204 | a source may hold older lines when its page is full or within one line of the byte budget; an empty page never does |
| LogHistory.CollectHistory | backend/api/logs_aggregate.go:157-190 | the merged page of all sources, cut at the floor, for sources that answer in any given order |
| LogHistory.MergeSources | backend/api/logs_aggregate.go:163-185 | after all sources, the selector has seen every fetched line and the floor is that of the latest-ending cut source |
| LogHistory.MergeSource | backend/api/logs_aggregate.go:174-182 | one source's answer under the lock adds its lines and raises the floor only if its page was cut |
| LogHistory.AnyArrivalOrder | backend/api/logs_aggregate.go:166-185 | the assumptions on the sources do not depend on the order in which they answer |
| LogHistory.FloorIsHighest | backend/api/logs_aggregate.go:177-179 | the floor is the highest oldest line among the sources that may hold older ones |
| LogHistory.FetchTells | backend/api/logs_aggregate.go:192-204 | a page that is not all a source has says that older lines may follow, when a page and one more line fit or no line is longer than half the margin |
| LogHistory.MissingIsBelowFloor | backend/api/logs_aggregate.go:153-156 | then a line that no source sent is below the floor |
| LogHistory.MergedPage | backend/api/logs_aggregate.go:180-190 | cut at the floor, the merged page is exactly the newest of what was fetched, if those fit, whatever the selector dropped or jumped over below the floor |
| LogHistory.PageHasNoGap | backend/api/logs_aggregate.go:153-190 | a page is an end of everything older than the cursor over all sources, and is empty only when nothing older exists, when `limit` lines of all sources that follow each other fit and every source tells of its cuts |
| LogHistory.RunIsGapFree | backend/api/logs_aggregate.go:153-190 | so is every page of a paging run, each asked for before the oldest stamp of the last |
| LogHistory.GapFreePagesCollect | backend/api/logs_aggregate.go:153-190 | pages without gaps, put together, are an end of all lines, and what is left is what the next request may return |
| LogHistory.PagingIsComplete | backend/api/logs_aggregate.go:146-190 | paging back returns every line of every source exactly once, newest page first, in at most one page per line and a last empty one |
| LogHistory.PageIsOlder | backend/api/logs_aggregate.go:157-190 | any page, for any bounds and for sources that answer or fail, is in order and holds nothing at or after its cursor |
| LogHistory.PagesNeverRepeat | backend/api/logs_aggregate.go:146-190 | paging back through any sources, also ones that fail or change from page to page, every line of a later page is older than every line of an earlier one |
| LogHistory.CursorLineMayHideACut | backend/api/logs.go:290-296 | for every limit and budget under which `limit + 1` lines of `m` bytes do not fit, with two such lines over the margin, sources and a cursor whose page skips an older line |
| LogHistory.MergeMayJump | backend/api/logs_aggregate.go:180-190 | the same where `limit` lines of `m` bytes do not fit, whatever the margin is |
| LogHistory.GapFreeExactly | backend/api/logs_aggregate.go:146-204 | over all sources with lines of at most `m` bytes pages have no gap if and only if `limit + 1` such lines fit in the budget, or `limit` when two are within the margin |
| LogHistory.DefaultPageGapFree | backend/api/logs_aggregate.go:226-253 | with the code's budget, line cap and default limit: if and only if no line is longer than 2621 bytes |
| LogReader.BigEndianRoundTrip | backend/api/log_reader.go:128 | every 32-bit frame size is read as it was written |
| LogReader.DemuxOne | backend/api/log_reader.go:107-143 | an encoded frame gives its payload's lines under its stream, then whatever follows it |
| LogReader.DemuxFrames | backend/api/log_reader.go:107-160 | any frames, then anything: exactly the payloads' lines with their streams, in order, before what follows is looked at |
| LogReader.StreamsApart | backend/api/log_reader.go:137-140 | the stdout lines of a stream of frames are exactly the texts in the frames of types 0 and 1, in order, the stderr lines those of types 2 and 3 |
| LogReader.CutOff | backend/api/log_reader.go:120-143 | a stream cut off inside a frame gives all earlier lines and nothing of that frame, and ends cleanly only between frames or between a header and its payload |
| LogReader.FramesThenEnd | backend/api/log_reader.go:121-143 | a stream of whole frames ends with EOF; a bad or too large header is reported only after all earlier lines |
| LogReader.SplitLinesRoundTrip | backend/api/log_reader.go:145-167 | splitting a payload made of plain lines gives them back if and only if it is not one single empty line |
| LogReader.EveryLineIsShown | backend/api/log_reader.go:145-167 | of any lines, also ones with carriage returns or over the cap, each gives one line shown, in order, unless they are one single empty line |
| LogReader.RawLinesRoundTrip | backend/api/log_reader.go:85-105 | a raw stream of plain lines gives them back, then its end |
| LogReader.FramesRecognised | backend/api/log_reader.go:70-83 | any stream of frames is read as frames |
| LogReader.TextRecognised | backend/api/log_reader.go:70-83 | plain text whose first byte is above 3 is read as a raw stream, every line of it on stdout |
| LogReader.SliceTaken | backend/api/log_reader.go:90-104 | what each outcome of a buffered read says about the line read so far |
| LogReader.ReadRaw | backend/api/log_reader.go:88-105 | a raw line is its first bytes up to the cap without the line ending, for every size of the read buffer |
| LogReader.ReadFrame | backend/api/log_reader.go:121-143 | a frame is accepted or refused with the error its bytes call for, short reads included |
| LogReader.LogLineReader.constructor | backend/api/log_reader.go:63-65 | a new reader has all lines of the stream still to come |
| LogReader.LogLineReader.NextLine | backend/api/log_reader.go:70-83 | each call returns the next line still to come, and the error only once none is left |
| LogReader.LogLineReader.NextRaw | backend/api/log_reader.go:88-105 | the same for a raw stream |
| LogReader.LogLineReader.NextMultiplexed | backend/api/log_reader.go:109-118 | the same for frames, of which some hold no line |
| RateLimit.AttemptKeeps | backend/auth/ratelimit.go:62-105 | an attempt keeps clients listed once, by activity, within `maxKeys`, with at most `limit` ordered attempts each |
| RateLimit.ForgetKeeps | backend/auth/ratelimit.go:129-144 | so does withdrawing one, which leaves other clients alone |
| RateLimit.HeldCounts | backend/auth/ratelimit.go:171-178 | counting what a bucket still holds equals counting every attempt ever counted, from the horizon of what was dropped on |
| RateLimit.FreshHolds | backend/auth/ratelimit.go:153-163 | a client swept out as stale has only expired attempts |
| RateLimit.EvictionHolds | backend/auth/ratelimit.go:91-97 | an evicted client is wrong about its count only until its attempts expire |
| RateLimit.StepKeeps | backend/auth/ratelimit.go:54-178 | every attempt, withdrawal and sweep keeps the table consistent and faithful to the full history |
| RateLimit.AnswersMatch | backend/auth/ratelimit.go:54-105 | after any run an attempt is never refused wrongly, and gets the answer of a limiter that remembers everything unless its client was evicted less than a window ago |
| RateLimit.FewClientsRight | backend/auth/ratelimit.go:83-105 | as long as no more clients than the table holds make attempts nobody is evicted with attempts in the window, and every attempt gets the answer of a limiter that remembers everything |
| RateLimit.EvictedIsAllowed | backend/auth/ratelimit.go:83-97 | for every limit, window and table size a run of one client more in which an attempt beyond the limit is allowed |
| RateLimit.RightExactly | backend/auth/ratelimit.go:54-105 | over all runs of at most `d` clients every answer is right if and only if the table holds `d` clients |
| RateLimit.OthersKeep | backend/auth/ratelimit.go:54-163 | what other clients do leaves a client's bucket as it is or drops it |
| RateLimit.WaitingIsEnough | backend/auth/ratelimit.go:107-125 | a refused client that asks, at once or later, how long to wait and waits that long is allowed, whatever other clients do before it asks and meanwhile |
| RateLimit.AllowedExactly | backend/auth/ratelimit.go:107-125 | until its oldest attempt leaves the window a refused client stays refused, unless its bucket was dropped; so it is told to wait at most a second too long |
| RateLimit.RefusalIsReported | backend/auth/ratelimit.go:59-77 | over any run a refusal is passed over only if one of the same client was reported within the window before it |
| RateLimit.FirstRefusalExactly | backend/auth/ratelimit.go:59-77 | with room for all clients, and no withdrawal by this one, a refusal is told to be the first if and only if none was reported within the window |
| RateLimit.ReportedAgain | backend/auth/ratelimit.go:129-144 | a run in which a withdrawal drops the bucket and a second refusal within the window is reported as a first |
| RateLimit.RateLimiter.constructor | backend/auth/ratelimit.go:44-51 | an empty limiter is in order |
| RateLimit.RateLimiter.RemoveStale | backend/auth/ratelimit.go:156-163 | the map and the list stay in step and keep exactly the clients seen after the cutoff |
| RateLimit.RateLimiter.TouchClient | backend/auth/ratelimit.go:86-105 | the client comes to the front of both, a full table dropping its least recently active client |
| RateLimit.RateLimiter.TakeOutOrDrop | backend/auth/ratelimit.go:86-101 | the table without the client, or with room for it if it is new |
| RateLimit.RateLimiter.DecideFirst | backend/auth/ratelimit.go:71-80 | the client at the front is counted or refused, and nobody else changes |
| RateLimit.RateLimiter.CountAttempt | backend/auth/ratelimit.go:62-81 | the new table and both answers of an attempt |
| RateLimit.RateLimiter.ForgetLast | backend/auth/ratelimit.go:129-144 | the client's latest attempt is gone, and the client too if it was its only one |
| RateLimit.RateLimiter.Cleanup | backend/auth/ratelimit.go:147-151 | only the clients seen within the window are left |
| RateLimit.ExpireTimes | backend/auth/ratelimit.go:172-178 | the loop drops exactly the leading attempts at or before the cutoff |
| RateLimit.DecideClient | backend/auth/ratelimit.go:71-80 | allowed below the limit, else refused; the first refusal of a window is told apart |
| ReplayCache.PrunedBounded | backend/agentauth/verify.go:191-199 | pruning keeps the table and its threshold within their bounds and drops no nonce still acceptable |
| ReplayCache.StepKeeps | backend/agentauth/verify.go:64-91 | every verification keeps accepted nonces remembered while they are acceptable, and nothing else remembered |
| ReplayCache.NeverAcceptedTwice | backend/agentauth/verify.go:64-91 | over any run no timestamp and nonce are accepted twice, nor a nonce under another timestamp while the first is acceptable |
| ReplayCache.RefusedAsReplayed | backend/agentauth/verify.go:183-205 | a good request is refused as replayed only if its nonce was accepted before or 65,536 are still acceptable, and always if its nonce is still acceptable |
| ReplayCache.FirstFailure | backend/agentauth/verify.go:64-91 | which requests get each error: that of the first failing check, of header, form, age (120 seconds either way), signature and host; a request that fails one leaves the cache alone |
| ReplayCache.RoomExactly | backend/agentauth/verify.go:191-202 | there is room for a nonce if and only if fewer than 65,536 accepted ones are still acceptable |
| ReplayCache.AcceptedExactly | backend/agentauth/verify.go:64-91 | over every run a request is accepted if and only if it is signed by a known key, recent, for this agent, its nonce is not remembered, and there is room; what is still acceptable is remembered, and nothing that was never accepted |
| ReplayCache.AcceptedWereGood | backend/agentauth/verify.go:64-91 | whatever a run accepted came with a request that was recent then, signed by a known key and for this agent |
| ReplayCache.Verifier.constructor | backend/agentauth/verify.go:52-60 | a new verifier remembers nothing |
| ReplayCache.Verifier.VerifyRequest | backend/agentauth/verify.go:64-91 | the answer and the new cache; only a request signed by a known key, recent, for this agent and with a new nonce is accepted, and one that fails a check before the nonce changes nothing |
| ReplayCache.Verifier.RememberNonce | backend/agentauth/verify.go:185-205 | whether the nonce is new, and the cache after it |
| ReplayCache.Prune | backend/agentauth/verify.go:192-196 | exactly the nonces still acceptable are left, whatever the order of the loop |
| SlotLimiter.AdvanceKeeps | backend/api/limits.go:77-136 | the next step of any handler keeps every counter equal to what handlers hold, within both bounds |
| SlotLimiter.ArriveKeeps | backend/api/limits.go:116-118 | so does a new request |
| SlotLimiter.RefusedOnlyWhenFull | backend/api/limits.go:75-90 | in every interleaving a slot is refused if and only if handlers hold as many as one of the bounds allows |
| SlotLimiter.RefusedAtBounds | backend/api/limits.go:65-90 | the same in terms of the bounds a limiter is made with, of which one of 0 or less is never reached |
| SlotLimiter.GivesBackWhatItTook | backend/api/limits.go:119-133 | over any run the slice of limiters that a request gives back slots of is exactly the list of those it took |
| SlotLimiter.AllReturned | backend/api/limits.go:119-135 | once all handlers are done, served or turned back half-way, every limiter is as it was when new |
| SlotLimiter.SlotLimiter.constructor | backend/api/limits.go:65-73 | a bound of 0 or less means none |
| SlotLimiter.SlotLimiter.Acquire | backend/api/limits.go:77-90 | a slot is taken unless a bound is reached, and then nothing changes |
| SlotLimiter.SlotLimiter.ReleaseSlot | backend/api/limits.go:103-112 | both counts go down, and a client without slots has no entry |
| Graphs.NodeEqualIsEquality | backend/state/diff.go:57-88 | the comparison is equality if and only if no label value is empty |
| Graphs.AddedOrUpdated | backend/state/diff.go:18-25 | the nodes that are new and those that changed |
| Graphs.Missing | backend/state/diff.go:26-44 | the IDs of one graph that the other lacks |
| Graphs.DiffSnapshots | backend/state/diff.go:12-53 | the delta between two graphs, and whether there is any |
| Graphs.DiffReplays | backend/state/diff.go:12-53 | replaying the delta on the old graph gives the new one's nodes and edge IDs; no delta means they are the same |
| StateManager.Flatten | backend/state/manager.go:188-198 | one node of some snapshot per name and type, and all edges, whatever the order of the map |
| StateManager.MergeNodes | backend/state/manager.go:202-229 | each name and type once, runtime data first, declared source and network filled in |
| StateManager.ClearDangling | backend/state/manager.go:235-245 | references to absent nodes are blanked, nothing else changes |
| StateManager.MergeEdges | backend/state/manager.go:249-275 | the first edge of each ID with both ends present, runtime edges before others |
| StateManager.FirstWinsKeeps | backend/state/manager.go:255-264 | no merged edge dangles, no ID repeats, and no edge that could be kept is lost |
| StateManager.RuntimeEdgesFirst | backend/state/manager.go:266-272 | declared edges never displace runtime edges |
| StateManager.MergeSnapshots | backend/state/manager.go:162-180 | the merged graph is made of the snapshots' merged nodes and of the first edge of each ID with both ends, runtime edges first, and refers to nothing that is not in it |
| StateManager.MergeLosesNothing | backend/state/manager.go:162-180 | such a graph has exactly one node for each name and type of any snapshot, every edge that can be kept by its ID, none twice, and no declared edge in the place of a runtime one |
| StateManager.RuntimeNodesFirst | backend/state/manager.go:200-245 | a node of the merged graph is a runtime node in everything but source and network if a runtime source has one of its name and type, its source the declared one if there is one, its network the declared one only if it has none; otherwise it is a declared node; a network that is not in the graph is blanked |
| StateManager.EmptyGraphSeesNothing | backend/state/manager.go:48-54 | a merged graph without nodes has no edges, so sending no first snapshot is right |
| StateManager.SendKeepsInStep | backend/state/manager.go:113-137 | a message brings a subscriber that missed no news from the old graph to the new one |
| StateManager.MergeIsLinked | backend/state/manager.go:162-180 | whatever order the maps are walked in, a merged graph refers to nothing that is not in it |
| StateManager.StepKeeps | backend/state/manager.go:36-153 | every subscription, update, stats message and read keeps the manager in order and every subscriber that missed no news in step |
| StateManager.BehindExactly | backend/state/manager.go:132-137 | over any run a subscriber is behind if and only if its queue ever held 16 messages when there was news of the graph |
| StateManager.SubscribersSeeTheGraph | backend/state/manager.go:36-153 | over any run a subscriber of which that is not so sees exactly the merged graph's nodes and edge IDs once it has read what is queued |
| StateManager.UpdateShowsExactly | backend/state/manager.go:113-137 | an update shows to a subscriber in step if and only if its queue has room or the graph looks the same |
| StateManager.MergeAll | backend/state/manager.go:91-108 | all snapshots are merged, split by the kind of source they are filed under |
| StateManager.Manager.constructor | backend/state/manager.go:27-33 | a new manager has the empty graph and no subscriber |
| StateManager.Manager.Subscribe | backend/state/manager.go:39-67 | a new subscriber gets the whole graph if it has nodes, and is in step from the start |
| StateManager.Manager.Unsubscribe | backend/state/manager.go:57-64 | only that subscriber goes |
| StateManager.Manager.Receive | backend/state/manager.go:39-43 | a subscriber reads its messages in order, and nothing else changes |
| StateManager.Manager.HandleUpdate | backend/state/manager.go:83-139 | the new state of the manager: the snapshot filed under its kind of source, the merge of all snapshots, and the news sent to everyone whose queue is not full |
| StateManager.Manager.Store | backend/state/manager.go:86-108 | the snapshot and its kind of source are kept and all snapshots are merged again |
| StateManager.Manager.Publish | backend/state/manager.go:113-137 | everyone is sent the first graph in full, later ones as a delta, nothing when nothing changed |
| StateManager.Manager.HandleStats | backend/state/manager.go:143-153 | everyone is sent the stats, which do not change what anyone sees, also when they are missed |
| StateManager.Manager.Broadcast | backend/state/manager.go:132-137 | every subscriber gets the message unless its queue is full, and only then misses it |
| AgentPool.AgentPool.constructor | backend/collector/agent_pool.go:150-185 | a new pool trusts nobody |
| AgentPool.AgentPool.VerifyNodes | backend/collector/agent_pool.go:346-383 | which node each answering address is confirmed for, with a list of running swarm tasks, without one, and when it cannot be read |
| AgentPool.AgentPool.Refresh | backend/collector/agent_pool.go:255-313 | the new agents and confirmations; a passing lookup failure changes nothing |
| AgentPool.VerifiedIsClaimed | backend/collector/agent_pool.go:346-383 | a confirmed pair was claimed by the agent and accepted, and for distinct addresses every such pair is confirmed |
| AgentPool.TrustIsEarned | backend/collector/agent_pool.go:340-383 | over any run an address speaks for a node only if some refresh confirmed the pair and no later one goes against it; for lookups of distinct addresses, exactly then |
| AgentPool.AgentsAreVerified | backend/collector/agent_pool.go:296-305 | a node has an agent if and only if some answering address is confirmed for it, and that agent's address is |
| AgentPool.AgentIsFirst | backend/collector/agent_pool.go:296-305 | the agent of a node is the first confirmed one, at its own address and with the hostname it gave |
| AgentPool.PoolIsVerified | backend/collector/agent_pool.go:253-313 | over any run no two nodes share an agent address, and every confirmed address brings its node an agent |
| AgentPool.WithoutLister | backend/collector/agent_pool.go:345-355 | without swarm's list of tasks, the agents' own last word stands |
| AgentStats.TableIsAgreement | backend/collector/agent_stats.go:120-128 | a key is listed if and only if it was claimed, and names a value if and only if all claims on it agree on that value |
| AgentStats.SameClaims | backend/collector/agent_stats.go:120-128 | the table depends on which claims were made, not on their order or number |
| AgentStats.MergeAnswer | backend/collector/agent_stats.go:63-86 | one agent's answer under the mutex: its samples stamped with its node, and the four tables claimed for |
| AgentStats.ClaimSample | backend/collector/agent_stats.go:75-84 | the claims of one sample on the four tables |
| AgentStats.MergeAnswers | backend/collector/agent_stats.go:44-88 | a round of answers, failed ones skipped |
| AgentStats.StatsTables.Samples | backend/collector/agent_stats.go:21-106 | the surviving samples and all tables of the pool after a round, placements only of sampled swarm tasks |
| AgentStats.SurvivesExactly | backend/collector/agent_stats.go:108-118 | a sample survives if and only if its container and its swarm task are reported by its own node only |
| AgentStats.OwnerIsAgreed | backend/collector/agent_stats.go:81-84 | a standalone container has an owner if and only if all reports of it name that node |
| AgentStats.NameIsAgreed | backend/collector/agent_stats.go:81-84 | a name leads to a node if and only if some standalone container has that name and all such containers are on that node |
| AgentStats.TaskIsAgreed | backend/collector/agent_stats.go:76-80 | a key leads to a task if and only if some swarm sample has it as its ID, name or task, and all such samples run that task |
| AgentStats.CollectedExactly | backend/collector/agent_stats.go:66-74 | a round has exactly the samples with an ID and a name that the answers hold, stamped with the node and host of the agent |
| AgentStats.ReportingExactly | backend/collector/agent_stats.go:65 | the hosts listed are exactly those of agents that answered |
| AgentStats.AnyOrder | backend/collector/agent_stats.go:44-91 | whatever order the answers arrive in, the tables, the reporting hosts and the surviving samples are the same |
| StatsWorker.MergeSamples | backend/collector/stats_worker.go:190-208 | local samples, then each remote container not sampled yet |
| StatsWorker.MergedOnce | backend/collector/stats_worker.go:183-208 | how often each container ID counts: as locally sampled, else once if any remote sample names it |
| StatsWorker.BuildStatsSnapshot | backend/collector/stats_worker.go:132-165 | the snapshot built from the three tables |
| StatsWorker.FillFree | backend/collector/stats_worker.go:153-160 | services fill only names no container has |
| StatsWorker.PutAll | backend/collector/stats_worker.go:161-163 | node entries are all there |
| StatsWorker.SnapshotEntry | backend/collector/stats_worker.go:119-165 | what every key of a snapshot holds: a node the sum of its host's samples (zero for a silent node that answered), any other key its first sample by name, or else the sum of its service; for all names, also one that reads like a node's |
| StatsWorker.EntryIsTotal | backend/collector/stats_worker.go:139-181 | in each of ten metrics a node's entry is the total over the samples of its host, and a service's, where no container has its name, the total over its samples |
| StatsWorker.ServiceEntryExactly | backend/collector/stats_worker.go:145-160 | a name of no node and no container has an entry if and only if some sample is of a service of that name, which is not empty and does not read like a node's |
| StatsWorker.FirstHoldsName | backend/collector/stats_worker.go:142-144 | a name that is no node's holds the stats of the first sample of that name |
| StatsWorker.ThrottledIsWorst | backend/collector/stats_worker.go:170 | throttling in an aggregate is at least that of every sample in it, and is that of one of them or zero |
| StatsWorker.NodesAddUp | backend/collector/stats_worker.go:148-181 | in each of ten metrics the node entries over all hosts add up to the total over all stamped samples |
| StatsHistory.StatsHistory.constructor | backend/collector/stats_history.go:46-51 | an empty history counts no samples |
| StatsHistory.StatsHistory.Record | backend/collector/stats_history.go:55-66 | the points kept after a new one, and the sample counter still right |
| StatsHistory.StatsHistory.Evict | backend/collector/stats_history.go:69-79 | the leading points older than the retention period go, and the counter follows |
| StatsHistory.StatsHistory.Downsample | backend/collector/stats_history.go:91-134 | old points become buckets, recent ones stay, and the counter is right |
| StatsHistory.TrimmedIsLongestFit | backend/collector/stats_history.go:53-66 | recording keeps the newest point and the longest run of points before it within the sample bound |
| StatsHistory.OlderMembers | backend/collector/stats_history.go:68-79 | for points in time order eviction keeps exactly those within the retention period |
| StatsHistory.DownsampleBucket | backend/collector/stats_history.go:139-173 | the loops over a bucket's points, over the containers of a point in any order, and over the averages |
| StatsHistory.BucketIsMeanAndLast | backend/collector/stats_history.go:136-173 | a bucket's CPU is the mean over the points that have the container; its gauges are those of the last such point |
| StatsHistory.MergeOld | backend/collector/stats_history.go:107-124 | the loop that cuts old points into buckets |
| StatsHistory.GroupsHoldAll | backend/collector/stats_history.go:111-124 | the buckets hold every old point once, in order |
| StatsHistory.GroupsAreBuckets | backend/collector/stats_history.go:108-124 | for points in time order each bucket holds exactly the points whose time truncates to its start |
| StatsHistory.MergedSettles | backend/collector/stats_history.go:108-124 | bucket times are aligned, and each is at least one width past the one before |
| StatsHistory.DownsampledKeepsNames | backend/collector/stats_history.go:91-134 | downsampling loses no series, adds none, and never holds more samples |
| StatsHistory.DownsampledTwice | backend/collector/stats_history.go:91-134 | at a fixed clock a second downsampling changes nothing, for any points and any width |
| StatsHistory.RunKeeps | backend/collector/stats_history.go:53-134 | over any run with a forward clock the points are in time order and within the sample bound, or are one point |
| StatsHistory.Thin | backend/collector/stats_history.go:231-246 | the points kept at a step and the accepted names they hold |
| StatsHistory.EvenlyThinned | backend/collector/stats_history.go:228-239 | the k-th kept point from the end is the one k steps before the newest, and no such point is missing |
| StatsHistory.SelectionInOrder | backend/collector/stats_history.go:195-208 | a query's points are in time order and include the newest in range |
| StatsHistory.InRangeExactly | backend/collector/stats_history.go:195-200 | a query looks at exactly the points in its range, both ends included |
| StatsHistory.TimestampsAreSeconds | backend/collector/stats_history.go:211 | a timestamp is the second its point falls in |
| StatsHistory.NamesExactly | backend/collector/stats_history.go:231-246 | the series are those of the accepted names that some kept point has |
| StatsHistory.SeriesAligned | backend/collector/stats_history.go:210-223 | every series has its container's value at every timestamp, zero where a point lacks it |
| StatsHistory.ThinUntilFits | backend/collector/stats_history.go:203-208 | the doubling loop ends, with a power of two that fits while no smaller one does |
| StatsHistory.Query | backend/collector/stats_history.go:186-226 | the aligned series of the accepted containers over the least power of two that fits |
| StatsHistory.OneThinning | backend/collector/stats_history.go:203-208 | there is one such power, so a query has one answer |
| StatsHistory.AnswerFits | backend/collector/stats_history.go:203-208 | an answer has at most `maxQueryCells` values per metric, or one point |
| PortRanges.MergeLoop | backend/collector/ports.go:23-30 | the in-place loop over sorted mappings extends the last run or starts one |
| PortRanges.Ranges | backend/collector/ports.go:15-35 | the ranges shown for any order the unstable sort may leave |
| PortRanges.MergeRunsConserves | backend/collector/ports.go:23-30 | merging keeps exactly the port bindings, host-only ranges untouched |
| PortRanges.RunsGoOn | backend/collector/ports.go:23-45 | merging goes as far as it can: of mappings of one port, or of a host range for one, no run is followed by what would continue it |
| PortRanges.RangesConserve | backend/collector/ports.go:9-35 | the ranges stand for exactly the bindings of the input, in host order |
| PortRanges.RangesTwice | backend/collector/ports.go:15-35 | applied again they do not change, when the mappings have distinct keys |
| PortRanges.SortByHostSorts | backend/collector/ports.go:31-33 | the result is sorted by host port, then container port |
| PortRanges.SortByHostReorders | backend/collector/ports.go:31-33 | the last sort only reorders |
| Components.BuildAdjacency | frontend/src/layout/components.ts:27-37 | top-level elements are neighbours if and only if a lifted edge links them |
| Components.Explore | frontend/src/layout/components.ts:44-54 | the stack loop ends and finds everything reachable that was not visited before |
| Components.FindComponents | frontend/src/layout/components.ts:16-59 | a partition into components that covers every top-level element |
| Components.ComponentIsClass | frontend/src/layout/components.ts:39-56 | an element is in a member's component if and only if it is connected to that member |
| Components.SameComponentIffConnected | frontend/src/layout/components.ts:3-14 | two elements share a component if and only if a path of lifted edges connects them |
| Components.InExactlyOne | frontend/src/layout/components.ts:42-56 | every element is in exactly one component, once |
| Components.OnlyTopsAndMissingGroups | frontend/src/layout/components.ts:23-37 | a component holds top-level elements and, at most, absent parent groups that edges lift to |
| ElkGraph.AddElements | frontend/src/layout/elkGraph.ts:92-118 | the elements of a component, groups with the nodes inside them |
| ElkGraph.SplitEdges | frontend/src/layout/elkGraph.ts:122-140 | a component's edges, split into those internal to each group and those at the root |
| ElkGraph.AttachEdges | frontend/src/layout/elkGraph.ts:142-147 | the in-place loop attaches each group's edges and changes nothing else |
| ElkGraph.BuildElkChildren | frontend/src/layout/elkGraph.ts:78-151 | all elements with their own internal edges, and all root edges, component by component |
| ElkGraph.PickElements | frontend/src/layout/elkGraph.ts:167-169 | of all elements a component picks exactly its own |
| ElkGraph.PickEdges | frontend/src/layout/elkGraph.ts:170-174 | and of all root edges |
| ElkGraph.WrapOne | frontend/src/layout/elkGraph.ts:167-189 | a lone element without edges stays bare, anything else is wrapped |
| ElkGraph.WrapComponents | frontend/src/layout/elkGraph.ts:158-193 | one child of the root for each component |
| ElkGraph.EdgesOnce | frontend/src/layout/elkGraph.ts:78-193 | any edge is in the graph as often as in the view if both its ends are in one component and it is not inside an absent group, and otherwise not at all |
| ElkGraph.ElementsOnce | frontend/src/layout/elkGraph.ts:92-118 | every known member of a component is in the graph once |
| ElkGraph.NodePlaced | frontend/src/layout/elkGraph.ts:55-66 | for nodes with distinct IDs: groups and nodes without a parent are at the top level, and a node is inside a group's element if and only if it names that group as its parent |
| ElkGraph.GraphIsComplete | frontend/src/layout/elk.ts:131-143 | with the components found for the view, every edge between top-level elements and every such element is in the graph, none twice |
| ElkGraph.EdgeHome | frontend/src/layout/elkGraph.ts:120-140 | an edge is with a group if and only if both its ends are in that group, else at the root of its component |
| ElkGraph.BuildGraph | frontend/src/layout/elk.ts:131-143 | the pipeline from nodes and edges to the root's children |
| EdgePaths.CollapseFirst | frontend/src/layout/edgePaths.ts:25-70 | the first short U-turn is bridged, if there is one |
| EdgePaths.SmoothUturns | frontend/src/layout/edgePaths.ts:19-74 | the loop ends, with the path that bridging U-turns one by one leads to |
| EdgePaths.CollapseKeeps | frontend/src/layout/edgePaths.ts:31-69 | a bridge keeps both ends of the path, adds no length, and every segment stays along an axis |
| EdgePaths.SmoothKeeps | frontend/src/layout/edgePaths.ts:11-74 | so does smoothing as a whole |
| EdgePaths.NoUturnLeft | frontend/src/layout/edgePaths.ts:11-74 | no short U-turn is left, and smoothing again changes nothing |
| EdgePaths.SmoothChangesOnlyUturns | frontend/src/layout/edgePaths.ts:11-74 | a path changes if and only if it has a short U-turn |
| EdgePaths.NothingGoesBack | frontend/src/layout/edgePaths.ts:30-69 | no four points of a smoothed path go one way, over a stub of less than 30, and back the other way |
| EdgePaths.SmoothChangesExactly | frontend/src/layout/edgePaths.ts:30-69 | a path changes if and only if four of its points do |
| LogWindows.ActionKeeps | frontend/src/hooks/logWindowsState.ts:71-251 | every action keeps the windows in shape, and changes how many tabs a container has only by opening or closing it |
| LogWindows.OpenKeeps | frontend/src/hooks/logWindowsState.ts:80-120 | opening adds a tab to a container that has none, and to no other |
| LogWindows.OpenShows | frontend/src/hooks/logWindowsState.ts:80-120 | afterwards a window that is not minimized, with every other window behind it, shows the container |
| LogWindows.MergeKeeps | frontend/src/hooks/logWindowsState.ts:186-205 | merging conserves every tab |
| LogWindows.MergeShows | frontend/src/hooks/logWindowsState.ts:185-205 | every other window is behind the target, which has the source's tabs behind its own, the first of them active; the source is gone |
| LogWindows.DetachKeeps | frontend/src/hooks/logWindowsState.ts:207-237 | detaching conserves every tab |
| LogWindows.CloseTabKeeps | frontend/src/hooks/logWindowsState.ts:239-251 | closing takes one tab, or the window with its last tab, and nothing when there is no such tab |
| LogWindows.MinimizeHides | frontend/src/hooks/logWindowsState.ts:151-153 | minimizing hides that window and changes nothing else |
| LogWindows.RestoreShows | frontend/src/hooks/logWindowsState.ts:155-162 | restoring shows it in front of all others, otherwise as it was |
| LogWindows.FocusRaises | frontend/src/hooks/logWindowsState.ts:71-78 | focusing puts a window in front of all others |
| LogWindows.SetActiveShows | frontend/src/hooks/logWindowsState.ts:164-173 | choosing a tab makes it active, or the nearest one when the number is out of range |
| LogWindows.ResizeFits | frontend/src/hooks/logWindowsState.ts:140-149 | a new size is the one asked for in whole pixels, and at least 280 by 160 |
| LogWindows.SearchIsKept | frontend/src/hooks/logWindowsState.ts:175-183 | a query is kept with its tab, and no other tab or window changes |
| LogWindows.DetachShows | frontend/src/hooks/logWindowsState.ts:207-237 | a detached tab is the only one of a new window in front of all others; its old window keeps the other tabs in order |
| LogWindows.RunKeeps | frontend/src/hooks/logWindowsState.ts:44-251 | over any run a container has at most one tab; IDs and z values are distinct and below their counters; every window has a tab, an active one in range, and at least the least size |

## Left out

- LogHistory.PagingIsComplete: for container logs whose stamps parse, are in time order within a source and differ between all lines; for pages below the byte bound, which `GapFreeExactly` shows is needed; and for sources that all answer: the code skips a source that fails, and what it would have sent.
- LogHistory.FetchLogHistory: service log sources are not modelled; their window per swarm task is capped, so that arbitrarily deep history is out of their reach.
- RateLimit.AnswersMatch: a client evicted with attempts in the window may be allowed too often until they expire; `RightExactly` says for how many clients that cannot happen.
- RateLimit.FirstRefusalExactly: with room for all clients; a bucket that is evicted, or withdrawn with its last attempt (`ReportedAgain`), forgets that a refusal was reported.
- RateLimit.RateLimiter.TouchClient: buckets are values in the map; that the code hands a dropped bucket's memory on to the new client is not captured.
- ReplayCache.Verifier.VerifyRequest: header parsing and signatures are given, and so is whether the host is local; the refresh of the agent's own addresses is not modelled. The clock is read in the same step as the cache changes.
- StateManager.MergeSnapshots: the final sort of nodes and edges by ID is left out; no claim depends on their order.
- Graphs.DiffSnapshots: edges are compared by ID only, as in the code, so a subscriber is promised edge IDs and not edges.
- Graphs.DiffReplays: the lists of a delta are maps and sets by ID; their order, which follows Go's map order, is not captured.
- StateManager.SubscribersSeeTheGraph: a subscriber that missed news is promised nothing afterwards, though a later update may bring it back in step; what it may read after unsubscribing is not modelled.
- SlotLimiter.AllReturned: a handler that never finishes keeps its slots; a panicking handler is one that finishes.
- AgentPool.AgentPool.VerifyNodes: the list of running swarm tasks arrives as a table from address to nodes; building that table is not modelled.
- AgentPool.TrustIsEarned: when a DNS answer repeats an address, only the safety half is claimed.
- AgentStats.StatsTables.Samples: decoding an answer and cutting it at 2000 samples is not modelled; the list of reporting hosts is kept as a multiset, the code sorts it.
- StatsWorker.NodesAddUp: sums are unbounded; 64-bit wrap-around of a counter is not modelled, and CPU rates are reals.
- StatsHistory.DownsampleBucket: sums and counts are kept in one table instead of two with the same keys; float rounding is not modelled.
- PortRanges.RangesTwice: with repeated keys the unstable sort may order them differently the second time; `RunsGoOn` says nothing about inputs that hold a run already, which the code does not continue past.
- ElkGraph.GraphIsComplete: an edge with an end in an absent parent group is promised nothing; `EdgesOnce` says which the code drops. Sizes and layout options of elements are left out.
- EdgePaths.SmoothUturns: collecting an edge's sections from the layout result is not modelled.
- LogWindows.RunKeeps: positions are left out; detaching and resizing do not clamp them, so windows can be off screen.
- WebSocket delivery after the manager's channel, which drops messages for slow clients by design.
- Secret detection, a best-effort list of patterns.
- Compose file loading, config parsing, validation and the inspect endpoints.
- The Docker, swarm, DNS and HTTP clients, and rendering.
