# KepAgent model

KepAgent is a node agent that drives game-server containers. This project models the parts of it whose
correctness depends on interleavings, on state kept over time or on transformations that must not lose
anything, and proves what those parts promise, for every input, every run or every reachable state.

| file | models |
|---|---|
| `LiveLogger.dfy` | the lock-protected log buffer and its batch drain: any interleaving of goroutines, and the object itself |
| `LiveOutput.dfy`, `Tokenizer.dfy` | the channel pipeline behind a child process's live output, and the line scanner in it |
| `ReplaySlots.dfy`, `ReplayCache.dfy`, `ReplayListing.dfy` | replay transfers: slots, the stale-while-revalidate cache, filter, sort and page |
| `Monitor.dfy` | the monitor's polling loop, against a specification over the whole sample history |
| `Runtime.dfy`, `BatchSpec.dfy`, `DockerState.dfy` | container actions and their batches over an abstract Docker daemon that can fail |
| `RateLimiter.dfy` | the fixed-window upload limiter |
| `ConfigLayers.dfy`, `ConfigHeap.dfy` | three-layer configuration: on values, and on a heap of maps and slices |
| `Metamod.dfy` | the rewrite of `gameinfo.gi` |
| `RconPackets.dfy` | Source RCON packets (Valve's Source RCON Protocol, "Basic Packet Structure") |

Conventions. Concurrent parts are step systems: an `Action` is one atomic step of some goroutine, an action that is
not possible in a state changes nothing, and `Run` folds a list of actions, so a lemma over all lists is a lemma
over all interleavings. Parts that update objects are classes whose methods are proved against functions on values;
the lemmas are about those functions. Failing calls (Docker, network, file system) are arbitrary choices, and a
failed Docker call may or may not have taken effect; ghost fields record what the outside world did (failed calls,
reported cancellations, waits cut short, sleeps), so that errors can be traced to a cause. Clocks are integers that
never go back; sleeps and timers last at least as long as asked. Texts are sequences of characters and streams are
sequences of bytes. Server keys and replay target keys are distinct, as the configuration's validation demands
(internal/config/config.go:489, 501); container names need not be.

Some properties that one would expect do not hold in general; the exact condition under which they hold is proved,
and each has a lemma at a failing input:

| property | holds exactly when | fails, for example |
|---|---|---|
| log batches end being sent in the order they were cut off (`LiveLogger.InOrderIff`) | at most one goroutine is sending at any moment, as when calls are made one at a time (`CallsOneAtATimeInOrder`) | `DeliveryMayOvertake` |
| an imported file is shown by every later cached listing (`ReplayCache.NewFileAlwaysShownIff`) | no walk is under way at the rename | `StraddlingRefreshHides` |
| the page delivered is the one asked for (`ReplayListing.RightPageIff`) | the offset does not wrap, or wraps past the end | `OverflowWitnesses` |
| the removed flags of a batch restart are those of single restarts (`BatchSpec.FlagsAgreeIff`) | repeated containers are of one server and were there at first | `SharedNameFlagsDiffer` |
| deleting the inserted `gameinfo.gi` line restores the file (`Metamod.DeletingLineRestoresIff`) | its line breaks are uniform | `MixedBreaksNotRestored` |
| a packet body comes back unchanged (`RconPackets.BodyUnchangedIff`), and framing is kept (`FramingKeptIff`) | it does not end in NUL; it fits | `BodyWitnesses` |
| the upload rate is the configured one (`RateLimiter.RateIff`) | the multiplication stays in 64 bits | `RateWitness` |
| a server's own command template makes its command (`ConfigLayers.CommandIs`) | no layer brings a command | `TemplateShadowed` |

## Model

| member | source | states |
|---|---|---|
| `LiveLogger.NothingLostOrDuplicated` | internal/agent/logger.go:35-73 | In every interleaving the batches in lock order followed by the buffer are the accepted entries in order, `messages` holds their texts, every batch has 1 to 200 entries, and every batch is sent by exactly one goroutine, once, even if sending fails |
| `LiveLogger.BufferBounded` | internal/agent/logger.go:44-67 | In every interleaving the buffer holds at most 9 entries plus one for each call that decided to flush and has not taken the lock yet |
| `LiveLogger.QuietState` | internal/agent/logger.go:44-73 | With no call in flight the buffer holds at most 9 entries and every batch has been handed over |
| `LiveLogger.EmitStep` | internal/agent/logger.go:35-53 | What one emit does to the shared state, in plain terms, and when it makes a drain due |
| `LiveLogger.DrainSteps` | internal/agent/logger.go:55-73 | From any state a drain whose sends succeed can run to its end: it hands over the whole buffer in batches, empties it and leaves other batches alone |
| `LiveLogger.FailedSend` | internal/agent/logger.go:69-71 | A failed send ends the drain and its batch is not put back |
| `Basics.IsSpaceIff` | internal/agent/logger.go:36-40 | Which code points are white space |
| `Basics.TrimSpaceIs` | internal/agent/logger.go:36 | What trimming leaves is the text without white space at both ends, and nothing else is taken away |
| `LiveLogger.InOrderIff` | internal/agent/logger.go:55-72 | In every interleaving, at each moment whichever send ends next is next in order iff at each moment at most one goroutine is sending; then all sends have ended in the order the batches were cut off |
| `LiveLogger.TwoSendersOvertake` | internal/agent/logger.go:63-72 | With two sends under way the later batch may end before the earlier one |
| `LiveLogger.CallsOneAtATimeInOrder` | internal/agent/logger.go:35-73 | Calls of `Emit` and `Flush` made one at a time deliver in order |
| `LiveLogger.DeliveryMayOvertake` | internal/agent/logger.go:63-69 | The smallest run in which a later batch is delivered while an earlier one is still being sent |
| `LiveLogger.LiveLogger.constructor` | internal/agent/logger.go:22-29 | A new logger is empty and counts its flush interval from its creation |
| `LiveLogger.LiveLogger.TakeBatch` | internal/agent/logger.go:57-67 | The critical section cuts at most 200 entries off the front and restarts the interval, as in the step system |
| `LiveLogger.LiveLogger.Flush` | internal/agent/logger.go:55-73 | A drain hands over a prefix of the buffer in batches of 200, of which only the last may be shorter and only if it empties the buffer; what is not handed over is still buffered; it succeeds iff no send failed, then with an empty buffer, and stops at the first failure |
| `LiveLogger.LiveLogger.Emit` | internal/agent/logger.go:35-53 | A message that is all white space changes nothing. Any other is appended without its outer white space, with its level or `info` for a blank one; a drain happens exactly at ten entries or half a second after the last one, and hands over all but what is still buffered, in batches of 200 of which only the last may be shorter |
| `LiveOutput.ChannelsNeverMisused` | internal/runtime/runtime.go:1214-1269 | In every interleaving nobody has anything to send or close once `events` is closed, the queue holds at most 100 events, `waitCh` is open and empty until its result is sent, and after the range loop the receive from `waitCh` cannot block and gives the process's real result |
| `LiveOutput.OutputIsMerge` | internal/runtime/runtime.go:1216-1266 | At return the consumed events are an order-preserving merge of all both readers had to send, and the output parts are the merge of both streams' stripped non-empty texts |
| `LiveOutput.OutputIsTokens` | internal/runtime/runtime.go:1216-1256 | At return the output has, of either stream and in order, the stripped non-empty texts of its tokens: of all tokens if each is shorter than 1048576 bytes, else of those before the first that is not, also if the stream then fails |
| `LiveOutput.LoggedIs` | internal/runtime/runtime.go:1258-1265 | Each text is logged unless the stop condition holds at it; without any such text everything is |
| `LiveOutput.SuccessIff` | internal/runtime/runtime.go:1269-1279 | Success, and each of the three errors in their order: too late; the process ended badly and no text met the stop condition; a read failed or a line had a mebibyte |
| `LiveOutput.NeverStuck` | internal/runtime/runtime.go:1214-1269 | Until the call returns some goroutine can move, or only the end of the process is missing: no deadlock |
| `LiveOutput.StepShrinks` | internal/runtime/runtime.go:1214-1269 | Every step that does anything makes a measure smaller |
| `LiveOutput.RunsAreBounded` | internal/runtime/runtime.go:1214-1269 | An interleaving has at most two steps per event and ten more; with the absence of deadlock the consumer must return |
| `Tokenizer.ScanLinesOrCarriageReturns` | internal/runtime/runtime.go:1331-1342 | A step that delivers a token advances and the token is a prefix of the data |
| `Tokenizer.ScanStream` | internal/runtime/runtime.go:1217-1226 | However reads cut the stream into pieces, the scanner loop delivers the same tokens and the same error, a function of the whole stream |
| `Tokenizer.DeliveredTokens` | internal/runtime/runtime.go:1219-1226 | They are the tokens of one pass over the stream, up to the first line that reaches the buffer limit, and all of them without such a line |
| `Tokenizer.TokensRebuildStream` | internal/runtime/runtime.go:1331-1342 | Tokens and separators rebuild the stream byte for byte |
| `Tokenizer.TokensUnbroken` | internal/runtime/runtime.go:1331-1342 | No token contains a separator |
| `Tokenizer.LineEndingsAgree` | internal/runtime/runtime.go:1331-1342 | The non-empty tokens are the non-empty lines, whichever of LF, CR and CRLF ends each line, and whether or not the last one is ended |
| `ReplaySlots.AtMostLimitHolders` | internal/runtime/runtime.go:1438-1455 | In every interleaving the operations holding a target's slot are as many as its channel's length and at most its limit |
| `ReplaySlots.ReleaseNeverMisses` | internal/runtime/runtime.go:1457-1463 | The default branch of release is never taken, and a release gives back one slot of its own target and of no other |
| `ReplaySlots.CancelReleasesNothing` | internal/runtime/runtime.go:1447-1455 | Helper, by definition: a cancelled acquire changes no channel and no holder |
| `ReplaySlots.AcquirableIff` | internal/runtime/runtime.go:1447-1455 | A waiting operation can get a slot iff fewer than the limit hold one |
| `ReplaySlots.BeginWaits` | internal/runtime/runtime.go:1438-1448 | A new operation waits, with a channel for its target and no slot taken |
| `ReplaySlots.ReleasedSlotIsFree` | internal/runtime/runtime.go:1447-1463 | A slot given back can be taken by whoever waits for the same target |
| `ReplaySlots.CapacityIsLimit` | internal/runtime/runtime.go:1438-1445 | The channel made at first use keeps the target's limit as its capacity, with 1 for a limit of zero or less |
| `ReplayCache.CachedMissNeedsStraddlingRefresh` | internal/runtime/runtime.go:1534-1617 | In every interleaving a cached listing after a finished import misses the file only if its walk began before the rename and was stored after it |
| `ReplayCache.WalkAfterImportFinds` | internal/runtime/runtime.go:1549-1617 | A listing that walks itself after an import finds the file |
| `ReplayCache.WalkFindsWhatWasThere` | internal/runtime/runtime.go:1549-1589 | A walk finds what was on disk when it began, and its result becomes the cached one |
| `ReplayCache.QuietImportNeverMissed` | internal/runtime/runtime.go:1757-1765 | If every walk under way at the rename had the file from its beginning, no later cached listing misses it, whatever happens afterwards |
| `ReplayCache.BlindWalkHides` | internal/runtime/runtime.go:1549-1589 | From any state, a walk that began without the file and is stored after the import hides it |
| `ReplayCache.AlwaysShownIff` | internal/runtime/runtime.go:1534-1617 | Every cached listing after the import shows its file, whatever happens, iff no walk under way at the rename began without it |
| `ReplayCache.NewFileAlwaysShownIff` | internal/runtime/runtime.go:1753-1765 | For a file that was not there before: iff no walk is under way at the rename |
| `ReplayCache.StraddlingRefreshHides` | internal/runtime/runtime.go:1576-1613 | The smallest run in which a finished import is not listed |
| `ReplayListing.EntriesFlip` | internal/runtime/runtime.go:1495-1532 | All four comparators are antisymmetric and call only entries with equal relative paths equal |
| `ReplayListing.EntriesTransitive` | internal/runtime/runtime.go:1495-1532 | All four comparators are transitive, so a sort with them is meaningful |
| `ReplayListing.CompareIs` | internal/runtime/runtime.go:1505-1529 | Texts compare by code points: a proper prefix or the smaller first difference comes first |
| `ReplayListing.MayPrecedeIff` | internal/runtime/runtime.go:1495-1532 | For each sort key, which entry may stand before which |
| `ReplayListing.FoundIff` | internal/runtime/runtime.go:1633-1643 | An entry matches iff the search term occurs in its lower-cased name or path, or is empty |
| `ReplayListing.SortedSelected` | internal/runtime/runtime.go:1633-1646 | The sorted filtered list has exactly the found entries, in the order of the sort key |
| `ReplayListing.ListPageIsPage` | internal/runtime/runtime.go:1648-1669 | The page has the entries from its offset on, with the right totals |
| `ReplayListing.SortUnique` | internal/runtime/runtime.go:1495-1532 | With distinct relative paths there is one sorted arrangement, whatever algorithm finds it |
| `ReplayListing.ListingIndependentOfWalk` | internal/runtime/runtime.go:1633-1646 | The filtered and sorted list depends on which files were found, not on the order of the walk |
| `ReplayListing.FilterCounts` | internal/runtime/runtime.go:1633-1644 | Filtering keeps exactly the matching entries with their multiplicity |
| `ReplayListing.FilterFiles` | internal/runtime/runtime.go:1633-1644 | The loop fills a new array with the matches in cached order and leaves the cached array alone |
| `ReplayListing.SortReplayFileEntries` | internal/runtime/runtime.go:1495-1532 | In-place sorting leaves a sorted permutation |
| `ReplayListing.ListReplayFiles` | internal/runtime/runtime.go:1630-1702 | The listing in plain terms: what is found by the trimmed lower-cased search, in the order of the sort key with relative paths between equals, everything or the page asked for, with page and page size brought into range, totals and `hasMore`; a negative 64-bit offset is a panic; the cached entries are untouched |
| `ReplayListing.Paged` | internal/runtime/runtime.go:1648-1702 | Clamped start and end cut out the page at the wrapped offset, or everything for `fetchAll` |
| `ReplayListing.PageFacts` | internal/runtime/runtime.go:1648-1669 | `hasMore` iff there is a later page; every page before the last is full, the last is not empty, later ones are |
| `ReplayListing.PagesConcatenate` | internal/runtime/runtime.go:1648-1669 | Pages 1 to `totalPages`, one after the other, are the whole sorted list |
| `ReplayListing.RightPageIff` | internal/runtime/runtime.go:1659-1669 | The page delivered is the one asked for iff the offset fits 64 bits or wraps to one past the end |
| `ReplayListing.OverflowWitnesses` | internal/runtime/runtime.go:1661-1675 | Two page numbers out of range: one leads to a negative slice bound, the other shows the first page again |
| `ReplayListing.ClampPageSize` | internal/runtime/runtime.go:1465-1473 | Page sizes end up between 1 and 50 and sizes in that range are kept |
| `Monitor.MonitorCheckSingle` | internal/runtime/runtime.go:893-966 | Success, each of the three failures and an interruption as an if-and-only-if over the history, with the windows in nanoseconds of the settings, the clean-up of each, and the last 50 samples as the timeline of a success; after each undecided sample `runningSince` or `nonRunningSince`, whichever applies, is when the current streak began |
| `Monitor.JudgeIs` | internal/runtime/runtime.go:920-959 | Each verdict at a sample in plain terms: restarts, seconds the current streak has lasted, total runtime |
| `Monitor.StreakStep` | internal/runtime/runtime.go:924-951 | How the start of the current streak moves from one sample to the next |
| `Monitor.StreakIsMaximal` | internal/runtime/runtime.go:924-951 | The streak the specification speaks of is all of one kind and cannot be extended backwards |
| `Monitor.StreakStartUnique` | internal/runtime/runtime.go:924-951 | The start of the current streak is the only index where a maximal run of equal kind can begin |
| `Monitor.SuccessIff` | internal/runtime/runtime.go:920-947 | Success comes at a sample iff a maximal running streak has spanned the stable time there, its restarts are below the threshold and every earlier sample was quiet |
| `Monitor.FlapRestartsWindow` | internal/runtime/runtime.go:924-951 | After a non-running sample a success needs the whole stable time again |
| `Monitor.OnlyRunningMatters` | internal/runtime/runtime.go:924-956 | Changes between different non-running statuses never change a verdict |
| `Monitor.MonitorTerminates` | internal/runtime/runtime.go:901-965 | Polled at least d apart, every trace is decided within floor(M / d) + 2 samples, endless flapping included |
| `Runtime.Runtime.constructor` | internal/runtime/runtime.go:86-102 | The index finds every server by key, and each group list is a scan of the servers with multiplicity |
| `Runtime.Index` | internal/runtime/runtime.go:94-99 | The two loops of `New` build that index and those lists |
| `Runtime.AddToGroups` | internal/runtime/runtime.go:96-98 | A server enters a group's list once for every time it names the group |
| `BatchSpec.ScanIn` | internal/runtime/runtime.go:94-99 | A group's list has exactly the servers that name the group |
| `BatchSpec.ScanCounts` | internal/runtime/runtime.go:94-99 | A member is listed as often as it names the group |
| `BatchSpec.ScanGrows` | internal/runtime/runtime.go:94-99 | Members are listed in the order of the servers |
| `Runtime.Runtime.CheckCancelled` | internal/runtime/runtime.go:166-188 | A context that is done is always noticed; so is a cancelled command if the control plane answers so, and nothing else is taken for a cancellation |
| `Runtime.Runtime.StartServer` | internal/runtime/runtime.go:321-360 | Success leaves the container running and all others alone, and reports a change iff it was not running; a failure touches at most this container and has a cause: an unknown key, a cancellation, or a Docker call that failed of itself; without such a cause it succeeds |
| `Runtime.Runtime.RemoveServer` | internal/runtime/runtime.go:370-399 | Success leaves the container absent and all others alone, and reports a change iff it was there; a failure touches at most this container and has a cause outside |
| `Runtime.Runtime.RestartServer` | internal/runtime/runtime.go:401-423 | Success leaves the container running and tells whether it was there before; a failure touches at most this container and has a cause outside |
| `Runtime.Runtime.RunSingleAction` | internal/runtime/runtime.go:550-563 | Each action does what a batch of one does, a restart always reports a change, an unknown key or action is an error without effect |
| `Runtime.Runtime.WaitBeforeNextStart` | internal/runtime/runtime.go:565-577 | Between two servers it waits 15 seconds unless the context is done; after the last it does not wait |
| `Runtime.Runtime.HandleNext` | internal/runtime/runtime.go:494-510 | One iteration extends effect, count and start calls of the batch by one server, and after a start waits; a done context stops it before any call |
| `Runtime.Runtime.RunActionLoop` | internal/runtime/runtime.go:491-512 | A batch that succeeds has the effect and the count of its action on all names, with one start call for each change; an aborted one has a cause outside, has handled exactly a prefix and touched at most one more container; starts are 15 seconds apart, the control plane is asked twice per server for a cancellation, and after a wait that was cut short no start call is made |
| `Runtime.Runtime.RemoveNext` | internal/runtime/runtime.go:517-530 | One removal of the first phase and its record; a done context stops it |
| `Runtime.Runtime.RemovePhase` | internal/runtime/runtime.go:516-531 | The first phase of a batch restart removes every listed container and starts none |
| `Runtime.Runtime.StartNext` | internal/runtime/runtime.go:534-546 | One start of the second phase, with its wait; a done context stops it before any call |
| `Runtime.Runtime.StartPhase` | internal/runtime/runtime.go:532-547 | The second phase starts the servers in order, 15 seconds apart, with one start call for each change, fails only for a cause outside, and makes no start call after a wait that was cut short |
| `Runtime.Runtime.RestartActionList` | internal/runtime/runtime.go:515-548 | At the first start call all listed containers but the one being started are absent; success leaves the state and flags of the specification; an abort in either phase has a cause outside and has handled exactly a prefix |
| `Runtime.Runtime.RestartEach` | internal/runtime/runtime.go:401-423 | Calling `RestartServer` for one server after the other ends in the state and gives the flags that batch restarts are compared with |
| `Runtime.Runtime.RunActionList` | internal/runtime/runtime.go:487-513 | For every action a batch that is not aborted does and reports what the specification says; one that meets no cancellation, no done context and no failing call is not aborted; an aborted one leaves unlisted containers alone |
| `Runtime.Runtime.RunServers` | internal/runtime/runtime.go:457-471 | An unknown key stops everything before Docker is touched; otherwise the batch is over the distinct non-blank keys in order, and even if aborted spares all other containers |
| `Runtime.Runtime.RunGroup` | internal/runtime/runtime.go:473-485 | An unknown group is an error without effect; otherwise the batch is over the scan of the servers for the group, and even if aborted spares all other containers |
| `Runtime.Runtime.ServersForKeys` | internal/runtime/runtime.go:198-214 | It succeeds iff every distinct non-blank key is known, with those servers in order; the error names a key that is not |
| `Runtime.DedupGrows` | internal/runtime/runtime.go:200-212 | Keys are selected in the order of their first occurrence: what a prefix of the list selects comes first |
| `BatchSpec.DedupIsSet` | internal/runtime/runtime.go:198-214 | The selected keys have no repetition, lose none of the non-blank trimmed keys and invent none |
| `DockerState.StartAllAt` | internal/runtime/runtime.go:487-513 | A batch start, duplicates and shared names included, leaves every listed name running and every other container as it was |
| `DockerState.RemoveAllAt` | internal/runtime/runtime.go:487-513 | A batch stop or remove leaves exactly the unlisted containers, as they were |
| `DockerState.StartChangesCount` | internal/runtime/runtime.go:490-504 | `changed` of a start is the number of distinct listed names not running at first |
| `DockerState.RemoveChangesCount` | internal/runtime/runtime.go:490-504 | `changed` of a stop or remove is the number of distinct listed names present at first |
| `DockerState.StartAgain` | internal/runtime/runtime.go:487-513 | A second start of the same list changes nothing and reports 0 |
| `DockerState.TwoPhaseState` | internal/runtime/runtime.go:515-548 | Removing all and then starting all ends in the state of single restarts one after the other, for any list |
| `DockerState.AbortedRestart` | internal/runtime/runtime.go:532-538 | If the second phase stops at a server, those before it are running and those after it absent, for distinct names |
| `BatchSpec.FlagsAgreeIff` | internal/runtime/runtime.go:529-541 | The removed flags equal those of single restarts iff every repeated container repeats the same server and was there at first; distinct names are such a case |
| `BatchSpec.SharedNameFlagsDiffer` | internal/runtime/runtime.go:407-421 | Two servers that share a container name, not there at first: single restarts report a removal for the second, a batch restart does not |
| `BatchSpec.FlagAt` | internal/runtime/runtime.go:529-541 | What either flag is, for every server of every list |
| `BatchSpec.OthersKept` | internal/runtime/runtime.go:487-548 | After any prefix of a batch the unlisted containers are as they were |
| `RateLimiter.IntervalBound` | internal/api/client.go:40-68 | In any interval of length T at most (floor(T) + 2) times the limit is returned |
| `RateLimiter.CreationBound` | internal/api/client.go:33-68 | Within T of the creation at most (floor(T) + 1) times the limit is returned |
| `RateLimiter.ReturnedAll` | internal/api/client.go:65-67 | An interval that has all reads has all bytes |
| `RateLimiter.ReturnedSplit` | internal/api/client.go:65-67 | Two adjacent intervals have the bytes of both |
| `RateLimiter.RateIff` | internal/api/client.go:28-31 | The rate is the configured number of mebibits per second iff the multiplication does not leave 64 bits |
| `RateLimiter.RateWitness` | internal/api/client.go:28-31 | The smallest limit that overflows makes the rate negative, so that there is no limit |
| `RateLimiter.NewRateLimitedReader` | internal/api/client.go:23-38 | The source is returned unlimited iff the limit or the computed rate is not positive |
| `RateLimiter.RateLimitedReader.StartWindow` | internal/api/client.go:45-48 | A new window starts at least a second after the last one, with nothing charged to it |
| `RateLimiter.RateLimitedReader.Admit` | internal/api/client.go:45-59 | It sleeps only when the window is used up, for a second at most, and opens a window, just one, only when the current one is used up or a second old; afterwards at least one byte is left |
| `RateLimiter.RateLimitedReader.Take` | internal/api/client.go:65-67 | Any prefix the source returns is delivered in order and charged to the window |
| `RateLimiter.RateLimitedReader.Read` | internal/api/client.go:40-68 | Every call keeps the allowance between 0 and the limit and windows a second apart; a non-empty request is cut only to what the window has left, never to nothing; the bytes continue the delivered prefix |
| `RateLimiter.Drive` | internal/api/client.go:23-68 | Any run of reads from creation on meets both bounds over all intervals, the bytes it counts are those delivered, and these are a prefix of the source |
| `ConfigLayers.PassesAreLayered` | internal/config/config.go:317-436 | `applyDefaults` then `applyMode` is the three-layer lookup: per environment and label key, for ports and volumes (defaults, then mode, then server), for scalars, lists and the three flags |
| `ConfigLayers.DataLayered` | internal/config/config.go:342-361 | The part of it about maps, ports and volumes, including that cutting off the server's own items recovers the defaults |
| `ConfigLayers.PlainLayered` | internal/config/config.go:333-435 | The part of it about scalars, lists and flags |
| `ConfigLayers.CommandIs` | internal/config/config.go:466-472 | The command is the most specific one of the layers; only if there is none, the most specific template is rendered, so a server's own template is ignored whenever its mode or the defaults bring a command |
| `ConfigLayers.TemplateShadowed` | internal/config/config.go:466-472 | The failing case by itself: a server's template is ignored when its mode or the defaults bring a command |
| `ConfigLayers.FinalLabelsKeep` | internal/config/config.go:442-458 | `finalizeServer` overwrites no label that says something and adds none but its three |
| `ConfigLayers.FinalLabelsFilled` | internal/config/config.go:442-458 | Each of the three labels has its explicit value, or else the server's |
| `ConfigLayers.ProxiedAt` | internal/config/config.go:645-658 | The proxy is put exactly where the environment is blank, and nothing else changes |
| `ConfigLayers.NormalizedEnv` | internal/config/config.go:278-314 | Each variable of a normalized server is that of the most specific layer, or the proxy where that is blank |
| `ConfigLayers.NormalizedPorts` | internal/config/config.go:293-298 | The ports of a normalized server are those of the three layers, or its main port for both protocols, with normalized protocols |
| `ConfigLayers.NormalizedName` | internal/config/config.go:304-312 | The container name is the server's own, or made of the kepcs.mod label the layers give, else of the mode name, else of the first group |
| `ConfigLayers.NormalizedIs` | internal/config/config.go:278-436 | For one server every variable, label, port, volume, scalar, flag, list, command and name, in plain terms |
| `ConfigHeap.CloneMap` | internal/config/config.go:671-680 | A new map with the same entries; nil stays nil |
| `ConfigHeap.MergeMap` | internal/config/config.go:660-669 | A new map where the override wins, whatever the iteration order; both arguments are untouched |
| `ConfigHeap.CloneSlice` | internal/config/config.go:689-708 | New storage with the same items |
| `ConfigHeap.CutTrailing` | internal/config/config.go:696-715 | New storage without the trailing items |
| `ConfigHeap.ApplyDefaults` | internal/config/config.go:332-389 | The server object becomes what the value model says, with new maps and slices only |
| `ConfigHeap.ApplyMode` | internal/config/config.go:391-436 | The same for the mode; the copy of the original server it reads shares maps with the configuration and is not written |
| `ConfigHeap.FinalizeServer` | internal/config/config.go:438-473 | Labels are filled in place, in the server's own label map |
| `ConfigHeap.LayerServer` | internal/config/config.go:320-327 | Mode name, defaults and mode, with the original copied after the name is filled in |
| `ConfigHeap.ExpandServer` | internal/config/config.go:319-328 | One round of the loop makes the expanded server and leaves it with nothing that existed before |
| `ConfigHeap.NormalizedAtIs` | internal/config/config.go:319-327 | The mode is the one named by the trimmed mode name or else the first group; with it there are three layers, without it two |
| `ConfigHeap.ApplyServerDefaults` | internal/config/config.go:317-330 | After the loop every server is expanded from the same unchanged defaults and modes, and no two servers share a map or slice, whatever they shared before |
| `ConfigHeap.ApplyDockerProxyEnv` | internal/config/config.go:645-658 | The proxy variables are set in place as in the value model |
| `ConfigHeap.NormalizePorts` | internal/config/config.go:293-298 | Protocols are defaulted and lower-cased in place, element by element |
| `ConfigHeap.NormalizeVolumes` | internal/config/config.go:299-303 | Modes are defaulted in place, element by element |
| `ConfigHeap.NameContainer` | internal/config/config.go:304-312 | An unnamed container is named as in the value model |
| `ConfigHeap.NormalizeServer` | internal/config/config.go:279-313 | One server's restart policy and container name are filled in, its maps and slices normalized in place, nil maps replaced |
| `ConfigHeap.NormalizeOne` | internal/config/config.go:279-313 | One round of the second loop changes one server and no other, because nothing is shared |
| `ConfigHeap.NormalizeServers` | internal/config/config.go:278-314 | The second loop normalizes every server in place and keeps them apart |
| `ConfigHeap.Normalize` | internal/config/config.go:277-314 | Both loops: every server is, field by field, what its own settings, the mode its name selects (if there is one) and the defaults say, no two servers share a map or slice, and defaults and modes hold what they held |
| `Metamod.InsertAddsOneLine` | internal/runtime/runtime.go:1152-1170 | A successful insert adds one line directly before the first csgo entry: that entry's indentation, Game, its blanks and csgo/addons/metamod; there was no such entry before |
| `Metamod.InsertCases` | internal/runtime/runtime.go:1158-1169 | Unchanged iff some line has the metamod path, else changed iff some line has the csgo path, else an error |
| `Metamod.ResultBreaks` | internal/runtime/runtime.go:1153-1169 | The result has CRLF throughout if the content has any CRLF, and none if it has none |
| `Metamod.IsEntryIff` | internal/runtime/runtime.go:1158-1161 | What the two patterns accept: blanks, Game, blanks, the path, and then only blanks and perhaps a comment |
| `Metamod.InsertIdempotent` | internal/runtime/runtime.go:1152-1170 | For every content a second insert reports no change and returns its input |
| `Metamod.DeletingLineRestoresIff` | internal/runtime/runtime.go:1152-1170 | Deleting the inserted line restores the original iff its line breaks are all LF or all CRLF |
| `Metamod.MixedBreaksNotRestored` | internal/runtime/runtime.go:1152-1170 | A file with one CRLF and one LF that the insertion and the deletion do not restore |
| `Metamod.LinesInsert` | internal/runtime/runtime.go:1165-1168 | Inserting at the offset of a match adds one line there and leaves all other lines as they are |
| `Metamod.NormalizeExpand` | internal/runtime/runtime.go:1153-1170 | CRLF normalization undoes the final expansion, lone CRs included |
| `Metamod.ExpandNormalizeIff` | internal/runtime/runtime.go:1153-1170 | The expansion undoes the normalization iff every LF follows a CR |
| `RconPackets.WritePacket` | internal/rcon/client.go:62-75 | The buffer filled step by step is the encoding of the packet |
| `RconPackets.BytesOf` | internal/rcon/client.go:62-74 | The bytes of a packet by position: length, id and type as little-endian numbers, the body, two NULs |
| `RconPackets.Connection.ReadFull` | internal/rcon/client.go:85-88 | The array is filled from the connection, or the connection is used up |
| `RconPackets.Connection.ReadPacket` | internal/rcon/client.go:77-94 | What is read is the decoding of the bytes that were waiting, errors included, and the rest stays for the next read |
| `RconPackets.DecodeIs` | internal/rcon/client.go:77-93 | For any bytes, which error when, and else which packet: its numbers by position and the body up to its trailing NULs |
| `RconPackets.DecodeEncode` | internal/rcon/client.go:62-94 | Whatever follows it, a written packet is read back, without its body's trailing NULs, and the reader stops at its end |
| `RconPackets.StreamRoundTrip` | internal/rcon/client.go:62-94 | Every list of packets written back to back is read back as the same list |
| `RconPackets.BodyUnchangedIff` | internal/rcon/client.go:91 | The body is unchanged iff it does not end in NUL |
| `RconPackets.FramingKeptIff` | internal/rcon/client.go:69-84 | A packet is recovered with framing kept iff its body has at most 2^20 - 10 bytes |
| `RconPackets.OversizeRefused` | internal/rcon/client.go:82-84 | A longer body is refused, as long as its length fits the length field |
| `RconPackets.BodyWitnesses` | internal/rcon/client.go:62-94 | A body of one NUL comes back empty, one a byte too long is refused |
| `RconPackets.BrokenPacketFails` | internal/rcon/client.go:77-88 | A connection that breaks inside a packet yields an error, never a packet |

## Left out

- HTTP clients, the Docker socket, JSON and YAML decoding, flags, signals and the agent's dispatch: they only appear as calls that may fail.
- Contents of Docker requests, container ids, exit codes and server snapshots; the status of a container is one lower-case word.
- Summaries and messages of batch results, apart from `changed`, `total` and the `removed` flags; state reporting.
- The monitor's launch before and start of servers after the loop, its profiles, the loop over them, and the outcome of its clean-up calls, which the program ignores too.
- Overflow of Go's `time.Duration` in the monitor's windows and in restart counts.
- The text of the live output: joining parts, log levels, and the stop conditions used for steamcmd, which are an arbitrary function of the texts seen. Each stream is what was read of it, so a killed process has shorter streams.
- The regular-expression engine: the two `gameinfo.gi` patterns are line predicates. `stripANSI`, `renderCommand`, the exec config name and `strings.ToLower` are functions nothing is assumed of.
- The byte encoding of texts: invalid UTF-8 and the order of surrogates play no part.
- Cache expiry times and symlinks that move a replay directory: a cached result is served whether expired or not, and a target has one cache entry.
- Export of replays, and hashing, copying and path checks of imports, beyond slots, rename and cache invalidation.
- Deletion of replay files by others: the cache results assume that files do not disappear.
- MonitorCheckSingle: the samples are given as a list, so the poll ticker and the cancellation check between polls are only an interruption at an arbitrary point.
- RCON authentication and response ids, and A2S queries.
- Validation and decoding of configuration; the restart policy that decoding fills in before the layers apply, which is why defaults rarely matter for it; groups made empty instead of nil.
- ApplyDefaults: string lists (groups, entrypoint, command, template) are values, so that they are cloned is not modelled; nothing in the program writes into such a list.
- ApplyMode: the same for its string lists.
- ApplyServerDefaults: the same, so its separation of servers is about maps, ports and volumes; spare capacity of Go slices is not modelled either.
- Normalize: the same.
