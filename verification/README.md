# KubeBolt verification

A Dafny model of the parts of KubeBolt that carry real algorithms and state, and
proofs about them. Each module follows one area of the Go code: the chat turn,
the drain sessions, the fleet address index, the entitlement-narrowed reads, the
agent ingest path, the Kubernetes patches, the flow maps, the cluster modes and
the findings list. `dafny verify dfyconfig.toml` checks the whole project.

Where the Go code changes things step by step, the model is a class or a method
with a loop, proved equal to a specification function (or to a step of a state
machine); the promises are lemmas about that function or about every run of that
machine. Whatever comes from outside (model and tool answers, stores, clocks,
schedules, pod caches) is a parameter or a nondeterministic step. Strings stand for
Go's byte strings, so a length counts bytes; only in trimming a summary is a Unicode
space taken as one character.

| file | what it models |
| --- | --- |
| `Conversation.dfy`, `TurnLedger.dfy`, `TurnLoop.dfy` | transcripts and compaction; what a chat turn's event log says by itself: totals, routing, transcript; one Kobi chat turn over an oracle of model and tool answers |
| `DrainLog.dfy`, `DrainSession.dfy` | the drain log with its replay-then-tail subscribers, every interleaving of emit, subscribe, receive, unsubscribe and finalize; the session and manager objects |
| `FleetLookup.dfy`, `FleetNaming.dfy` | the address cache, one lookup's worker pool under any schedule, any number of lookups over one cache; naming the object behind an address |
| `ScopedReads.dfy` | API keys' cluster lists, the caller's cluster scope and the findings and runtime-event reads narrowed by it |
| `Exposition.dfy`, `IngestGate.dfy` | the text printer, a reader of the Prometheus text format (exposition formats, section "Text format details"), and one ingest batch from gate to store |
| `MetadataPatch.dfy`, `EnvPatch.dfy` | JSON merge patch (RFC 7396, section 2), label and annotation edits, environment edits under strategic merge |
| `FlowEdges.dfy`, `ExternalFlows.dfy` | the cluster map's edges; external destinations and callers |
| `ClusterMode.dfy` | how a cluster known through its agents is listed, over hello, disconnect, prune, delete and restart |
| `Findings.dfy` | summary, facets, pages and the top resource |
| `Common.dfy`, `Sorting.dfy` | sums over maps, filters, the sort contract and its total order |

## What the proofs found

- Compaction asked to preserve no turn, which the settings accept, indexes before the
  first turn and panics on any conversation that has one (`Conversation.CompactPanics`).
  A chat turn panics, persisting and finishing nothing, exactly when such a compaction
  was tried; every other turn keeps its word (`TurnLoop.HandleCopilotChat`).
- The compaction after the last answer is paid to the model the round had asked first,
  and so to the fallback exactly when that had answered before the round asked
  (`TurnLedger.NotStrayedIsRouted`). When the fallback answers by the retry, it goes to
  the primary that just failed (`TurnLoop.StaleCompaction`).
- A summary that was paid for gives its usage back exactly when it is not blank; a blank
  one's cost is lost (`Conversation.SummaryCostComesBack`, `Conversation.BlankSummaryIsLost`).
- A read of a cluster can begin after its lookup returned, against the comment on
  `collect`: a worker that had passed the stop test by then still begins one. At most
  max(parallel, 1) do (`FleetLookup.LateReads`, `FleetLookup.AReadBeginsLate`).
- A printed batch reads back as what was sent if and only if every metric name, label
  name and value in it is valid (`Exposition.RoundTrip`). Nothing on the ingest path
  checks the names, and a name with a line break is stored as two rows, the first
  without the tenant (`IngestGate.BrokenNameLosesTenant`). With valid names every stored
  row is the tenant's (`IngestGate.StoredRowsAreTheTenants`).
- A "set" row becomes the environment entry's new content exactly when the live
  entry has no member left over; turning a literal into a reference keeps the
  literal beside it (`EnvPatch.MergeReplaces`, `EnvPatch.LiteralToReferenceLeavesBoth`).
- At most one forwarded edge comes out per pair exactly when the pair has at most one
  forwarded row, or none and at most one redirected (`FlowEdges.OneForwardedEdge`).
- The page offset is a 64-bit product: the slice is the page exactly when that product
  is exact or lies past the rows (`Findings.SliceIsPage`).
- A drain-complete is not always the last event, nor its count the number of pod events
  before it: callbacks outlive the drain helper (`DrainSessions.ReportCounts` says when).
- A cluster with a live kube-proxy agent can be metrics-only after a hello with
  auto-register off, and after two overlapping handshakes; a sole kube-proxy agent that
  reconnects without it leaves the cluster agent-proxy; an operator delete does not take
  a purely metrics-only cluster off the list before the next restart
  (`ClusterModes.StepKeepsInv`, `ClusterModes.OverlappingHandshakesBreakIt`,
  `ClusterModes.ReconnectWithoutProxyKeepsMode`, `ClusterModes.DeleteUnlists`).

Two cases concern only what a function would do with an argument it is never given. A
narrowed read would lose rows if the empty cluster id were among the readable ones
(`ScopedReads.NamelessListedFails`); no scope the middleware builds lists it, so
`ScopedReads.EveryCallerReadsTopK` has no exception. `topKey` starts at -1 and would name
nothing if every rate were at or below that; rates are never negative, so each listed
destination shows its busiest address (`ExternalFlows.ShowsBusiestAddress`).

## Model

| member | source | states |
|---|---|---|
| TurnLoop.HandleCopilotChat | apps/api/internal/api/copilot.go:756-1288 | for any request, configuration and outside world: every event of the log is what the model, tool or summarizer answered then, asked about the transcript as the log tells it; every tool call the model asks for is made, in order, and its result, as it came or as the budget refused it, is in the round that follows; both usage ledgers equal those of the answered calls and applied compactions, at most maxRounds + 2 model calls, at most one fallback try, every call and compaction routed as the turn's history says with no way back, at most 12 connector calls sent, tool totals that add up; it panics exactly when a compaction was told to keep no turn of a transcript that has one, and otherwise ends with one persist, then one finish: what is persisted is well formed if the request was, and has every round and every closing answer in it since the last applied compaction |
| TurnLoop.Turn.Run | apps/api/internal/api/copilot.go:756-1288 | the whole turn ends in exactly one of its exits within the call bound; the tools-free close happens exactly on the max-rounds exit, after all rounds were asked; a first round answered in words alone leaves exactly the log foretold |
| TurnLoop.Turn.Round | apps/api/internal/api/copilot.go:756-1200 | a round that does not panic costs one call besides a retry, and either ends the turn or leaves everything ready for the next; one answered in words alone leaves exactly the log foretold |
| TurnLoop.Turn.FitPrompt | apps/api/internal/api/copilot.go:762-822 | the prompt is compacted exactly when its size, counted or reported, reaches the trigger, by the model that serves next; it panics exactly when no turn is to be kept of a transcript that has one |
| TurnLoop.Turn.Route | apps/api/internal/api/copilot.go:839-905 | the active model is asked, then once the fallback, exactly when the failure is recoverable, a round's client is still there and a usable fallback was not what failed; the answer is the fallback's if it answered, else the first one's; usage falls to the escalation's share exactly when that model answered |
| TurnLoop.Turn.Ask | apps/api/internal/api/copilot.go:519-524 | after a question was answered and its usage booked, the session's and the escalation's ledgers are the log's again |
| TurnLoop.Turn.AskAndUse | apps/api/internal/api/copilot.go:839-1200 | a failed question persists the transcript and finishes as canceled or error as the client and the failure say; an answer in words ends the turn with exactly its closing events |
| TurnLoop.Turn.TryCompact | apps/api/internal/api/copilot.go:782-822 | an applied compaction replaces the transcript, well formed if it was, and its usage is booked; any other changes nothing |
| TurnLoop.Turn.CompleteTurn | apps/api/internal/api/copilot.go:954-1021 | an answered turn is compacted exactly when the last round's input reached the trigger, by the model that round had asked first, then persisted and finished, in that order |
| TurnLoop.Turn.AnswerTurn | apps/api/internal/api/copilot.go:1022-1043 | the turn closes on the transcript with the answer appended, if there is one, marked when the token limit cut it |
| TurnLoop.Turn.Execute | apps/api/internal/api/copilot.go:1065-1108 | past the connector budget a call is answered without being made; a call KubeBolt refused itself does not use the budget |
| TurnLoop.Turn.RunTool | apps/api/internal/api/copilot.go:1053-1157 | one tool call: the event records what was called and what is handed back, and the log's transcript gains that result |
| TurnLoop.Turn.RunTools | apps/api/internal/api/copilot.go:1053-1157 | one result per call in call order: the i-th event added holds the i-th call and the i-th result handed back, which is the outside world's answer or the budget's refusal; each is entered once in the totals |
| TurnLoop.Turn.ToolRound | apps/api/internal/api/copilot.go:1045-1164 | the calls and the one message of their results enter the transcript together, which stays well formed |
| TurnLoop.Turn.MaybeEscalate | apps/api/internal/api/copilot.go:1178-1191 | the conversation escalates exactly when some call of the round left the cluster and a model is configured |
| TurnLoop.Turn.Close | apps/api/internal/api/copilot.go:1199-1288 | the tools-free close: one question, its answer's text appended if it gave any, then persist and finish as max_rounds whatever came of it |
| TurnLoop.Turn.ToolsAreTrue | apps/api/internal/api/copilot.go:1053-1164 | in a log true to the outside world each tool call came back as the world answered it at that point or as the budget refused it, and each tool round is directly preceded by the events of exactly its calls and results, behind the answer that asked for them |
| TurnLoop.Turn.AskedIsMade | apps/api/internal/api/copilot.go:1045-1164 | no answer's tool calls are left unmade: directly behind it come all of them, in order, and the round they make up |
| TurnLoop.Turn.TranscriptTells | apps/api/internal/api/copilot.go:1022-1164 | every tool round and every answer in words stands in the transcript in its own words, unless a compaction was applied later |
| TurnLoop.Turn.ClosedIsPersisted | apps/api/internal/api/copilot.go:756-1288 | the transcript persisted is the one the log tells, once, in front of one finish with the exit's reason |
| TurnLedger.BreakdownAgrees | apps/api/internal/api/copilot.go:1111-1129 | the per-tool breakdown says of every tool exactly what the log of calls says |
| TurnLedger.BreakdownAddsUp | apps/api/internal/api/copilot.go:1111-1129 | calls and bytes over the tools sum to the session totals, results to calls |
| TurnLedger.TallyCounts | apps/api/internal/api/copilot.go:519-524 | each count of the reference ledger is the number, or the byte sum, of the events it names |
| TurnLedger.SessionIsTheSum | apps/api/internal/api/copilot.go:519-524 | each column of the session's usage is the sum of that column over the answered calls and applied compactions |
| TurnLedger.EscalatedIsTheSum | apps/api/internal/api/copilot.go:519-524 | each column of the escalation's share is the sum over the calls its model answered |
| TurnLedger.StatsCount | apps/api/internal/api/copilot.go:1111-1129 | a tool's calls, errors, bytes and each kind of outcome are counted off the log |
| TurnLedger.NotStrayedIsRouted | apps/api/internal/api/copilot.go:502-510 | each call and each compaction in front of a round goes to the fallback exactly when that has answered, and not to a primary left behind; a retry tries the fallback before it ever answered; the compaction after the last answer (copilot.go:970-974) goes to the model the round had asked first |
| TurnLedger.RoutedSticks | apps/api/internal/api/copilot.go:502-510 | once the fallback answered, every later call and every later compaction in front of a round goes to it |
| TurnLedger.RoutedOneWay | apps/api/internal/api/copilot.go:502-510 | once the escalation model was called or a tool call left the cluster, no later call and no later compaction in front of a round goes to the primary |
| TurnLoop.StaleCompaction | apps/api/internal/api/copilot.go:970-974 | a turn whose only round the fallback answered by the retry, and whose compaction after that answer goes to the primary |
| Conversation.CompactKeepsPairing | apps/api/internal/copilot/compact.go:51-189 | compaction, reset included, never parts a tool call from its results |
| Conversation.CompactLeavesTheRest | apps/api/internal/copilot/compact.go:51-189 | what a compaction does to a transcript: with few turns every message stays, else one summary stands for the messages before a cutoff that leaves exactly the turns to preserve; what stays is unchanged but for the long results in front of the last turn |
| Conversation.StubsCounted | apps/api/internal/copilot/compact.go:254-291 | results are counted as shortened exactly when there was a long one to shorten |
| Conversation.TrimSpaceCuts | apps/api/internal/copilot/compact.go:137-144 | the summary is trimmed of the white space at both ends, all of it and nothing else |
| Conversation.CollectTurnStarts | apps/api/internal/copilot/compact.go:53-58 | the loop finds the turns' first messages, last turn first |
| Conversation.ResultForFirst | apps/api/internal/copilot/escalation.go:102-109 | the content looked up for a call is its own result's |
| Conversation.SummaryCostComesBack | apps/api/internal/copilot/compact.go:83-188 | an answered summary's usage comes back exactly when the answer is not blank, and then turns were folded, so the caller books it |
| Conversation.BlankSummaryIsLost | apps/api/internal/copilot/compact.go:137-139 | a blank summary that was paid for, whose usage does not come back |
| Conversation.CompactPanics | apps/api/internal/copilot/compact.go:70-87 | compaction crashes exactly when, short of a reset, no turn is to be preserved and the conversation has one |
| DrainLog.SubsequenceEmbeds | apps/api/internal/api/drain_session.go:61-72 | what "in order, none twice" means: positions of the log, strictly increasing |
| DrainLog.EveryRunIsSafe | apps/api/internal/api/drain_session.go:51-114 | no interleaving sends on or closes a closed channel |
| DrainLog.DeliveryInEveryRun | apps/api/internal/api/drain_session.go:51-114 | replay, received and buffered events are an in-order subsequence of the log, and the whole log exactly when the channel was never full at an emit |
| DrainLog.StreamEndsComplete | apps/api/internal/api/actions_drain.go:282-322 | a stream that ends with nothing dropped has written the whole log of a finished session |
| DrainLog.StayersSeeAll | apps/api/internal/api/drain_session.go:51-114 | in every run a client no step unsubscribed is attached while the session runs and closed once it is finished, so it sees the whole log exactly when nothing of it was dropped |
| DrainLog.LogFrozenAfterFinalize | apps/api/internal/api/drain_session.go:54-60 | after finalize nothing is appended, delivered or closed again, whatever follows |
| DrainLog.ClientsDoNotDisturb | apps/api/internal/api/drain_session.go:61-73 | in every interleaving the log is what the producer emitted before finalize |
| DrainSessions.DrainSession.EmitEvent | apps/api/internal/api/drain_session.go:51-73 | the event is appended and offered once to each subscriber and to no other client: into its buffer of 64, else counted as lost; a finished session ignores it |
| DrainSessions.DrainSession.SubscribeClient | apps/api/internal/api/drain_session.go:79-104 | replay is the log so far; a finished session hands out a closed channel |
| DrainSessions.DrainSession.UnsubscribeClient | apps/api/internal/api/drain_session.go:93-102 | this client's channel is off the list, every other subscriber stays on it, and the log and all clients are untouched |
| DrainSessions.DrainSession.FinalizeSession | apps/api/internal/api/drain_session.go:106-114 | exactly the subscribers' channels are closed, the list is cleared and the session is finished |
| DrainSessions.RunDrainGoroutine | apps/api/internal/api/actions_drain.go:175-264 | the log gains the drain's report, whenever its callbacks and the cancel signal arrive: the pod events in order around one drain-complete with the count and status read for it |
| DrainSessions.ReportCounts | apps/api/internal/api/actions_drain.go:196-263 | a report has one event a pod, saying which and how it left, and one drain-complete; when that is the last event, when it counts the pod events before it, and which status and message it has for what the helper returned |
| DrainSessions.DrainSessionManager.Start | apps/api/internal/api/drain_session.go:135-150 | a fresh session unless one is unfinished for the node; ownership is kept |
| DrainSessions.DrainSessionManager.Cancel | apps/api/internal/api/drain_session.go:164-173 | signals exactly the node's running drain |
| DrainSessions.DrainSessionManager.CancelAll | apps/api/internal/api/drain_session.go:179-188 | no drain is left running and the map is empty |
| DrainSessions.DrainSessionManager.Cleanup | apps/api/internal/api/drain_session.go:194-203 | only finished sessions that started before the cutoff are forgotten |
| DrainSessions.RunManager | apps/api/internal/api/drain_session.go:135-203 | over every sequence of starts, cancels, switches, clean-ups and ends, no two drains of one node both run |
| FleetCache.FleetAddressIndex.Cached | apps/api/internal/api/fleet_addresses.go:91-99 | a hit is the key's own entry, younger than the TTL |
| FleetCache.FleetAddressIndex.Store | apps/api/internal/api/fleet_addresses.go:101-111 | the key's entry is the addresses stored now; every other key keeps exactly its entry if that is younger than the TTL, and is gone otherwise |
| FleetLookup.StepKeeps | apps/api/internal/api/fleet_addresses.go:119-191 | every step of the scan, a worker or the waiter keeps the invariant of the lookup |
| FleetLookup.EverySchedule | apps/api/internal/api/fleet_addresses.go:119-191 | under any schedule and deadline searched and skipped split the clusters, no cluster is read twice, at most max(parallel, 1) reads run at once, no worker blocks, and an uncut lookup skips only what it cannot read |
| FleetLookup.NoWorkerBlocks | apps/api/internal/api/fleet_addresses.go:142-166 | a worker with an answer always finds room for it |
| FleetLookup.NeverStuck | apps/api/internal/api/fleet_addresses.go:136-180 | under any schedule, while a lookup waits some worker can go on or an answer can be taken in, each such step leaves less to do, and the pool is min(max(parallel, 1), queued) |
| FleetLookup.LateReads | apps/api/internal/api/fleet_addresses.go:145-160 | after the lookup returned its answer stands, and the only reads that begin are of workers that had passed the stop test, one each |
| FleetLookup.LateReadsAreBounded | apps/api/internal/api/fleet_addresses.go:145-160 | at most min(max(parallel, 1), queued) workers stand there |
| FleetLookup.AReadBeginsLate | apps/api/internal/api/fleet_addresses.go:145-160 | a schedule in which a read begins after the return |
| FleetWorld.EveryInterleaving | apps/api/internal/api/fleet_addresses.go:91-191 | over any interleaving of lookups every cache entry came from a complete, timely read of its key, a cached answer is its own (tenant, context)'s and younger than the TTL, a read answer its own cluster's |
| FleetWorld.EveryScan | apps/api/internal/api/fleet_addresses.go:91-136 | over any interleaving, a scan fills a cluster's slot from the cache exactly when some complete, timely read of that key is younger than the TTL, with the latest such read's addresses; otherwise the cluster is queued if it can be read |
| FleetNaming.NewFleetAddressBook | apps/api/internal/api/fleet_addresses.go:211-231 | the book holds at each address exactly the objects each cluster exposes there, each once |
| FleetNaming.ObjectsByReport | apps/api/internal/api/fleet_addresses.go:213-229 | a cluster's objects at an address are its first reports of each, in the order reported |
| FleetNaming.PickFleetObject | apps/api/internal/api/fleet_addresses.go:336-396 | a first choice among the candidates, with the others neither port nor kind tells apart counted |
| FleetNaming.PickSaysWhat | apps/api/internal/api/fleet_addresses.go:336-396 | the pick is one of the objects serving the port, or of all where none does: a Gateway if there is one, else a lone Ingress, else a Service, else one of the Ingresses, the first by name of its kind; how many of the others stay undecided in each case |
| FleetNaming.CandidatesAre | apps/api/internal/api/fleet_addresses.go:337-348 | the candidates are the objects serving the dialled port, each as often as it is on the address, or all of them where none does |
| FleetNaming.ServesMeans | apps/api/internal/api/fleet_addresses.go:398-407 | a port is served by itself, alone or in front of a slash, and by nothing else |
| Sorting.LexIsByteOrder | apps/api/internal/api/fleet_addresses.go:379-382 | strings compare by their first difference, and a shorter start comes first |
| FleetNaming.Find | apps/api/internal/api/fleet_addresses.go:274-323 | nothing exactly when no cluster exposes the address; else an object on that address of the first holding cluster, the one investigated first, then by name and context, with its other objects and the other holders counted |
| FleetNaming.PickOrderFree | apps/api/internal/api/fleet_addresses.go:336-396 | the pick and its count do not depend on the order of the objects |
| FleetNaming.UndecidedIsBounded | apps/api/internal/api/fleet_addresses.go:386-395 | undecided is between 0 and the other objects on the address |
| FleetNaming.GatewayFirst | apps/api/internal/api/fleet_addresses.go:360-388 | a Gateway the port does not rule out is always the kind named |
| FleetNaming.NamingIsOrderFree | apps/api/internal/api/fleet_addresses.go:274-323 | permuting clusters or their Gateways, Ingresses and Services never changes the match |
| FleetNaming.InvestigatedWins | apps/api/internal/api/fleet_addresses.go:291-301 | the cluster being investigated wins whenever it holds the address |
| FleetNaming.UndecidedAmongShared | apps/api/internal/api/fleet_addresses.go:303-320 | 0 <= undecided <= SharedBy, and the object named is on that address in that cluster |
| ClusterScopes.ClusterScope.AllowedIDs | apps/api/internal/api/cluster_scope.go:72-84 | a narrowed scope lists exactly the clusters May allows, once each and sorted; any other lists none |
| ApiTokens.NormalizeClusterList | apps/api/internal/auth/api_tokens_store.go:317-331 | the named ids of a key's list, each where it first came, in that order |
| ApiTokens.ApiTokenStore.SetClusters | apps/api/internal/auth/api_tokens_store.go:295-313 | no stored key ever lists the empty cluster id |
| ClusterScopes.AllowedClusterIDs | apps/api/internal/api/metrics_query.go:234-252 | narrowed for a caller without an org or with a key's list (api/token_clusters.go:36-133); then the ids are the list's, or none without an org |
| ClusterScopes.WithClusterScope | apps/api/internal/api/cluster_scope.go:108-124 | a request may read nothing without an org; a key with a list the clusters on it, and of those only the one asked for if one was; any other caller everything |
| ScopedReads.ForeignRequestOpensNothing | apps/api/internal/api/cluster_scope.go:45-95 | the read answers "no cluster" exactly when the caller is narrowed and asked for a cluster it is not entitled to, or is entitled to nothing |
| ScopedReads.List | apps/api/internal/api/copilot.go:1614-1669 | the findings and (copilot.go:1693-1738) runtime-event read: an error for a caller with no cluster, else the merged per-cluster reads or the one filtered read, of the cluster named, of the one the request is on when none is, or of all the caller may read |
| ScopedReads.ReadForCaller | apps/api/internal/api/copilot.go:1614-1669 | the middleware's scope and the read together, written out over callers and rows: every row returned is of a readable cluster, of the cluster named, or of the request's when only that is |
| ScopedReads.NothingForeign | apps/api/internal/api/copilot.go:1643-1668 | whatever the store answers, every row returned may be read by the caller |
| ScopedReads.MergedIsTop | apps/api/internal/api/copilot.go:1632-1655 | the narrowed merge is one capped read over the caller's rows: min(limit, total) rows, newest first, none repeated, none omitted that is strictly newer, all without a limit |
| ScopedReads.ScopedReadIsTopK | apps/api/internal/api/copilot.go:1614-1669 | the same for every scope, request and limit, unless the empty cluster id is readable |
| ScopedReads.EveryCallerReadsTopK | apps/api/internal/api/copilot.go:1614-1669 | for every caller, request and limit: no cluster exactly for a caller without an org or a key asking for a cluster off its list; else the newest rows of the clusters the caller may read, of the cluster named, or of the request's when none is, or of all on demand |
| ScopedReads.NamelessListedFails | apps/api/internal/api/copilot.go:1632-1655 | were the empty id readable, a store that answers as promised would make the read lose the caller's own row |
| Escaping.ThreePassesAreOne | apps/api/internal/agent/vmwriter.go:94-99 | the three replacements in sequence equal escaping each character once |
| Escaping.UnquoteEscape | apps/api/internal/agent/vmwriter.go:94-99 | an escaped value is read back as itself up to its closing quote |
| Escaping.EscapedIsInert | apps/api/internal/agent/vmwriter.go:94-99 | an escaped value has no raw newline and closes no quote |
| Decimals.IntegerDecimal | apps/api/internal/agent/vmwriter.go:62-68 | a printed timestamp reads back as itself |
| Exposition.WriteLabels | apps/api/internal/agent/vmwriter.go:46-56 | the label pairs in whatever order the map is walked, each once |
| Exposition.Write | apps/api/internal/agent/vmwriter.go:38-70 | one line per named sample, in order; the buffer reads back as one row per line, each with its sample's name, labels and value, at the sample's own time if it has one and else at the time of writing, if and only if the names and values are valid |
| Exposition.RoundTrip | apps/api/internal/agent/vmwriter.go:34-73 | what was written reads back as the named samples, in order, with equal label maps, if and only if every one of them has valid names and a valid value |
| IngestGate.EnforceTenantLabel | apps/api/internal/agent/tenant_guard.go:28-48 | rejected at the first sample asserting another tenant and only then; otherwise every sample carries exactly this tenant, its other labels untouched |
| IngestGate.DropReserved | apps/api/internal/agent/ingest_reserved.go:14-24 | the in-place filter equals the order-preserving filter, and kept plus dropped is what was received |
| IngestGate.HandleBatch | apps/api/internal/agent/server.go:525-572 | a batch asserting another tenant anywhere is rejected whole; of any other the store reads, if and only if names and values are valid, exactly the samples with a name that is not reserved, in order, each with its value, its labels and this tenant, at its own time if it has one |
| IngestGate.StoredRowsAreTheTenants | apps/api/internal/agent/server.go:525-572 | where every name sent on is valid, every row the store reads back from an accepted batch bears the authenticated tenant and no reserved name |
| IngestGate.BrokenNameLosesTenant | apps/api/internal/agent/vmwriter.go:40-56 | without valid names it fails: an accepted sample whose name holds a line break is stored as two rows, the first without the tenant |
| MetadataPatch.MergeAddRemove | apps/api/internal/api/actions_metadata.go:262-271 | a removed key is sent as null, any other added key as its text, and no other key is sent |
| MetadataPatch.ApplyMapEdit | apps/api/internal/api/actions_metadata.go:277-292 | removed keys are gone, added ones have their new text, every other key is as it was |
| MetadataPatch.EditIsMergePatch | apps/api/internal/api/actions_metadata.go:262-292 | merging an edit's patch into any JSON value gives what the pre-flight copy says |
| MetadataPatch.PatchedObject | apps/api/internal/api/actions_metadata.go:247-257 | of any object, member by member: removed labels and annotations are gone, added ones are their text, and every other member of the two maps, of the metadata and of the object is untouched; the maps read back as the pre-flight copy says |
| MetadataPatch.TotalAnnotationsBytes | apps/api/internal/api/actions_metadata.go:300-306 | the sum over the entries in whatever order |
| MetadataPatch.EachEntryCounts | apps/api/internal/api/actions_metadata.go:300-306 | an entry counts the bytes of its key and of its value |
| MetadataPatch.ValidateMetadataMap | apps/api/internal/api/actions_metadata.go:202-242 | accepted exactly when no key is empty or both added and removed, and every added key is at most 317 bytes and well formed, and so is every label value at most 63 |
| MetadataPatch.ComputeMapDiff | apps/api/internal/api/actions_metadata.go:361-381 | the three lists classify the keys, each listed once |
| MetadataPatch.DiffReplays | apps/api/internal/api/actions_metadata.go:361-381 | the lists are disjoint and replaying them on the old map gives the new one |
| MetadataPatch.EditMetadata | apps/api/internal/api/actions_metadata.go:104-196 | an edit is refused for its shape, or exactly when it would leave the annotations read over 262144 bytes; else the live object is edited member by member and nothing else of it changes, and the diffs lead from the maps read to the maps left |
| EnvPatch.Validate | apps/api/internal/api/actions_env.go:117-173 | accepted exactly when containers are named, each with rows; every name is well formed and none repeats in a container; a set row has one of value and source, a remove row neither |
| EnvPatch.BuildSetEnvPatch | apps/api/internal/api/actions_env.go:449-505 | the rows of each list in order, entry by entry: a removed name is marked deleted, a set one carries its value or its source; the restart stamp is added on demand |
| EnvPatch.MergeReplaces | apps/api/internal/api/actions_env.go:455-465 | a merged entry equals the new content exactly when the live one has nothing left over |
| EnvPatch.PatchDoesTheRequest | apps/api/internal/api/actions_env.go:449-505 | removed rows are gone; set rows hold their new value or source, and are just that exactly under that condition; the containers' other entries stay |
| EnvPatch.PatchLeavesTheRest | apps/api/internal/api/actions_env.go:472-485 | containers and init containers no row names are as they were |
| EnvPatch.LiteralOverLiteral | apps/api/internal/api/actions_env.go:457-459 | a literal set over a literal always becomes the new value |
| EnvPatch.LiteralToReferenceLeavesBoth | apps/api/internal/api/actions_env.go:460-462 | turning a literal into a reference leaves the literal beside it |
| EnvPatch.ValidateSourceRefs | apps/api/internal/api/actions_env.go:319-356 | a refused row's source refers, not optionally, to a config map or secret that is not there; and for sources with one reference each, a request is accepted only if no row's does |
| EnvPatch.SetEnv | apps/api/internal/api/actions_env.go:117-252 | malformed requests, missing references and absent containers change nothing; any other is done: its rows as asked, every other container as it was, the restart stamp on demand |
| FlowEdges.BucketConserves | apps/api/internal/api/flows_edges.go:222-241 | a pair's request rate is its rows' sum, and its status classes add up to it |
| FlowEdges.BucketByClass | apps/api/internal/api/flows_edges.go:222-241 | a pair's summary lists exactly the statuses of its rows, those without one as unknown, each with its rows' rate |
| FlowEdges.BuildPodFlowEdges | apps/api/internal/api/flows_edges.go:420-456 | one edge a row, in the rows' order, but for redirected rows of a forwarded pair: the row's pair and rate, redirected shown as forwarded, HTTP on forwarded edges whose pair has any |
| FlowEdges.RedirectCollapse | apps/api/internal/api/flows_edges.go:420-456 | every pair is kept, none is left redirected, and the forwarded edges and rate are the forwarded rows' if any, else the redirected rows' |
| FlowEdges.OneForwardedEdge | apps/api/internal/api/flows_edges.go:420-456 | when at most one forwarded edge comes out for a pair |
| FlowEdges.L7OnForwardedOnly | apps/api/internal/api/flows_edges.go:446-452 | HTTP is attached to forwarded edges only, and to each whose pair has any |
| FlowEdges.AppendExternal | apps/api/internal/api/flows_edges.go:347-375 | the edges given, then one for each row with an address that is a live pod's or in no pod range, in order: towards that pod, or towards the address with the name its pod knows it by, with the row's source, verdict and rate |
| FlowEdges.ExternalMeansOutside | apps/api/internal/api/flows_edges.go:360-373 | an edge leaves the cluster exactly when its address is no live pod's and in no pod range |
| ExternalFlows.AggregateExternal | apps/api/internal/api/external_connections.go:802-904 | every destination once, shown as its accumulator, in order |
| ExternalFlows.DestinationOf | apps/api/internal/api/external_connections.go:813-904 | each flow that leaves the cluster is in one destination of the list, that of its hostname or else of its address; the destination has the summed rate of all such flows, their verdicts, and accounts for all their callers, with each one's rate, and addresses; flows share a destination exactly when they share a hostname, or have none and share the address |
| ExternalFlows.SameCaller | apps/api/internal/api/external_connections.go:839-845 | two flows have one caller exactly when their pods, in one namespace, have the same owner, or none and are the same pod |
| ExternalFlows.ListedInOrder | apps/api/internal/api/external_connections.go:890-899 | plumbing last, busiest first, then by key |
| ExternalFlows.EachBalances | apps/api/internal/api/external_connections.go:834-845 | per destination the addresses' and the callers' rates both sum to its rate |
| ExternalFlows.TotalIsKept | apps/api/internal/api/external_connections.go:813-846 | all destinations sum to the kept flows |
| ExternalFlows.GatherHolds | apps/api/internal/api/external_connections.go:813-846 | a destination holds exactly the addresses, callers, rates and verdicts of the flows into it |
| ExternalFlows.ExactlyOneDestination | apps/api/internal/api/external_connections.go:813-846 | a kept flow adds its rate to its own destination and leaves every other as without it; any other flow changes nothing |
| ExternalFlows.AnswerConserves | apps/api/internal/api/external_connections.go:802-904 | the rates of the list add up to the kept flows |
| ExternalFlows.AnswerIsOrderFree | apps/api/internal/api/external_connections.go:802-904 | permuting the flows leaves the answer unchanged |
| ExternalFlows.CallersAllAccounted | apps/api/internal/api/external_connections.go:865-886 | the ten busiest callers are shown, busiest first, then by namespace, workload and pod; shown and counted callers together are all of them |
| ExternalFlows.ExternalConnections | apps/api/internal/api/external_connections.go:158-163 | the first 30 destinations of the ordered list are shown; shown and omitted ones together are all of them |
| ExternalFlows.TopKey | apps/api/internal/api/external_connections.go:1150-1158 | the busiest key, the smallest among equals, exactly when some rate is above -1 |
| ExternalFlows.ShowsBusiestAddress | apps/api/internal/api/external_connections.go:853-858 | of rates that are never negative, each listed destination shows its busiest address |
| ClusterModes.StepKeepsInv | apps/api/internal/agent/server.go:352-402 | a step keeps "a live kube-proxy agent's cluster is not metrics-only, the backend's own is never registered" exactly when it is not a kube-proxy hello unseen by auto-register on a metrics-only cluster |
| ClusterModes.EveryRunKeepsInv | apps/api/internal/agent/auto_register.go:75-162 | with auto-register on and whole handshakes, every reachable state satisfies it |
| ClusterModes.ProxyAgentMeansAgentProxy | apps/api/internal/agent/auto_register.go:98-147 | a listed cluster with its proxy entry and a live kube-proxy agent is shown as agent-proxy |
| ClusterModes.OverlappingHandshakesBreakIt | apps/api/internal/agent/server.go:352-395 | two overlapping handshakes can leave a live kube-proxy agent on a metrics-only cluster |
| ClusterModes.ReconnectWithoutProxyKeepsMode | apps/api/internal/agent/auto_register.go:111-127 | a sole kube-proxy agent reconnecting without it keeps the cluster agent-proxy |
| ClusterModes.LiveUntilItEnds | apps/api/internal/agent/channel/registry.go:391-443 | an agent last welcomed with some connection is live, as it said hello, until that connection is torn down, it says hello again or the backend restarts, whatever else happens |
| ClusterModes.RecordUntilItEnds | apps/api/internal/agent/channel/registry.go:391-443 | and its record stays and does not say it left, unless its cluster is deleted |
| ClusterModes.StaleTeardown | apps/api/internal/agent/channel/registry.go:391-443 | the teardown of a connection that a later hello replaced changes nothing, however late it comes |
| ClusterModes.LeaverIsRemembered | apps/api/internal/agent/channel/registry_store.go:221-260 | a departed agent stays on record with the time it left until it says hello again, its cluster is deleted, or a prune cuts later than that time; such a prune takes it away |
| ClusterModes.DeleteUnlists | apps/api/internal/cluster/manager.go:618-655 | after a delete and without a new hello, over any run: listed exactly when it was, had no agent-proxy entry, and no restart came |
| ClusterModes.DeleteIsDurable | apps/api/internal/cluster/manager.go:630-640 | a deleted cluster is in no later boot unless one of its agents says hello |
| ClusterModes.NamedRecordIsLatest | apps/api/cmd/server/main.go:1246-1254 | the restored name is the most recently seen named record's, the first listed among equals |
| ClusterModes.BootNames | apps/api/cmd/server/main.go:1246-1281 | a restored cluster is shown under its latest named record's name, or the name it had when no record names it |
| ClusterModes.BootModes | apps/api/cmd/server/main.go:1258-1291 | which mode boot gives each cluster of the records |
| ClusterBackend.Backend.AddAgentProxyCluster | apps/api/internal/cluster/manager.go:378-408 | registers as agent-proxy and drops the metrics-only flag; refused without a cluster id |
| ClusterBackend.Backend.AddMetricsOnlyCluster | apps/api/internal/cluster/manager.go:477-521 | registers as metrics-only and keeps the cluster's identity |
| ClusterBackend.Backend.RemoveAgentProxyCluster | apps/api/internal/cluster/manager.go:618-655 | the cluster's records and name go, its entry only if it is agent-proxy; no other cluster is touched |
| ClusterBackend.Backend.MaybeAutoRegisterCluster | apps/api/internal/agent/auto_register.go:75-162 | registers exactly when auto-register is on, the cluster is named and not the backend's own, and it has kube-proxy or no live agent with it; as agent-proxy or metrics-only accordingly; no other cluster is touched |
| ClusterBackend.Backend.Handshake | apps/api/internal/agent/server.go:352-402 | one whole hello: auto-register, then, if it was welcomed, the agent is live under a fresh connection with a record that has not left; no other cluster is touched |
| ClusterBackend.Backend.Teardown | apps/api/internal/agent/channel/registry.go:403-443 | the live connection takes exactly its agent out and marks its record as seen and left now; any other teardown changes nothing |
| ClusterBackend.Backend.ReadRecords | apps/api/cmd/server/main.go:1238-1255 | the names and kube-proxy clusters of the records |
| ClusterBackend.Backend.BootRestore | apps/api/cmd/server/main.go:1227-1291 | a fresh process: nobody live, every record marked as left, and exactly the named clusters of the records but the backend's own listed, agent-proxy where some record had kube-proxy |
| Findings.Scan | apps/api/internal/api/findings.go:175-256 | the summary of the scope, whatever the facets; the rows are exactly the findings the caller may read, of the sub-tab, that agree with every facet set, in order |
| Findings.TalliesAddUp | apps/api/internal/api/findings.go:206-229 | severity, source and kind each sum to ScopeTotal, less the rollups when no group is set |
| Findings.SeveritiesCount | apps/api/internal/api/findings.go:184-207 | each severity's number is of exactly the counted findings with it |
| Findings.SourcesAndKindsCount | apps/api/internal/api/findings.go:218-219 | likewise each source and kind |
| Findings.KpisCount | apps/api/internal/api/findings.go:220-229 | resolvable, new and rollup numbers are of exactly the findings they name |
| Findings.ClustersCount | apps/api/internal/api/findings.go:210-217 | a cluster's severity number is of that cluster's counted findings |
| Findings.ClustersFoldBack | apps/api/internal/api/findings.go:210-217 | the per-cluster numbers fold back into the counted findings that name a cluster |
| Findings.ResourcesCount | apps/api/internal/api/findings.go:232-237 | a workload's number is of its findings in the scope |
| Findings.ResourceKeysApart | apps/api/internal/api/findings.go:232-237 | workloads of different clusters or namespaces are never counted as one |
| Findings.TopResource | apps/api/internal/api/findings.go:303-320 | the workload with the most findings, the first by name among equals |
| Findings.PagesConcatenate | apps/api/internal/api/findings.go:266-276 | consecutive pages are the rows, none lost and none twice |
| Findings.SliceIsPage | apps/api/internal/api/findings.go:266-276 | when the 64-bit slice is that page |
| Findings.HugePagePanics | apps/api/internal/api/findings.go:155-158 | a page number whose offset turns negative |
| Findings.HandleListFindings | apps/api/internal/api/findings.go:155-278 | summary and top resource are the scope's, total and page the facet-filtered rows' |

## Left out

- Kubernetes and client-go calls, HTTP, JSON text, server-sent events, sockets: I/O.
- The web app, settings and environment loading, TLS, audit and permissions.
- LLM providers: their answers are the turn's oracle; pricing and telemetry are not modelled.
- Wall-clock timers (heartbeats, the stuck-agent watchdog, tickers): steps that may happen at any time, with no real-time claim.
- TurnLoop.HandleCopilotChat: a tool's edits of its own result (marks, skills, entry on read) are part of the tool's answer; the notes put in front of the prompt are not part of the transcript.
- Conversation.CompactKeepsPairing: the stub's wording drops the original size; what the summarizer is asked and which model that is are not modelled.
- DrainSessions.RunDrainGoroutine: a callback after the session is finished is ignored by it, as in DrainLog. Pod namespaces, durations and the failure to fetch the node are not modelled.
- FleetLookup.EverySchedule: a context that appears twice in the caller's list counts as two clusters; panics inside a cluster's own read are not modelled.
- FleetNaming.NamingIsOrderFree: addresses are already normalized and an object reported twice is reported alike. The private-address flag is not modelled.
- ScopedReads.List: the store's other filters and the organization are part of what the store is asked; rows tie in any order.
- ClusterScopes.AllowedClusterIDs: rules of teams are not in this edition; what a request says of its org is a parameter, and so is the check that a key's ids are known clusters.
- Exposition.RoundTrip: the value is the already formatted number.
- IngestGate.HandleBatch: counters, logs and the store's reply are not modelled.
- MetadataPatch.EditMetadata: the detail view shows the object's own maps; the server's own defaulting is not modelled; key and value patterns are parameters; which of several problems is reported is not stated.
- EnvPatch.PatchDoesTheRequest: environment entries and containers are keyed by name, so the order of the merged lists and duplicate live names are not captured; each container is listed once per request.
- EnvPatch.ValidateSourceRefs: a source with both references, which Kubernetes refuses, may have its second one skipped; a lookup that fails otherwise is not modelled.
- ExternalFlows.AggregateExternal: rates are reals and not rounded; hostnames are already normalized; the classification of a destination is a parameter, of which only "plumbing" matters for the order.
- ExternalFlows.SameCaller: owner kinds hold no slash, as Kubernetes kinds do not.
- FlowEdges.RedirectCollapse: said of pod-to-pod rows only; an address row rewritten to a pod may repeat a pair. The latency and DNS tables are parameters.
- ClusterModes.EveryRunKeepsInv: one tenant, one handshake of a cluster at a time; connectors, runtimes and the active selection are not modelled.
- Findings.HandleListFindings: a resource key is the source's concatenation, so names holding its separators may share one.
