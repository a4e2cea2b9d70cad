# Verified model of alert-genie

alert-genie receives Prometheus alerts, groups alerts that fire together, asks a language model for
an analysis and a healing plan, and runs the plan once a human approves it on a chat card. This
project models the parts of it that decide something and proves what they guarantee.

`dafny verify dfyconfig.toml` checks everything.

- **Correlator** (`Alerts`, `StableSort`, `UnionFind`, `Clustering`, `Grouping`, `GroupPlaces`,
  `FirstChunk`, `BufferOrder`, `Correlator`, `CorrelatorRuns`). The buffer with deadlines, the
  union-find clustering with path compression, the split of oversize clusters, the choice of a
  primary, where in its batch each group's alerts stand, and what a split does to the primary and to
  the order of the others. The mutable `Correlator` and the
  in-place `parent` array are proved against functions; runs interleave submits, ticks and the
  final flush.
- **Approval protocol** (`ApprovalModels`, `ApprovalStore`, `ApprovalManager`, `ApprovalFlow`,
  `PlanExecution`, `Protocol`, `ProtocolRuns`, `ProtocolRaces`). Four components write one status
  field and only one of them looks at the transition table. Each handler is a method on shared
  store objects, proved to leave the tables a function describes; the transition system `Protocol`
  is built from the same functions, and its theorems hold of every run from the empty store.
- **Reply parsing** (`Strings`, `JsonScanner`, `CodeFence`, `FenceLine`). The first-object scanner
  and the fence stripper against JSON as printed per sections 4 and 7 of RFC 8259, every place for
  insignificant whitespace included.
- **Time windows** (`TimeWindow`, `Dedup`, `LarkEvents`). The alert deduplicator with its evictions,
  the webhook's accept loop, and the once-only claims of Lark events.
- **Blast radius** (`BlastRadius`, `RiskTables`, `PlanRisk`). The assessment each command shape gets
  for every pattern of query answers, in numbers, and the pass that writes upgrades into the plan.
- **Smaller pieces**: `ChatHistory` (which messages the model gets to see), `Frontmatter` (splitting
  a runbook file), `Itoa` (printing a machine integer). `Options` has the option type.

## Assumptions

- Granularity of the protocol: the reads and writes of one handler form one step, store calls
  succeed, and approval, conversation and card message ids are fresh. Plan execution is many steps,
  so callbacks, revisions and ticks fall between them. The code does not enforce the first part:
  reads and writes are separate statements and the UPDATE is unconditional. `ProtocolRaces` has
  traces on which guarantees are lost once a handler is split.
- That store calls succeed is an idealisation the queries do not meet as written:
  `internal/store/sqlite.go:204-215` and `internal/store/sqlite.go:226-262` scan the column
  `approver_name` into a plain string, while no statement writes it and
  `internal/store/migrations/001_init.sql:43` gives it no default, so under the rules of
  `database/sql` reading an approval row is an error. `ProtocolRaces.UnreadRevision` states what a
  revision does after a failed read.
- Where the order of dependents is concerned (`BufferOrder.DependentsKeepOrderIff`), no alert stands
  twice in a batch: the webhook gives each one an id of its own.
- Time is an integer; `now` is what the clock says in a call. Confidence, traffic and thresholds are
  reals. Maps that the program iterates are worked off in an arbitrary order.
- Answers of the language model, of executors, Prometheus, the topology and the chat platform are
  inputs. An executor returns a result or an error. Waits between steps can
  be cancelled here; the pipeline launches executions with a context that never is.
- Rows with equal timestamps are listed in insertion order.
- Strings are sequences of code points, except in `ChatHistory`, where a character stands for one
  byte. The scanner looks at bytes, but only for ASCII characters, which UTF-8 uses nowhere else.

## Where code and documentation disagree

The model follows the code.

- `internal/correlation/correlator.go:100-103` says no data is lost on shutdown. An alert submitted
  after the final flush stays in the buffer for good (`CorrelatorRuns.LateSubmitIsLost`);
  `CorrelatorRuns.ShutdownLosesNothingIff` says exactly when nothing is lost.
- `internal/correlation/correlator.go:197-201` says chronological chunks keep the primary of the
  first chunk stable. With as many ties on its start before the primary as fit a chunk they do not
  (`FirstChunk.TiesCanHidePrimary`); `FirstChunk.FirstChunkKeepsPrimaryIff` is the exact condition.
- `internal/correlation/types.go:24-26` says dependents keep buffer order. In a split cluster they
  are in order of their start (`BufferOrder.SplitReversesDependents`);
  `BufferOrder.DependentsKeepOrderIff` says for every group when the two orders agree, and
  `BufferOrder.SplitKeepsOrderIff` for the cluster.
- `internal/approval/manager.go:135` and `internal/approval/manager.go:144` speak of all pending
  approvals; only the 100 most recently requested are looked at. `ApprovalManager.AllPendingListedIff`
  and `ApprovalManager.SparedIff` give the conditions, `ApprovalManager.BacklogOverflowsPage`
  a table with 101.
- `internal/blastradius/types.go:100-101` says unknown levels never trigger an upgrade. That is true
  of an unknown computed severity; an unknown level from the LLM always draws an upgrade
  (`BlastRadius.UnrecognisedLevelIsUpgraded`).
- `internal/chat/orchestrator.go:204-208` says the oldest messages are dropped. The store returns
  the oldest 40, so in longer conversations the newest are missing (`ChatHistory.RecentIsKeptIff`).
- `internal/analyzer/analyzer.go:520-521` speaks of a surrounding fence. The first line goes with
  whatever stands on it, an object's brace included (`FenceLine.ClosedFenceCanLose`,
  `FenceLine.FenceLineObjectIff`), and without a closing fence the last three backticks anywhere,
  even inside a JSON string, are taken for it (`CodeFence.UnclosedFenceLoses`,
  `CodeFence.FencedObjectIff`). `FenceLine.RecoveredIff` puts the cases together.
- `internal/runbooks/retriever.go:255-256` claims correctness for every integer; the minimum prints
  as `-` (`Itoa.RoundTripIff`).

## Model

| member | source | states |
|---|---|---|
| UnionFind.Find | internal/correlation/correlator.go:371-377 | `find` terminates, returns the root above its argument, and its path compression moves no node to another tree |
| UnionFind.Union | internal/correlation/correlator.go:378-383 | merges the trees of its two arguments and no others |
| Clustering.UnionStar | internal/correlation/correlator.go:400-414 | uniting a bucket with its first index alone puts the whole bucket in one tree, and joins only alerts that a chain of shared labels links |
| Clustering.UnionBuckets | internal/correlation/correlator.go:385-414 | after a label map is worked off, keys in any order, alerts sharing a non-empty value of that label share a root; trees stay within connected components |
| Clustering.RootsAreComponents | internal/correlation/correlator.go:367-414 | two alerts have one root exactly when a chain of alerts, neighbours sharing a non-empty service, namespace or instance, links them |
| Clustering.LinkedIff | internal/correlation/correlator.go:385-414 | a link between two alerts is a shared non-empty service, namespace or instance, in the fields of the alerts |
| Clustering.ClusterAlerts | internal/correlation/correlator.go:362-431 | the result is a function of the input alone, whatever the order of the maps and whichever roots the unions elect: clusters by smallest member, members in input order; alerts with the same non-empty service, namespace or instance are in one of the returned clusters |
| Clustering.SameClusterIffConnected | internal/correlation/correlator.go:362-431 | two alerts are in one cluster if and only if a chain links them |
| Clustering.SharedFieldsShareCluster | internal/correlation/correlator.go:393-414 | the three labels one by one: two alerts that share one are in one cluster |
| Clustering.SharedLabelIsOneCluster | internal/correlation/correlator.go:362-431 | a batch that shares one non-empty label value is one cluster, in input order |
| Clustering.ClustersPartition | internal/correlation/correlator.go:362-431 | every alert is in exactly one cluster |
| Clustering.LeadersAscend | internal/correlation/correlator.go:416-430 | clusters come in the order of their smallest member |
| Clustering.MembersAscend | internal/correlation/correlator.go:416-430 | members of a cluster keep input order, each once |
| Clustering.ClustersConserve | internal/correlation/correlator.go:416-430 | the clusters hold the batch, with multiplicities |
| Grouping.SplitForCap | internal/correlation/correlator.go:437-458 | the loop over the sorted copy cuts exactly the chunks of `Capped` |
| Grouping.CappedOversize | internal/correlation/correlator.go:433-458 | for an oversize cluster the chunks concatenate to the stable sort by start, all are non-empty, all but the last have max alerts, and there are ceil(n/max) |
| StableSort.StableSortUnique | internal/correlation/correlator.go:443-445 | being sorted and keeping equal keys in order leaves one possible result, so the insertion sort here stands for any stable sort |
| StableSort.SortByStable | internal/correlation/correlator.go:443-445 | the sort orders by key and keeps the order of equal keys |
| StableSort.TiesKeepOrder | internal/correlation/correlator.go:443-445 | of two elements with one key the one that comes out first came in first |
| Grouping.PickPrimary | internal/correlation/correlator.go:233-314 | returns the first alert that nothing beats: no alert starts earlier, none of the same start lists more downstream services, and among those with as many none has a smaller alertname |
| Grouping.BeatsIff | internal/correlation/correlator.go:233-314 | the order of candidates spelled out: the starts, the lengths of the downstream lists, an unknown service below an empty list, the alertnames character by character |
| Grouping.PrimaryUnique | internal/correlation/correlator.go:233-302 | there is only one such position |
| Grouping.PrimaryOfPermutation | internal/correlation/correlator.go:233-302 | start, downstream count and alertname of the primary are the same for every permutation of the cluster |
| FirstChunk.FirstChunkKeepsPrimaryIff | internal/correlation/correlator.go:197-201 | the primary of the first chunk is the primary of the whole cluster, up to equal candidates, if and only if fewer alerts than the cap both share its start and stand before it |
| FirstChunk.FirstChunkKeepsPrimary | internal/correlation/correlator.go:197-201 | in particular when no more alerts than the cap share the earliest start |
| FirstChunk.TiesCanHidePrimary | internal/correlation/correlator.go:197-201 | two alerts of one service that start together, with a cap of one: a single cluster, and its best alert is not in the first chunk |
| BufferOrder.SplitKeepsOrderIff | internal/correlation/correlator.go:437-458 | the chunks follow the cluster order if and only if the cluster is not split or is chronological as it is |
| BufferOrder.DependentsKeepOrderIff | internal/correlation/types.go:24-26 | the dependents of every group of a cluster of distinct alerts stand in buffer order if and only if the cluster is not split or their buffer order is chronological |
| BufferOrder.SplitReversesDependents | internal/correlation/types.go:24-26 | four alerts of one service with a cap of three: the dependents of the first group come in the reverse of their buffer order |
| Grouping.BuildGroup | internal/correlation/correlator.go:212-229 | the primary the choice falls on plus all other alerts in cluster order |
| Grouping.GroupConserves | internal/correlation/correlator.go:212-229 | a group holds its cluster, nothing dropped or doubled |
| Correlator.Correlator.constructor | internal/correlation/correlator.go:59-81 | a window of zero or less becomes 30 seconds; the buffer starts empty |
| Correlator.Correlator.Submit | internal/correlation/correlator.go:86-90 | appends the alert with deadline now + window |
| Correlator.Correlator.TakeDue | internal/correlation/correlator.go:167-184 | splits the buffer by deadline, both parts in order |
| Correlator.TakeConserves | internal/correlation/correlator.go:167-184 | the two parts together are the old buffer |
| Correlator.Correlator.FlushDue | internal/correlation/correlator.go:139-147 | hands the due alerts to dispatch and keeps the others |
| Correlator.Correlator.FlushAll | internal/correlation/correlator.go:150-163 | empties the buffer whatever the deadlines |
| Correlator.Correlator.Dispatch | internal/correlation/correlator.go:187-209 | emits one group per chunk per cluster, in order, if there is a callback; each alert of the batch is in one group, once; without a cap exactly the alerts a chain links share a group, with one the groups of a component are full but for the last and follow the starts |
| GroupPlaces.DispatchPlaces | internal/correlation/correlator.go:187-458 | the same of the groups of any batch, by the places of their alerts in the batch: each place once, only linked alerts together, primaries as chosen, components by smallest place |
| GroupPlaces.TogetherIff | internal/correlation/correlator.go:187-209 | without a cap, two alerts of a batch leave in one group if and only if a chain links them |
| Correlator.DispatchConserves | internal/correlation/correlator.go:187-209 | the emitted groups hold exactly the batch, and none exceeds a positive cap |
| CorrelatorRuns.RunConserves | internal/correlation/correlator.go:86-209 | at every point of every interleaving of submits, ticks and the final flush: submitted = emitted + being dispatched + buffered, as multisets |
| CorrelatorRuns.RunCapped | internal/correlation/correlator.go:187-209 | no run emits a group of more than max alerts |
| CorrelatorRuns.EmitsAsPlaced | internal/correlation/correlator.go:139-209 | at every dispatch of every run the batch leaves in groups placed like that, and nothing else is ever emitted |
| CorrelatorRuns.BufferedUntilDue | internal/correlation/correlator.go:117-184 | an alert stays buffered until the first tick at or after its deadline or the final flush |
| CorrelatorRuns.LeavesAtFirstDueTick | internal/correlation/correlator.go:117-184 | and that tick takes it out |
| CorrelatorRuns.NeverEarly | internal/correlation/correlator.go:117-184 | no tick takes an alert before a deadline some submit of it set |
| CorrelatorRuns.BufferInOrder | internal/correlation/correlator.go:86-97 | the buffer is at every point a queue of submits, in their order, each with the deadline it set |
| CorrelatorRuns.TakenInOrder | internal/correlation/correlator.go:167-184 | what a tick takes was submitted in this order, every deadline past |
| CorrelatorRuns.FlushedInOrder | internal/correlation/correlator.go:150-163 | and so was what the final flush takes |
| CorrelatorRuns.AfterStop | internal/correlation/correlator.go:104-163 | after the final flush, everything submitted before it is out and everything submitted later stays in the buffer for good |
| CorrelatorRuns.ShutdownLosesNothingIff | internal/correlation/correlator.go:100-115 | a stopped run has emitted all it was given if and only if no submit followed the final flush |
| CorrelatorRuns.LateSubmitIsLost | internal/correlation/correlator.go:100-115 | the run of a final flush and a submit behind it, whose alert no group holds |
| CorrelatorRuns.FlushIsTwoSteps | internal/correlation/correlator.go:139-163 | the steps of a run compose to the state `FlushDue` and `FlushAll` promise |
| CorrelatorRuns.SubmitsAndFlushesCanRun | internal/correlation/correlator.go:86-163 | submits are possible at any time, flushes whenever the loop is not dispatching |
| ApprovalModels.TableShape | internal/approval/models.go:20-67 | the known final statuses are exactly those without an outgoing edge, every edge leads strictly further along a life of at most three edges |
| ApprovalModels.EdgesAre | internal/approval/models.go:20-40 | the nine edges of `validTransitions` and no others |
| ApprovalStore.Store.SaveApproval | internal/store/sqlite.go:195-202 | a taken id inserts nothing |
| ApprovalStore.Store.UpdateApprovalStatus | internal/store/sqlite.go:217-224 | overwrites the status without looking at the old one; an unknown id changes nothing |
| ApprovalStore.Store.ListApprovals | internal/store/sqlite.go:226-262 | records with the status, newest first, at most limit of them |
| ApprovalStore.Store.SaveConversation | internal/store/sqlite.go:297-311 | upsert by root message id: an existing row keeps all but a non-empty new approval id |
| ApprovalStore.Store.UpdateConversationApproval | internal/store/sqlite.go:349-355 | repoints an existing conversation |
| ApprovalManager.Manager.CreateApprovalWithParent | internal/approval/manager.go:46-76 | a pending record expiring ttl from now, with the given parent |
| ApprovalManager.Manager.ProcessCallback | internal/approval/manager.go:79-133 | applies the action exactly when the record is pending, in time and the action known; expires it when late; changes nothing else; which refusal it answers with in every other case |
| ApprovalManager.CallbackMeans | internal/approval/manager.go:79-133 | record by record: an accepted approve, reject or modify leaves the record approved, rejected or modified by the user, a late one expired, and every other record as it was |
| ApprovalManager.Manager.ExpireStale | internal/approval/manager.go:145-171 | the loop expires the stale records of the fetched page and counts them |
| ApprovalManager.TickMeans | internal/approval/manager.go:136-171 | a tick expires exactly the stale approvals among the 100 most recently requested pending ones and touches nothing else |
| ApprovalManager.OrderedIff | internal/store/sqlite.go:226-262 | the listing holds exactly the records with the status |
| ApprovalManager.StaleSurvivesIff | internal/approval/manager.go:136-171 | a stale pending approval survives a tick if and only if 100 pending ones come before it |
| ApprovalManager.SparedIff | internal/approval/manager.go:136-171 | in terms of the rows alone: it survives if and only if at least 100 pending approvals were requested after it, or at the same time and inserted before it |
| ApprovalManager.ListingMeans | internal/store/sqlite.go:226-262 | a listing is newest first, and what its limit leaves out is no newer than anything it holds |
| ApprovalManager.AllPendingListedIff | internal/approval/manager.go:135-142 | the page holds all pending approvals if and only if there are at most 100 |
| ApprovalManager.BacklogOverflowsPage | internal/approval/manager.go:135-171 | a table with 101 pending approvals, all stale: the page misses one, and a tick leaves one pending |
| ApprovalManager.TickClearsPage | internal/approval/manager.go:136-171 | with all pending stale, a tick clears 100 of them or the rest and counts them |
| ApprovalManager.DrainsBacklog | internal/approval/manager.go:136-171 | k ticks leave max(0, n - 100k) of n stale approvals and count the others, so ceil(n/100) ticks drain the backlog |
| ApprovalFlow.Orchestrator.HandleRevisedPlan | internal/chat/orchestrator.go:290-383 | refuses when the current approval is approved, executing, completed or failed; otherwise creates the child, supersedes a pending parent and repoints the conversation |
| ApprovalFlow.RevisionMeans | internal/chat/orchestrator.go:290-383 | row by row: the new pending record with its parent, the pending parent superseded with its comment, the conversation repointed, nothing else; or nothing at all behind the guard |
| ApprovalFlow.Pipeline.RequestApproval | internal/pipeline/pipeline.go:332-344 | creates the approval and announces the conversation |
| ApprovalFlow.Pipeline.CreateConversation | internal/pipeline/pipeline.go:352-374 | no root message, no conversation |
| ApprovalFlow.Pipeline.HandleApprovalCallback | internal/pipeline/pipeline.go:378-393 | launches an execution exactly for an accepted approve, of the record as approved |
| PlanExecution.Router.ExecutePlan | internal/executor/router.go:52-151 | approval status, step statuses, commands handed out and log entries when it returns; every progress report on the way has the shape success* (running or failed)? pending* |
| PlanExecution.StepsTellTruth | internal/executor/router.go:78-145 | a step ends in success only if its executor reported success, in failure only without an executor or on an error or a reported failure, with that message; the others stand behind a failure or a cancelled wait |
| PlanExecution.VerdictMeans | internal/executor/router.go:65-151 | the approval ends completed if and only if every executor reported success and no wait was cancelled, failed if and only if a step failed, and names its number |
| PlanExecution.HandedMeans | internal/executor/router.go:82-112 | the commands handed to executors are those of the steps that ended, where there is an executor |
| PlanExecution.Router.RunStep | internal/executor/router.go:78-145 | one iteration: fails exactly without an executor, on an error or on a reported failure; else stops exactly at a cancelled wait |
| PlanExecution.Router.FailStep | internal/executor/router.go:87-128 | the failed step is reported, all pending steps become skipped, the approval fails |
| PlanExecution.EndUnique | internal/executor/router.go:78-147 | for given executor answers and cancellations there is one way to end |
| PlanExecution.VerdictMatchesSteps | internal/executor/router.go:67-151 | failed if and only if a step failed, then the only one, successes before it and skipped after it; completed if and only if all steps succeeded and no wait was cancelled |
| PlanExecution.LogMirrorsSteps | internal/executor/router.go:173-193 | the log has the steps neither skipped nor pending, in order, with their final statuses |
| Protocol.CallbackIsStep | internal/approval/manager.go:79-133 | a callback moves at most one approval along an edge and touches none that is approved or executing |
| Protocol.TickIsStep | internal/approval/manager.go:145-171 | a tick moves pending approvals along edges only |
| Protocol.ExecIsStep | internal/executor/router.go:65-147 | the unchecked status writes of an execution are edges of the table |
| Protocol.RevisionIsAddHead | internal/chat/orchestrator.go:366-383 | the three writes of a revision are: supersede the old head, add the new one on top |
| Protocol.AnnouncedIsAnnounces | internal/store/sqlite.go:297-311 | with fresh ids the conversation upsert is an insert |
| Protocol.ActionsAreHandlers | internal/pipeline/pipeline.go:332-393 | each action of the transition system leaves the tables its handler is proved to leave, and a job is launched exactly by an approve that finds its approval pending and in time |
| Protocol.HandlersCanRun | internal/pipeline/pipeline.go:332-393 | no action is held up that the program could perform: callbacks and ticks at any time, requests with fresh ids, revisions, the start of a launched job |
| Protocol.StepKeeps | internal/chat/orchestrator.go:299-383 | every action of every component keeps the invariant tying approvals, parents, conversations and executions together |
| ProtocolRuns.RunKeepsInv | internal/pipeline/pipeline.go:378-393 | the invariant holds in every reachable state |
| ProtocolRuns.EveryChangeIsAnEdge | internal/approval/models.go:20-26 | every status change by any component, the raw-string writes included, is an edge of `validTransitions` |
| ProtocolRuns.ChangesAre | internal/approval/models.go:20-26 | the eight pairs of statuses an action of a run can take an approval through |
| ProtocolRuns.RunFollows | internal/approval/models.go:20-26 | approvals persist; final, dead and active statuses evolve only forward |
| ProtocolRuns.FinalIsForever | internal/approval/models.go:60-67 | a final status never changes again |
| ProtocolRuns.AtMostThreeChanges | internal/approval/models.go:20-26 | an approval changes status at most three times in a run |
| ProtocolRuns.StartsAtMostOnce | internal/pipeline/pipeline.go:383-391 | `ExecutePlan` is entered at most once per approval |
| ProtocolRuns.StartsOnlyAfterApprove | internal/approval/manager.go:88-123 | only after an approve callback that found it pending and within its deadline, the only one ever accepted for it |
| ProtocolRuns.DeadNeverStarts | internal/approval/manager.go:88-123 | an approval that is ever rejected, expired, superseded or modified never starts executing |
| ProtocolRuns.RefusedIsForever | internal/approval/manager.go:88-123 | an approval whose reject or modify was accepted is rejected or modified for the rest of the run and starts at no point of it |
| ProtocolRuns.AtMostOnePending | internal/chat/orchestrator.go:366-383 | a conversation has at most one pending approval, and that is its current one |
| ProtocolRuns.OneExecutionPerConversation | internal/chat/orchestrator.go:299-316 | over a whole run at most one approval of a conversation is ever executed |
| ProtocolRuns.ChainDescends | internal/chat/orchestrator.go:366-383 | entry i of the parent chain is an approval at least i rows older than its head, so the chain is acyclic, and all behind the head are rejected, expired, superseded or modified |
| ProtocolRuns.ChainIsConversation | internal/chat/orchestrator.go:366-383 | following the parents from the current approval visits exactly the approvals created for the conversation |
| ProtocolRuns.ExecutePlanIsScript | internal/executor/router.go:52-151 | `ExecutePlan` undisturbed is its stretch of protocol actions, each enabled in turn, and leaves the same table |
| ProtocolRaces.RevisionRace | internal/chat/orchestrator.go:299-383 | wherever the current approval is pending and in time, a revision whose guard and writes are split by an approval leaves two approvals of one conversation executing |
| ProtocolRaces.ExpiryRace | internal/approval/manager.go:88-123 | a callback split by an expiry tick takes an approval from expired to approved |
| ProtocolRaces.SupersedeRace | internal/chat/orchestrator.go:374-379 | a supersede split by an approval lets a superseded approval execute |
| ProtocolRaces.UnreadRevision | internal/chat/orchestrator.go:299-383 | a revision that fails to read the current approval passes the guard whatever its status and supersedes nothing: the current approval stays as it is beside a pending successor |
| JsonScanner.ExtractFirstJSONObject | internal/analyzer/analyzer.go:482-518 | the loop finds the text from the first brace to the one that balances it, or nothing |
| JsonScanner.ValueIsNeutral | internal/analyzer/analyzer.go:482-518 | scanning any printed JSON value inside an object neither closes the object nor changes the scanner state, whatever braces, escapes and quotes its strings hold |
| JsonScanner.FindsPrintedObject | internal/analyzer/analyzer.go:482-518 | extract(prefix + printed object + suffix) is the printed object, for every object, every prefix without a brace and every suffix |
| JsonScanner.CutObjectIsLost | internal/analyzer/analyzer.go:482-518 | of an object cut short nothing is extracted |
| CodeFence.StripCodeFences | internal/analyzer/analyzer.go:522-536 | trims, drops the first line of a fenced text and everything from the last fence on |
| CodeFence.FencedObjectIff | internal/analyzer/analyzer.go:433-441 | an object that begins behind the first line of a fenced text is recovered if and only if the last fence after that line does not begin in front of the end of the object; otherwise nothing is found |
| CodeFence.ClosedFenceRecovers | internal/analyzer/analyzer.go:520-536 | such an object is recovered whenever a fence follows it, backticks in its strings included |
| CodeFence.UnfencedRecovers | internal/analyzer/analyzer.go:433-441 | without an opening fence the object is recovered behind any prose that has no brace |
| CodeFence.UnclosedFenceLoses | internal/analyzer/analyzer.go:522-536 | an unclosed fence loses an object with three backticks in a string |
| FenceLine.FenceLineObjectIff | internal/analyzer/analyzer.go:522-536 | an object that begins on the line of the opening fence, with no opening brace around it, is recovered if and only if no newline comes behind that begin and the last fence does not begin in front of the end of the object |
| FenceLine.RecoveredIff | internal/analyzer/analyzer.go:433-441 | for every printed object between texts without an opening brace, fenced or not: when it is recovered |
| FenceLine.ClosedFenceCanLose | internal/analyzer/analyzer.go:522-536 | a valid object inside a closed fence that is lost: its brace stands on the line of the fence, a newline follows |
| CodeFence.ParseChatResponse | internal/analyzer/analyzer.go:433-476 | the decoded reply when usable, otherwise a text reply carrying the raw output under the heading for a decoder error, an unknown type or a missing plan; a revised_plan reply always has commands |
| CodeFence.DegradedCarriesAll | internal/analyzer/analyzer.go:462-476 | a degraded reply is a text that ends in the whole trimmed output, behind what went wrong |
| CodeFence.FencedReplyIsDecoded | internal/analyzer/analyzer.go:433-441 | the decoder gets exactly the printed object |
| Dedup.Deduplicator.IsDuplicate | internal/alert/dedup.go:34-43 | known, and less than a window between its last marking and startsAt |
| Dedup.Deduplicator.EvictExpired | internal/alert/dedup.go:76-86 | in any order of the map, exactly the entries marked more than a window ago go |
| Dedup.Handler.Admit | internal/alert/handler.go:74-97 | lets pass exactly the firing, unfiltered, non-duplicate alerts and marks those |
| Dedup.Handler.HandleWebhook | internal/alert/handler.go:71-147 | the positions handed on and the marks left behind by a request; an alert that fails to be saved stays marked as seen |
| Dedup.PersistedIff | internal/alert/handler.go:71-147 | a position is handed on if and only if its alert fires, passes the filter, is no duplicate after the alerts before it, and was saved; once each and in order |
| Dedup.PersistedAreEligible | internal/alert/handler.go:73-102 | only firing alerts of a listed severity that were saved are handed on |
| Dedup.FirstAdmittedIff | internal/alert/handler.go:73-97 | the first alert of a request on its fingerprint gets through if and only if it fires, has a listed severity and starts a window or more after the last mark, if there is one |
| Dedup.AdmittedAgainIff | internal/alert/handler.go:73-97 | a later one if and only if it does and starts a window or more after the last one that got through was marked |
| TimeWindow.AfterConcat | internal/alert/dedup.go:34-86 | consecutive stretches of offers and evictions make one: what holds of a single run holds across requests |
| TimeWindow.TakingsApart | internal/alert/dedup.go:34-86 | two acceptances of one fingerprint are at least a window apart, whatever evictions fall between, with a monotone clock and startsAt not in the future |
| TimeWindow.TakenAgainIff | internal/alert/dedup.go:34-86 | exactly when a fingerprint is accepted again, with no assumption on clock or startsAt |
| TimeWindow.TakingsBound | internal/alert/dedup.go:34-86 | at most floor(length/window) + 1 acceptances in any stretch of time of that length |
| Dedup.FutureStartIsTakenTwice | internal/alert/dedup.go:34-43 | a start a window ahead of the clock is accepted twice at once |
| Dedup.EpisodeReturnsLate | internal/alert/dedup.go:34-86 | one firing episode offered again is accepted again only more than a window later |
| LarkEvents.EventTable.MarkEventProcessed | internal/store/sqlite.go:405-417 | true and recorded exactly when the id was not there |
| LarkEvents.EventTable.PurgeOldEvents | internal/store/sqlite.go:419-427 | removes exactly the rows older than the cutoff and counts them |
| LarkEvents.EventTable.HousekeepingTick | internal/pipeline/pipeline.go:501-508 | the purge of the expiry loop is a sweep with a 24 hour window |
| LarkEvents.ClaimsMoreThanADayApart | internal/store/sqlite.go:405-427 | two first-time claims of one event id are more than 24 hours apart |
| BlastRadius.Assessor.constructor | internal/blastradius/assessor.go:55-74 | thresholds of zero or less default to 0.5 and 0.8 |
| BlastRadius.Assessor.Assess | internal/blastradius/assessor.go:111-145 | every field of the returned assessment, for every command shape and every pattern of answers |
| BlastRadius.Assessor.AssessRolloutRestart | internal/blastradius/assessor.go:199-234 | every field for a rollout restart |
| BlastRadius.Assessor.AssessScale | internal/blastradius/assessor.go:239-294 | every field for a scale |
| BlastRadius.Assessor.AssessRolloutUndo | internal/blastradius/assessor.go:299-326 | every field for a rollback |
| BlastRadius.Assessor.AssessDeletePod | internal/blastradius/assessor.go:330-365 | every field for a pod deletion |
| BlastRadius.Assessor.RecordNoData | internal/blastradius/assessor.go:604-615 | one more no-data finding, confidence halved with floor 0.1 |
| BlastRadius.Assessor.SetSeverity | internal/blastradius/assessor.go:619-637 | critical from the critical threshold on, high from the high one on, medium for any traffic or a single replica, else low; never lowering what is there |
| RiskTables.ReadMeans | internal/blastradius/assessor.go:477-549 | the replica count, the traffic share and the owner that the answers to the queries come to |
| RiskTables.RestartSeverity | internal/blastradius/assessor.go:199-234 | the severity of a restart by share and replicas: which threshold gives which level |
| RiskTables.ScaleSeverity | internal/blastradius/assessor.go:239-294 | the severity of a scale: critical to zero, at least high for more than half |
| RiskTables.UndoSeverity | internal/blastradius/assessor.go:299-326 | the severity of a rollback, at least medium |
| RiskTables.OtherSeverity | internal/blastradius/assessor.go:330-470 | the severity of a pod deletion and of the commands that ask nothing |
| RiskTables.UpgradeMeans | internal/blastradius/assessor.go:148-157 | the suggested upgrade for each level the LLM can name |
| RiskTables.RestartCard | internal/blastradius/assessor.go:199-234 | findings in order and confidence of a restart for every pattern of answers |
| RiskTables.ScaleCard | internal/blastradius/assessor.go:239-294 | findings in order and confidence of a scale |
| RiskTables.UndoCard | internal/blastradius/assessor.go:299-326 | findings in order and confidence of a rollback |
| RiskTables.DeletePodCard | internal/blastradius/assessor.go:330-365 | findings and confidence of a pod deletion, the fallback included |
| RiskTables.FixedCard | internal/blastradius/assessor.go:370-470 | findings and confidence of the commands that ask nothing |
| RiskTables.WorkloadNumbers | internal/blastradius/assessor.go:199-326 | replicas, share and dependents of a command on a workload |
| RiskTables.OtherNumbers | internal/blastradius/assessor.go:330-470 | replicas of the other commands, with no share and no dependents |
| BlastRadius.Assessor.AttachDependents | internal/blastradius/assessor.go:641-659 | all downstream names in order, and a finding if there are any |
| BlastRadius.AssessmentSound | internal/blastradius/assessor.go:111-190 | the four known levels only, confidence in [0.1, 1], share in [0, 1], some finding; an upgrade is suggested if and only if the final severity outranks a level the LLM gave, and then is that severity |
| BlastRadius.CardNumbers | internal/blastradius/assessor.go:199-365 | replicas, share and dependents of the final assessment: all replicas of a restarted or rolled-back workload, the difference of a scale, one for a pod or host service |
| BlastRadius.FallbackIff | internal/blastradius/assessor.go:330-365 | the insufficient-data fallback is reached if and only if a pod of a known owner with no replicas is deleted |
| BlastRadius.TrafficRaises | internal/blastradius/assessor.go:619-637 | more traffic never makes an assessment milder |
| BlastRadius.UnrecognisedLevelIsUpgraded | internal/blastradius/types.go:100-115 | an LLM level outside the four known ones always draws an upgrade to the computed severity, except the empty one, which never does |
| BlastRadius.ConfidenceCountsMissing | internal/blastradius/assessor.go:604-615 | the final confidence: 0.3 for an unrecognised command, 0.2 for the fallback, otherwise the base of the command halved once per no-data finding, never below 0.1 |
| PlanRisk.HealingPlan.AssessBlastRadius | internal/pipeline/pipeline.go:631-668 | every level after the pass, and the result map |
| PlanRisk.LastIsReported | internal/pipeline/pipeline.go:631-668 | of commands with one step number the last is reported, with the level it had before the pass |
| PlanRisk.OnlyStepsAreReported | internal/pipeline/pipeline.go:631-668 | the steps of the plan and no others are reported |
| PlanRisk.UpgradeOnlyRaises | internal/pipeline/pipeline.go:655-665 | auto-upgrade changes nothing but levels and only raises them, to the assessed severity at least |
| PlanRisk.SecondPassIsIdle | internal/pipeline/pipeline.go:655-665 | a second pass with the same answers suggests and changes nothing |
| ChatHistory.MessageStore.SaveMessage | internal/store/sqlite.go:359-366 | appends the message |
| ChatHistory.MessageStore.ListMessages | internal/store/sqlite.go:380-401 | the oldest messages of a conversation, createdAt ascending |
| ChatHistory.ThreadHolds | internal/store/sqlite.go:380-401 | a thread holds the messages of its conversation and no others, as often as they are stored |
| ChatHistory.ThreadInOrder | internal/store/sqlite.go:380-401 | in order of creation, and of storing where the times are equal |
| ChatHistory.Trim | internal/chat/orchestrator.go:227-238 | keeps the longest suffix of at most 20 messages and 60000 bytes, or the newest message alone |
| ChatHistory.BuildHistory | internal/chat/orchestrator.go:209-253 | the history is that suffix of the fetched messages without the current one, rendered |
| ChatHistory.CutUnique | internal/chat/orchestrator.go:204-208 | there is only one such suffix |
| ChatHistory.HistoryVerbatim | internal/chat/orchestrator.go:204-253 | kept messages appear verbatim, at most 20; only a single oversize message is cut to 60000 bytes and marked |
| ChatHistory.RecentIsKeptIff | internal/chat/orchestrator.go:204-212 | the history is the cut of the whole prior conversation if and only if every message beyond the 40 oldest is the current one |
| ChatHistory.NewestIsLost | internal/chat/orchestrator.go:204-212 | otherwise the newest prior message is missing |
| Frontmatter.SplitLines | internal/runbooks/loader.go:172-222 | the flag-driven loop splits at the first two delimiter lines |
| Frontmatter.SplitFrontmatter | internal/runbooks/loader.go:172-222 | an error exactly when a line has 10 MB or more |
| Frontmatter.SplitsWhatWasJoined | internal/runbooks/loader.go:170-222 | splitting delimiter, frontmatter, delimiter, body gives both back, whatever delimiter lines the body holds |
| Frontmatter.UnclosedKeepsEverything | internal/runbooks/loader.go:212-219 | an unclosed delimiter loses no line and yields no frontmatter |
| Frontmatter.FileRoundTrip | internal/runbooks/loader.go:170-222 | the same for the text of whole files, through the line scanner; frontmatter and body come apart into the lines they were made of |
| Strings.JoinedComeApart | internal/runbooks/loader.go:221-221 | lines joined for the frontmatter or the body come apart into the same lines |
| Frontmatter.CarriageReturnsAreDropped | internal/runbooks/loader.go:186-187 | carriage returns at line ends make no difference |
| Frontmatter.LastLineNeedsNoEnd | internal/runbooks/loader.go:186-187 | a last line without a newline is a line all the same |
| Frontmatter.Utf8Lengths | internal/runbooks/loader.go:174-175 | the size limit counts the bytes of the UTF-8 encoding |
| Strings.AsciiSpaces | internal/runbooks/loader.go:190-190 | the ASCII characters that trimming takes off |
| Frontmatter.DelimiterIff | internal/runbooks/loader.go:190-200 | a delimiter line is three hyphens with any space around them |
| Itoa.WriteDigits | internal/runbooks/retriever.go:265-271 | the write index never leaves the 20-byte buffer |
| Itoa.ToText | internal/runbooks/retriever.go:257-277 | the decimal numeral, except a lone minus sign for the 64-bit minimum |
| Itoa.DecimalRoundTrip | internal/runbooks/retriever.go:257-277 | parsing the numeral gives the number back, without leading zeros |
| Itoa.RoundTripIff | internal/runbooks/retriever.go:257-277 | the output reads back as the input if and only if the input is not the minimum |

## Left out

- Grouping.PickPrimary: the reason string the source returns with the position is not modelled.
- Grouping.BuildGroup: the group id, the reason text and the detection time are not modelled.
- Correlator.Correlator.Dispatch: group ids, the reason text and the detection time of a group are not modelled.
- ApprovalStore.Store.UpdateApprovalStatus: the responded_at stamp is not modelled.
- ApprovalStore.Store.ListApprovals: only the filter by status with a limit, the one the manager uses.
- ApprovalFlow.Orchestrator.HandleRevisedPlan: safety validation only annotates commands, so it changes nothing here; the reply texts and the chat message it saves are not modelled.
- PlanExecution.Router.ExecutePlan: chat notifications other than progress, timeouts and outputs of commands are not modelled; the log is the sequence of recording calls, and two plan steps with one number would collide in the table.
- CodeFence.ParseChatResponse: the cut of a degraded reply to 2000 bytes is not modelled; the raw output appears whole.
- JsonScanner.ValueIsNeutral: numbers are any text over the characters numbers are made of, which only widens the claim.
- BlastRadius.Assessor.Assess: the texts of findings, the regular expressions that recognise a command, the choice of a namespace and the lower-casing of the LLM level are not modelled; commands arrive parsed.
- PlanRisk.HealingPlan.AssessBlastRadius: the assessor is a function value, as it is an interface in the program; `BlastRadius.Assessor.Assess` is proved to compute that function.
- Dedup.Handler.HandleWebhook: one request at a time. Check and mark are separate calls, so two requests at once can accept one fingerprint twice.
- The copying of assessments onto cards, feedback, alert outcomes, incident ranking and topology loading: they move data without deciding anything.
- The lookup of a conversation for a chat event and the text reply: single reads and writes of a row.
- Runbook retrieval (scoring, excerpts, keyword extraction): bounded sums over substring matches.
- The safety validator and its rules: they depend on regular expressions; that a blocked command is not executed is not guaranteed by the code.
- HTTP, Lark, Claude, Prometheus, kubectl and SSH calls, YAML and JSON decoding, configuration, server routes and logging.
- The PostgreSQL store; the SQLite store is the one modelled, as maps and ordered rows.
