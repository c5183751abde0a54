# Vlinder: a verified model of its history

Vlinder records every step of an agent in a content-addressed history, so that any past point
can be rebuilt. This project models that history and the state machines around it in Dafny,
and proves what they keep over every run and every interleaving.

| part | modules |
|---|---|
| vocabulary: node ids, parents, ancestry, content addresses, text | `Dag`, `Merkle`, `Text` |
| chain-head protocol of the provider server | `ChainHead`, `ChainCells`, `ChainShapes`, `ChainTurns`, `ChainResults` |
| SQL store, its runs, the recording queue in front of it, row conversions | `DagStore`, `StoreRuns`, `RecordedRows`, `RowConversions` |
| newest-n queries over text timestamps, and the projection into a conversation | `Timestamps`, `Projection` |
| git writer: numbering, hash chain, isolation, timelines | `GitDag`, `GitHistory`, `GitTimelines` |
| versioned workspace in S3, file names as text | `Workspace`, `Utf8` |
| reconcilers and readiness | `LambdaTasks`, `LambdaRuntime`, `PodmanRuntime`, `Readiness` |
| routing keys and wildcard bindings | `RoutingTypes`, `RoutingKeys`, `Bindings` |
| write-through registry: single calls, interleaved calls, overlaps | `Registry`, `RegistryRuns`, `RegistryOverlaps`, `RegistryRaces` |

Code that changes state in place is a class here, each method proved against a function of the
old state; what the code promises is then proved about those functions. Concurrency is a set of
steps, one for each stretch between two awaits or lock releases, and a theorem about a run is
about any sequence of them.

Main results:

- **Shapes.** What the concurrent calls of any one turn can leave in the history, whatever was
  there before and whatever is recorded for other turns meanwhile, is characterised exactly
  (`ShapesAreExact`): alternating trees below the turn's invoke, at most one response in use per
  request, and the final head the last response that came into use. No interleaving leaves
  anything else, and each such tree has a schedule that leaves it, which the proof constructs.
- **Roots.** Over all turns, every request, response and successful complete descends from its
  own invoke, provided that the store answers and no call outlives its turn; two lemmas show
  what happens otherwise.
- **State.** In every run the state handed to a request is the newest that a call has taken from
  a response since the turn began, or what the invoke brought if none was taken
  (`StateIsTheNewestTaken`, `StateStays`); and each answer is taken in full (`ResponsesTakeEffect`).
- **History can be rebuilt.** A message sent through the recording queue lies below the stored
  node it was hinted at, the one its id was hashed onto; in a conversation whose messages hang
  on each other, `k` parent steps from any message give the k-th before it, and its id is the
  content address of all up to it (`ConversationsAreChains`), whatever else is recorded between.
- **Everything said is heard.** The walk of a branch gives for each row exactly its input, its
  answer, or its tool result under the id of the call it answers, in the order of the rows.
- **Git tree = hash chain**, for any interleaving of agents and sessions, up to 999 messages a
  session; the bound is exact, and what happens past it is proved too.
- **Workspace.** A checkout at version v gives w exactly when a commit of that session stored v
  for w, whatever was committed later or broke off half way; and a commit stores a
  version exactly when S3 answered the put of every file and stored the manifest.
- **No invocation of a Lambda function overlaps or follows its deletion**, in any interleaving
  with the dispatcher tasks, and every delivered invoke is exactly one call, even if its
  acknowledgement fails.
- **Registry.** With any number of interleaved calls, failing disk operations, and crashes and
  restarts in the middle of calls: cache and disk agree and every agent has its models, as long
  as no two calls in flight clash and no save is lost. Two overlapping calls can break this
  exactly when they clash (`ClashesAreExact`).
- **Text order is time order** for RFC 3339 texts whose fractions have different lengths, so
  the newest-n query returns the tail of the chronological list.

## Assumptions

- The hash is injective and never gives the empty text; root is the empty text.
- JSON and TOML serialisation are inverse to deserialisation. Byte strings are `string`s.
- SQLite compares TEXT bytewise; foreign keys are on; `INSERT OR IGNORE` ignores primary-key
  and unique conflicts but not foreign-key failures.
- S3 keeps every version, and gives no key the same version id twice.
- Podman gives no pod id twice, and refuses to create a pod or volume whose name exists. Engine
  removals (`pod rm -f`, `volume rm -f`) and the question whether a pod runs succeed. Every other
  foreign call may fail at any time.
- A dispatcher's handle returns only when its task has ended.
- The single store calls of a promotion are steps of the store's runs; what the promotion as a
  whole achieves is about store calls that nothing comes between.

## Where the promise needs a condition

- Key round trip: a request or response on the S3 object store is built with the backend word
  `s3`, which the parser of backends does not know, so such a key never parses. For all others
  the round trip holds exactly when the free fields have no dot.
- Content addresses: fields are concatenated without framing, so a child node and a root node
  whose payload ends in the parent's id share an id. One changed field always changes the id.
- Ids are not fresh for forks: a second fork from one point in one session has the first one's
  id and leaves no row; forks of two stored points, or of two sessions, never share an id.
- Promotion finds the old main by name over all sessions. Where it finds another session's main,
  the promoted branch is not renamed, though it becomes the default branch.
- A dispatched conversation lacks its newest input when the invoke's message id was already
  taken, because the typed row is then ignored while the node row is kept.
- Podman: deletion ends only when every other worker reports deleted. A worker that stays ready
  (the registry's own check does) keeps the agent deleting.
- Registry: a registration checks an agent under one lock, awaits its identity, inserts it under
  another, and saves it in a third section; a deletion checks, drops from disk, and evicts in
  three. Two calls clash when they register and delete, or register differently, one name, or
  when one registers an agent and the other registers or deletes a model it requires. Each clash
  has a run, with no save failing, that leaves cache and disk different or an agent
  without its model.
- Registry: after a failed save of a model an agent can register with it, and a restart brings
  the agent back without the model.
- Workspace: a commit survives exactly when its file names are well-formed UTF-8 without a
  backslash; ill-formed stretches become U+FFFD and backslashes become slashes, so names can
  change or collide. A failure to clear the local directory is ignored by a checkout, and old
  files then stay beside the restored ones.
- A session with a branch called ACTIVE: its messages are in no timeline file, because the marker
  of that name takes the file's place.
- The header of `crates/vlinder-core/src/domain/dag.rs` leaves the session out of the hash; the
  code includes it, and so does the model. `crates/vlinder-core/src/queue/recording.rs` speaks of
  a stored head pointer; the code takes the message's hint or the newest node of the branch.

## Model

| member | source | states |
|---|---|---|
| `Dag.AncestryIsClimbing` | crates/vlinder-core/src/domain/dag.rs:130-140 | a node is an ancestor exactly when following parent pointers some number of times reaches it |
| `Dag.AncestorsAreOlder` | crates/vlinder-core/src/domain/dag.rs:130-140 | ancestors were inserted strictly earlier, so the history has no cycle |
| `Dag.ReachesRoot` | crates/vlinder-sql-state/src/dag_store.rs:69-79 | every chain ends in root within as many steps as nodes were inserted before its start, plus one |
| `Merkle.OneChangeChangesTheId` | crates/vlinder-core/src/domain/dag.rs:167-189 | nodes that differ in at most one of payload, parent, type, diagnostics, session share an id only if equal; in particular identical messages of two sessions have two ids |
| `Merkle.FieldsInOrder` | crates/vlinder-core/src/domain/dag.rs:176-189 | the hashed text is payload, parent, type word, diagnostics and session in this order with nothing between |
| `Merkle.ChildSharesIdWithARoot` | crates/vlinder-core/src/domain/dag.rs:176-189 | the concatenation is unframed: every child shares its id with a root node whose payload ends in the parent's id |
| `Merkle.EveryDescendantChanges` | crates/vlinder-core/src/domain/dag.rs:169-171 | changing one field of one message, however deep, changes its id and the id at the end of any later chain |
| `Merkle.DescendantsFollow` | crates/vlinder-core/src/domain/dag.rs:169-171 | two chains of the same messages end in the same id exactly when they start from the same one |
| `ChainHead.InvokeHandler.constructor` | crates/vlinder-provider-server/src/handler.rs:44-68 | a handler starts with the given head, state and routing, and sequence 1 |
| `ChainHead.InvokeHandler.NextSequence` | crates/vlinder-core/src/domain/message/identity.rs:405-411 | hands out the current number and advances by one, touching no other cell |
| `ChainHead.InvokeHandler.SetChainHead` | crates/vlinder-provider-server/src/provider_server.rs:100-105 | overwrites the head and nothing else |
| `ChainHead.InvokeHandler.SetState` | crates/vlinder-provider-server/src/provider_server.rs:107-111 | overwrites the state and nothing else |
| `ChainHead.InvokeHandler.SetRouting` | crates/vlinder-provider-server/src/provider_server.rs:113-119 | overwrites the routing and nothing else |
| `ChainHead.InvokeHandler.ResetForInvoke` | crates/vlinder-provider-server/src/dispatch.rs:293-329 | an invoke resets head, routing and state seed (empty text by default, none without object storage) and keeps the sequence |
| `ChainHead.InvokeHandler.ForwardProvider` | crates/vlinder-provider-server/src/handler.rs:83-169 | an uninterrupted call sends the old head and state; on an answer the head becomes the response and the state the response's new one, and without a new one, or on an error, the state is as it was; the sequence moves by one in any case |
| `ChainHead.CallIsItsSteps` | crates/vlinder-provider-server/src/handler.rs:83-169 | the steps of one call with no other event between them change the cells as the method does, and the request hangs on the old head |
| `ChainHead.ResetIsItsSteps` | crates/vlinder-provider-server/src/dispatch.rs:293-329 | the three reset steps with no other event between them change the cells as the method does |
| `ChainHead.OrderlyRunsAreRooted` | crates/vlinder-provider-server/src/handler.rs:120-157 | over all orderly runs and interleavings: parents form a grounded history, each request, response and successful complete descends from its turn's invoke and carries its submission, and the head is the invoke or one of its responses |
| `ChainHead.TurnIsAncestor` | crates/vlinder-ollama/src/worker.rs:158-170 | responses hang on their requests and requests on the invoke or a response, hence the invoke is an ancestor of both |
| `ChainHead.StepKeepsInv` | crates/vlinder-provider-server/src/handler.rs:83-169 | each lock section, await, recording and reset keeps the invariant from which the roots follow |
| `ChainHead.StragglerMovesTheNextHead` | crates/vlinder-provider-server/src/dispatch.rs:297-311 | a call that outlives its turn can set the next turn's head to the old turn's response |
| `ChainHead.LostResponseOrphansTheComplete` | crates/vlinder-core/src/queue/recording.rs:119-188 | when a response's insert fails, the next complete hangs on root instead of below the invoke |
| `ChainCells.RequestsCarryWhatWasRead` | crates/vlinder-provider-server/src/handler.rs:83-134 | whatever comes between the steps of a call, its request carries the turn, submission and sequence number of the moment the call began, hangs on the head read then, and brings the state read last |
| `ChainCells.ResponsesTakeEffect` | crates/vlinder-provider-server/src/handler.rs:135-169 | whatever comes between a worker's answer and the last step of the call that takes it, the head becomes the response and the state its new state; a response without one leaves the state as it then is |
| `ChainCells.TurnsStartFromTheInvokesState` | crates/vlinder-provider-server/src/dispatch.rs:293-329 | in every run a turn starts with no state if there is no object storage, else with the invoke's, else with the empty text |
| `ChainCells.StateStays` | crates/vlinder-provider-server/src/handler.rs:150-157 | between two resets, as long as no response with a new state is taken, the state is what it was, whatever else happens |
| `ChainCells.StateIsTheNewestTaken` | crates/vlinder-provider-server/src/handler.rs:150-157 | else the state is the newest one that was taken |
| `ChainCells.NumbersAreDistinct` | crates/vlinder-core/src/domain/message/identity.rs:405-411 | over every run, overlapping calls and turns included, no two requests carry one sequence number |
| `ChainCells.InvokesHangOnTheirHint` | crates/vlinder-core/src/queue/recording.rs:47-115 | an invoke's row hangs on the hinted node if it is stored and found, else on root |
| `ChainCells.CompletesHangOnTheHead` | crates/vlinder-provider-server/src/dispatch.rs:201-232 | a complete hangs on the head, one for an error on root, and belongs to the turn's invoke |
| `ChainShapes.TurnInvHasShape` | crates/vlinder-provider-server/src/handler.rs:120-157 | the invariant of a turn seen by itself makes its rows and head a turn shape |
| `ChainShapes.Schedule` | crates/vlinder-provider-server/src/handler.rs:83-169 | every turn shape has a schedule of lock sections, sends and answers that produces it row by row |
| `ChainResults.EveryResetStartsATurn` | crates/vlinder-provider-server/src/dispatch.rs:201-232 | in every orderly run, of any number of turns, each completed reset is the start of a turn the next theorems are about |
| `ChainTurns.OwnStep` | crates/vlinder-provider-server/src/handler.rs:83-169 | in the middle of any history, a call's step or an answer to one of its requests is the same step of the turn seen by itself, both ways |
| `ChainTurns.ForeignStep` | crates/vlinder-ollama/src/worker.rs:158-170 | a further invoke, or an answer to a request of an earlier turn, adds no row to the turn and changes nothing its calls see |
| `ChainResults.ShapesAreExact` | crates/vlinder-provider-server/src/handler.rs:120-157 | from the start of any turn, with a store that answers, the rows and final head that some interleaving leaves are exactly the turn shapes over unused ids, the invoke's own parent being whatever it is |
| `ChainResults.TurnsHaveShape` | crates/vlinder-provider-server/src/handler.rs:120-157 | at every moment of a turn, not only its end, its rows and the head form a turn shape |
| `ChainResults.RunExtends` | crates/vlinder-core/src/queue/recording.rs:119-188 | in any run, orderly or not, the older rows are untouched and added rows have unused ids |
| `ChainResults.SerialTurnsAreLines` | crates/vlinder-provider-server/src/handler.rs:120-157 | if the calls of a turn do not overlap and all succeed, each of its rows hangs on its row recorded just before, and the head is its newest row |
| `DagStore.SqliteDagStore.constructor` | crates/vlinder-sql-state/src/dag_store.rs:30-56 | a new store is empty and numbers branches from 1 |
| `DagStore.SqliteDagStore.Insert` | crates/vlinder-sql-state/src/dag_store.rs:328-384 | one insert is row then typed row under one lock: a known hash is ignored, a broken foreign key refuses and changes nothing, a new row is stored as given, and its typed row lands exactly if no typed row of its kind has its message id |
| `DagStore.SqliteDagStore.AddSession` | crates/vlinder-sql-state/src/dag_store.rs:1629-1645 | a session whose id, name or external id is taken is ignored |
| `DagStore.SqliteDagStore.AddBranch` | crates/vlinder-sql-state/src/dag_store.rs:771-800 | a branch gets the next id unless its session is unknown or the name is taken in it |
| `DagStore.SqliteDagStore.Rename` | crates/vlinder-sql-state/src/dag_store.rs:1575-1587 | renames unless the branch is unknown or the name is taken in its session |
| `DagStore.SqliteDagStore.Seal` | crates/vlinder-sql-state/src/dag_store.rs:1589-1605 | marks a known branch as broken, refuses an unknown one |
| `DagStore.SqliteDagStore.SetDefault` | crates/vlinder-sql-state/src/dag_store.rs:1611-1627 | points a known session at a branch, refuses an unknown session |
| `DagStore.SqliteDagStore.Promote` | crates/vlinder-core/src/queue/recording.rs:765-808 | seal and rename the main that was found if it is the session's own, then rename the promoted branch and make it the default |
| `DagStore.PromoteIsExact` | crates/vlinder-core/src/queue/recording.rs:772-803 | when nothing comes between its store calls, the promoted branch ends as main exactly when the main found is its session's own and its sealed name is free, or no main of its session stands in the way; the old main is sealed, every other branch unchanged, no row is lost and the invariant stays |
| `DagStore.ReplayKeepsInv` | crates/vlinder-sql-state/src/dag_store.rs:40-75 | over every run of inserts and branch operations: parents are NULL, earlier or the row itself, foreign keys hold, branch names are unique in their session, and rows and typed rows never change |
| `StoreRuns.EveryChainReachesRoot` | crates/vlinder-sql-state/src/dag_store.rs:69-79 | in every reachable store without a self-parented row, following parents from any row reaches root in at most as many steps as there are rows |
| `StoreRuns.GroundedIffNoSelfParent` | crates/vlinder-sql-state/src/dag_store.rs:269-276 | chains reach root exactly when no row is its own parent and none has the empty hash |
| `StoreRuns.SelfParentNeverReachesRoot` | crates/vlinder-sql-state/src/dag_store.rs:71 | a row stored as its own parent, which the foreign key allows, is never left by following parents |
| `StoreRuns.ProperRunsHaveNoSelfParent` | crates/vlinder-sql-state/src/dag_store.rs:355-368 | if no insert names its own hash as parent, no reachable store has a self-parented row |
| `StoreRuns.HistoryIsAppendOnly` | crates/vlinder-sql-state/src/dag_store.rs:1890-1909 | after any further operations a row and its message are unchanged, and `exists_in_submission` has not gone from yes to no |
| `StoreRuns.QueueRunsReachRoot` | crates/vlinder-core/src/queue/recording.rs:47-115 | whatever is sent through the recording queue, with no assumption of fresh ids or working lookups, every chain of the store reaches root |
| `StoreRuns.RecordingNeverSelfParents` | crates/vlinder-core/src/queue/recording.rs:191-275 | a message hashed onto its own parent is already in the store and ignored |
| `StoreRuns.RepeatedForkLeavesNoRow` | crates/vlinder-core/src/queue/recording.rs:893-933 | a second fork from one point in one session gets the first one's id and adds no row, whatever its branch or time |
| `StoreRuns.ForkIdsAgreeExactly` | crates/vlinder-core/src/queue/recording.rs:893-933 | two forks share an id exactly when their rows have one parent and their sessions are the same, in whatever UUID form the sessions are written |
| `RecordedRows.RecordedRowsStay` | crates/vlinder-core/src/queue/recording.rs:191-275 | in every run, a message under a new id is stored exactly if its session and branch are known; its row's parent is the hinted node if that was stored and found at the moment, else NULL, the same its id was hashed onto; its other fields are the message's, its typed row lands exactly if its message id is new, and all this stays |
| `RecordedRows.RecordedMessagesExist` | crates/vlinder-sql-state/src/dag_store.rs:1890-1909 | after a recording `exists_in_submission` says yes to the message's own submission, branch and type, and otherwise what it said |
| `RecordedRows.ConversationsAreChains` | crates/vlinder-core/src/queue/recording.rs:47-275 | for messages each hinted at the one before it and each stored, with anything recorded between them, `k` parent steps from the i-th give the (i - k)-th and one more than the first root, and its id is the chained hash of the messages up to it |
| `RecordedRows.ConversationIsRecorded` | crates/vlinder-core/src/queue/recording.rs:47-275 | every conversation whose message ids are distinct, sent into a new session, is recorded as such a chain |
| `RowConversions.RowRoundTrip` | crates/vlinder-sql-state/src/dag_store.rs:279-313 | a node survives its row exactly when its session is well formed, or, for deploy and delete, when it had the zero session and branch 0 |
| `RowConversions.ParentRoundTrip` | crates/vlinder-sql-state/src/dag_store.rs:269-276 | id, type and parent always survive, the stored parent is NULL exactly for root, and session and branch columns are NULL exactly for deploy and delete |
| `RowConversions.MessageTypeRoundTrip` | crates/vlinder-core/src/domain/dag.rs:78-131 | every type's word parses back to it |
| `Timestamps.TextOrderIsChronological` | crates/vlinder-sql-state/src/dag_store.rs:353 | for UTC times of years 0 to 9999, leap seconds included, bytewise order of the texts is time order although fractions have 0, 3, 6 or 9 digits, and equal texts are equal times |
| `Timestamps.FractionReads` | crates/vlinder-sql-state/src/dag_store.rs:353 | a printed fraction denotes its nanoseconds, in the fewest groups of three digits |
| `Timestamps.YearBoundIsExact` | crates/vlinder-sql-state/src/dag_store.rs:1532 | printed years sort after all earlier ones exactly up to 9999 |
| `Projection.LatestIsTheChronologicalTail` | crates/vlinder-sql-state/src/dag_store.rs:1521-1542 | for distinct times, whatever the database does with ties, the reversed answer of ORDER BY text DESC LIMIT n is the last min(n, count) rows of the chronological list |
| `Projection.LatestGrowsBackwards` | crates/vlinder-sql-state/src/dag_store.rs:1544-1573 | the answer for n is a suffix of that for n + 1, and its last row is the unfiltered newest row |
| `Projection.EveryBranchHasAList` | crates/vlinder-sql-state/src/dag_store.rs:1530-1536 | a chronological list of the branch exists |
| `Projection.WalkChain` | crates/vlinder-provider-server/src/projection.rs:27-75 | the walk pushes, row by row, exactly what each row contributes, skipping rows whose typed rows are missing |
| `Projection.WholeBranchIsRead` | crates/vlinder-provider-server/src/projection.rs:32 | the walk's query gives the whole chronological list of a branch of at most 2^32 - 1 rows, and the newest that many of a longer one |
| `Projection.ProjectionIsIncremental` | crates/vlinder-provider-server/src/projection.rs:27-75 | a row that arrives with a later time is read last and appends exactly its own messages to the conversation |
| `Projection.InvokeInputComesOnceAndLast` | crates/vlinder-provider-server/src/dispatch.rs:227-249 | with the invoke as newest row the dispatched conversation is the earlier history and then its input once; the input is absent exactly when its message id was taken (and it is not empty) |
| `Projection.ToolMessagesAnswerTheirRequest` | crates/vlinder-provider-server/src/projection.rs:48-66 | a tool message was given in an invoke's input, or carries the call id of the request its response hangs on and that response's decoded payload |
| `Projection.EveryMessageHasItsRow` | crates/vlinder-provider-server/src/projection.rs:35-72 | a message is in the conversation exactly when some listed row contributes it |
| `Projection.AnswersAreHeard` | crates/vlinder-provider-server/src/projection.rs:42-47 | a listed complete whose typed row has a content and tool calls contributes exactly that one agent message, between what the rows before and after it contribute; without the typed row nothing |
| `Projection.InputsAreHeard` | crates/vlinder-provider-server/src/projection.rs:37-41 | a listed invoke contributes exactly its input, in its place; without the typed row nothing |
| `Projection.ResultsAreHeard` | crates/vlinder-provider-server/src/projection.rs:48-66 | a listed service response contributes exactly one tool message, its decoded payload under the call id of the request it hangs on, if both typed rows are there, and nothing otherwise |
| `Projection.OthersAreSilent` | crates/vlinder-provider-server/src/projection.rs:67-70 | rows of all other kinds contribute nothing |
| `Projection.ResultsAreDecodedTwice` | crates/vlinder-provider-server/src/dispatch.rs:234-249 | a dispatched tool message is its stored payload decoded by the walk and once more by the dispatch; other messages are as the walk gave them |
| `GitDag.GitDagWorker.constructor` | crates/vlinder-git-dag/src/git_dag.rs:71-112 | a fresh repository has one empty commit |
| `GitDag.GitDagWorker.ReadCanonicalHash` | crates/vlinder-git-dag/src/git_dag.rs:149-184 | the hash stored in the message directory that sorts last, root if there is none |
| `GitDag.GitDagWorker.Deliver` | crates/vlinder-git-dag/src/git_dag.rs:295-539 | a delivery appends one commit exactly when git works, the message is of a session and its names can be written; its tree nests the numbered message, its timelines and the registry's metadata; else HEAD is left |
| `GitDag.CommitsExactly` | crates/vlinder-git-dag/src/git_dag.rs:295-345 | which deliveries are committed: all but deployments and deletions of agents, with an agent, a session and a message directory git can name |
| `GitHistory.NumbersSort` | crates/vlinder-git-dag/src/git_dag.rs:347-353 | up to 999 the padded number, the byte pattern and the lexicographic sort agree |
| `GitHistory.StoredHash` | crates/vlinder-git-dag/src/git_dag.rs:720-760 | a message directory holds its hash, its payload exactly as sent unless it is a fork or promote, whose payload is empty, and the message's other fields as given, and nothing else |
| `GitHistory.SessionReadsBack` | crates/vlinder-git-dag/src/git_dag.rs:134-184 | the count of message directories is k, and the directory that sorts last holds the k-th chained hash |
| `GitHistory.GitTreeIsTheChain` | crates/vlinder-git-dag/src/git_dag.rs:252-362 | after any run of successful and failed deliveries to any agents, a session of at most 999 messages has exactly the directories 001 to k, the i-th holding message i under hash_i = H(payload_i, hash_(i-1), type_i, diagnostics_i, session) with root as hash_0 |
| `GitHistory.MessagesAreKeptAsSent` | crates/vlinder-git-dag/src/git_dag.rs:567-860 | message for message after any run: the i-th lies in the directory of its number, its sender by kind, and its type, with the payload and fields it was sent with, under the hash of payload, the hash stored with the message before, type, diagnostics and session; both texts are empty exactly for forks and promotes |
| `GitHistory.MessagesAccumulate` | crates/vlinder-git-dag/src/git_dag.rs:355-362 | whatever is committed later, every message directory stays as written |
| `GitHistory.OtherSessionsStay` | crates/vlinder-git-dag/src/git_dag.rs:407-431 | a commit changes no other session, and no other agent's tree |
| `GitHistory.TopLevelIsAgentsAndMetadata` | crates/vlinder-git-dag/src/git_dag.rs:422-466 | the top level is the old one with the committing agent, its metadata names replaced: each is there exactly if the registry gave it, with what it gave |
| `GitHistory.ReservedAgentStartsOver` | crates/vlinder-git-dag/src/git_dag.rs:432-436 | an agent named like a metadata entry loses its history with every commit of its own |
| `GitHistory.HeadIsNumbered` | crates/vlinder-git-dag/src/git_dag.rs:347-362 | after any run, with any number of messages, a session's tree is what its own committed messages alone make |
| `GitHistory.BeyondTheLimit` | crates/vlinder-git-dag/src/git_dag.rs:134-146 | after 999 messages and any number of further ones, the count stays 999 and the hash that of the 999th; the next message hangs on the 999th, unseen, in the place of the one of its sender and type before it |
| `GitTimelines.TimelinesPartitionTheSession` | crates/vlinder-git-dag/src/git_dag.rs:364-401 | each message is a line of exactly its own timeline's file, its branch for a fork and main for every other kind, unless that is ACTIVE; lines ascend, splitting on newlines gives them back exactly when none holds a newline, and the file ACTIVE names the newest message's timeline |
| `GitTimelines.ListedUnlessActive` | crates/vlinder-git-dag/src/git_dag.rs:390-398 | a message is a line of some timeline's file exactly when its branch is not called ACTIVE |
| `Workspace.ResourceIdRoundTrip` | crates/vlinder-s3-storage/src/lib.rs:36-47 | a configuration with a slash-free bucket is read back from its URI, with or without prefix |
| `Workspace.KeysNeverCollide` | crates/vlinder-s3-storage/src/lib.rs:50-65 | for slash-free sessions file keys and manifest keys are injective and never equal each other |
| `Workspace.S3Workspace.Commit` | crates/vlinder-s3-storage/src/lib.rs:354-477 | uploads in walk order, under names made text, until one fails, then the manifest; it succeeds exactly when every put was answered with a version, and returns the manifest's |
| `Workspace.CommitsAreExact` | crates/vlinder-s3-storage/src/lib.rs:354-477 | by the answers alone: a commit is told `v` exactly if every file's put was answered and the manifest's with `v`; the manifest is in the bucket as `v` exactly if every file's put was answered and the manifest's was stored, its answer heard or lost |
| `Workspace.UploadsStopThere` | crates/vlinder-s3-storage/src/lib.rs:387-428 | an upload is the puts up to and with the first that is not answered with a version, and no further put |
| `Workspace.PutsAreExact` | crates/vlinder-s3-storage/src/lib.rs:137-215 | puts leave a version for each one stored, heard of or not, as the last such put of that key and version gave it, and no other key changes |
| `Workspace.S3Workspace.Download` | crates/vlinder-s3-storage/src/lib.rs:87-130 | in any order of the manifest's entries: succeeds exactly when every listed object is there, no two paths stand in each other's way, and no download or write fails, and then adds exactly the listed files |
| `Workspace.S3Workspace.Restore` | crates/vlinder-s3-storage/src/lib.rs:219-350 | an error exactly when the manifest or a listed object is missing, two paths cannot both be files, or a call fails; else the local directory is the restored one, beside what could not be cleared before |
| `Workspace.NothingEscapes` | crates/vlinder-s3-storage/src/lib.rs:315-327 | a checkout writes exactly the manifest's paths that are neither absolute nor climb to a parent directory |
| `Workspace.ContentsAreTheFiles` | crates/vlinder-s3-storage/src/lib.rs:371-385 | the workspace a version stands for has each walked file's bytes at its own path and nothing else |
| `Utf8.LossyIsSame` | crates/vlinder-s3-storage/src/lib.rs:380 | a name is unchanged by the lossy conversion exactly when it is well-formed UTF-8 |
| `Utf8.ValidMeansEncoded` | crates/vlinder-s3-storage/src/lib.rs:380 | a name is well-formed exactly if it is the UTF-8 encoding of some Unicode scalar values |
| `Workspace.NormalIsSame` | crates/vlinder-s3-storage/src/lib.rs:380 | the name in the manifest is the file's exactly when it is well-formed and has no backslash, and is always both itself |
| `Workspace.CheckoutRestoresTheCommit` | crates/vlinder-s3-storage/src/lib.rs:219-477 | after any later commits, successful or broken off, in any session, a checkout at the version a commit stored gives that workspace, exactly when every path is well-formed UTF-8 without a backslash |
| `Workspace.CheckoutIsExactlyTheCommits` | crates/vlinder-s3-storage/src/lib.rs:219-477 | a checkout at v succeeds with w exactly when some commit of that session stored v for w |
| `Workspace.ManifestsAreCommits` | crates/vlinder-s3-storage/src/lib.rs:50-65 | every version under a session's manifest key was stored by a commit of that session |
| `Workspace.ToldIsKept` | crates/vlinder-s3-storage/src/lib.rs:430-477 | a commit is told the version it stored unless the answer to its last put was lost |
| `LambdaTasks.EveryLogIsSafe` | crates/vlinder-lambda-runtime/src/runtime.rs:259-330 | when a deletion of a function begins no invocation of it is in progress, and none starts before it is active again |
| `LambdaTasks.EveryDeliveryIsOneCall` | crates/vlinder-lambda-runtime/src/runtime.rs:281-326 | every delivery no task has in hand any more had one acknowledgement tried, whatever its outcome; an invoke led to exactly one call, another message to none, and an error complete was tried exactly if that call failed; a message delivered again counts as a new delivery |
| `LambdaTasks.InvokesAreCarriedThrough` | crates/vlinder-lambda-runtime/src/runtime.rs:281-326 | a waiting task calls the function for an invoke it is given, whether or not its acknowledgement succeeds, sends an error complete if the call fails, and waits again |
| `LambdaTasks.OthersAreDropped` | crates/vlinder-lambda-runtime/src/runtime.rs:281-326 | a message that is no invoke is acknowledged and dropped |
| `LambdaTasks.CancelledTasksCanEnd` | crates/vlinder-lambda-runtime/src/runtime.rs:259-264 | a waiting task can end exactly if it was cancelled |
| `LambdaTasks.OneDispatcherPerAgent` | crates/vlinder-lambda-runtime/src/runtime.rs:251-334 | no two live dispatcher tasks serve one agent |
| `LambdaTasks.NoInvokeMeetsADelete` | crates/vlinder-lambda-runtime/src/runtime.rs:335-352 | what the agent monitor means, as a statement about every position of the log |
| `LambdaTasks.StepsKeep` | crates/vlinder-lambda-runtime/src/runtime.rs:259-330 | any interleaving of task steps, a cancelled task's last receive included, keeps the world invariant |
| `LambdaTasks.StepsEvolve` | crates/vlinder-lambda-runtime/src/runtime.rs:259-264 | a task ends only if cancelled, never wakes again, and the log only grows |
| `LambdaRuntime.LambdaRuntime.constructor` | crates/vlinder-lambda-runtime/src/runtime.rs:75-100 | a new runtime has no function and no task |
| `LambdaRuntime.LambdaRuntime.CancelAndAwait` | crates/vlinder-lambda-runtime/src/runtime.rs:340-343 | the handle returns exactly when the task has ended, and the task is then out of the live ones; until then it stays accounted for |
| `LambdaRuntime.LambdaRuntime.Undeploy` | crates/vlinder-lambda-runtime/src/runtime.rs:339-352 | the task ends before the deletion is logged, and exactly this function goes |
| `LambdaRuntime.LambdaRuntime.Deploy` | crates/vlinder-lambda-runtime/src/runtime.rs:184-245 | the deployment succeeds, and the function enters the map, exactly when creating the role, creating the function and waiting for its activation all succeed |
| `LambdaRuntime.LambdaRuntime.SpawnInvokeTask` | crates/vlinder-lambda-runtime/src/runtime.rs:251-334 | the map gains one new live task for an agent that had none |
| `LambdaRuntime.LambdaRuntime.EnsureDeployed` | crates/vlinder-lambda-runtime/src/runtime.rs:141-166 | a missing function is deployed exactly if its three calls succeed, and reported ready or failed accordingly; an existing one is left alone and reported nothing |
| `LambdaRuntime.LambdaRuntime.EnsureDeleted` | crates/vlinder-lambda-runtime/src/runtime.rs:169-178 | the function is deleted if it existed, is gone, and deleted is reported, whether or not it existed |
| `LambdaRuntime.LambdaRuntime.StopOrphans` | crates/vlinder-lambda-runtime/src/runtime.rs:126-138 | exactly the functions the registry no longer lists are deleted and removed |
| `LambdaRuntime.LambdaRuntime.Tick` | crates/vlinder-lambda-runtime/src/runtime.rs:103-123 | after a tick functions and tasks have the same keys, all in the snapshot, none deleting; a deploying agent has a function exactly if it had one or its three calls succeed, and every agent got its outcome and report; the result says whether the number of functions changed |
| `LambdaRuntime.LambdaRuntime.Shutdown` | crates/vlinder-lambda-runtime/src/runtime.rs:369-385 | all tasks end before any function goes: the log speaks of tasks only up to some moment and of functions only after it; every function is deleted and both maps end empty |
| `PodmanRuntime.VolumeNamesCollide` | crates/vlinder-podman-runtime/src/pool.rs:364 | volume names are distinct for agents without a hyphen; with one, two agents' mounts can share a name |
| `PodmanRuntime.ContainerRuntime.constructor` | crates/vlinder-podman-runtime/src/pool.rs:67-90 | a new runtime owns no pod |
| `PodmanRuntime.ContainerRuntime.ProvisionMountVolumes` | crates/vlinder-podman-runtime/src/pool.rs:356-432 | succeeds exactly if every answer is good, the mounts have different names and none of the volumes exists, and then there is exactly one new volume per mount; on failure nothing but some of them |
| `PodmanRuntime.ContainerRuntime.CleanupMountVolumes` | crates/vlinder-podman-runtime/src/pool.rs:440-446 | removes exactly the listed volumes |
| `PodmanRuntime.ContainerRuntime.StartInPod` | crates/vlinder-podman-runtime/src/pool.rs:204-300 | succeeds exactly if both containers are created and the pod starts, and then the pod runs with the given volumes; on failure only that pod may have changed |
| `PodmanRuntime.ContainerRuntime.CreateAndStart` | crates/vlinder-podman-runtime/src/pool.rs:132-196 | succeeds exactly if every call does and no pod, id or volume is in the way; if anything fails after the pod was created the engine is as before; on success the entry owns exactly its volumes, each at its own mount's path |
| `PodmanRuntime.ContainerRuntime.Start` | crates/vlinder-podman-runtime/src/pool.rs:105-196 | a running pod is left alone; a stale entry, whose pod stopped or was removed by others, is dropped with its volumes first; the start succeeds exactly if the pod ran or nothing stood in its way after that, and what then runs owns its pod and volumes; a failure leaves no entry |
| `PodmanRuntime.ContainerRuntime.DropStale` | crates/vlinder-podman-runtime/src/pool.rs:113-130 | an entry whose pod does not run goes with its volumes, nothing else |
| `PodmanRuntime.ContainerRuntime.StopPod` | crates/vlinder-podman-runtime/src/pool.rs:470-475 | removes one entry, its pod and its volumes, and no other pod stops |
| `PodmanRuntime.ContainerRuntime.StopOrphans` | crates/vlinder-podman-runtime/src/pool.rs:460-476 | exactly the entries of unlisted agents go, each with its pod and volumes, and what runs of listed agents keeps running |
| `PodmanRuntime.ContainerRuntime.Reconcile` | crates/vlinder-podman-runtime/src/pool.rs:477-525 | one agent of the registry: a deploying one runs afterwards exactly if it ran or nothing stood in its way, a deleting one loses its entry, pod and volumes, any other is left alone, and no other agent's entry, pod or report changes |
| `PodmanRuntime.ContainerRuntime.EnsureContainers` | crates/vlinder-podman-runtime/src/pool.rs:449-527 | no orphan remains, each deploying agent runs and is reported ready or has no entry and is reported failed, each deleting one has no entry and is reported deleted; a deploying agent with nothing in its way runs if ids and volume names of the agents differ; with nothing to do neither map nor engine changes |
| `PodmanRuntime.ContainerRuntime.Tick` | crates/vlinder-podman-runtime/src/pool.rs:540-544 | the same outcomes, nothing changes when nothing is left to do, and the result says whether the number of pods changed |
| `PodmanRuntime.ContainerRuntime.Shutdown` | crates/vlinder-podman-runtime/src/pool.rs:546-560 | the map is empty and none of its pods or volumes remains |
| `PodmanRuntime.ContainerRuntime.TwoTicks` | crates/vlinder-podman-runtime/src/pool.rs:449-544 | a second tick over the same agents, on the states derived from what the first reported, changes neither map nor engine |
| `PodmanRuntime.OutcomeIsSettled` | crates/vlinder-podman-runtime/src/pool.rs:477-525 | whatever the other workers say, the state derived after a tick asks for nothing the tick has not done |
| `PodmanRuntime.DeployingReportMoves` | crates/vlinder-podman-runtime/src/pool.rs:482-511 | a failed report settles a deploying agent, a ready one leaves it deploying exactly while another worker is pending |
| `PodmanRuntime.DeletedReportMoves` | crates/vlinder-podman-runtime/src/pool.rs:514-525 | a deleted report ends the deletion exactly when all other workers are deleted; else the agent stays deleting unless another failed first |
| `Readiness.Derive` | crates/vlinder-core/src/domain/readiness.rs:133-174 | the loop with its early exits computes the fold |
| `Readiness.DerivedStatusMeaning` | crates/vlinder-core/src/domain/readiness.rs:128-174 | each derived state, as a condition on the workers' statuses, both ways |
| `RoutingTypes.WordsRoundTrip` | crates/vlinder-core/src/domain/operation.rs:29-65 | harness, runtime, service and operation words parse back |
| `RoutingTypes.BackendRoundTrip` | crates/vlinder-core/src/domain/routing_key.rs:96-146 | a backend's words give it back exactly when it is not the S3 object store |
| `RoutingKeys.KeyRoundTrip` | crates/vlinder-nats/src/queue.rs:717-754 | parsing a built key gives the key exactly when its free fields have no dot and it is not on S3 |
| `RoutingKeys.ParsersAreDisjoint` | crates/vlinder-amqp/src/routing.rs:41-374 | no text is accepted by the parsers of two kinds |
| `RoutingKeys.BackEndsAgree` | crates/vlinder-amqp/src/routing.rs:26-60 | the NATS format strings and the AMQP joins give one message the same text |
| `RoutingKeys.KeysOnTheWire` | crates/vlinder-amqp/src/routing.rs:26-374 | one key of each kind as written, segment by segment, joined by dots on both back ends |
| `RoutingKeys.S3RequestIsUnparsable` | crates/vlinder-core/src/domain/routing_key.rs:125-146 | a concrete S3 request key that its own parser rejects |
| `RoutingKeys.AcceptedShape` | crates/vlinder-amqp/src/routing.rs:41-60 | a parser accepts only texts with its kind's number of segments and its word in its place |
| `Bindings.AmqpFixed` | crates/vlinder-amqp/src/routing.rs:62-64 | topic matching of a pattern without `#` is word by word |
| `Bindings.AmqpOpenEnded` | crates/vlinder-amqp/src/routing.rs:173-180 | a trailing `#` takes any rest, the empty one included |
| `Bindings.NatsOpenEnded` | crates/vlinder-nats/src/queue.rs:875-882 | a trailing `>` takes any rest but the empty one |
| `Bindings.OpenEndsAgree` | crates/vlinder-nats/src/queue.rs:875-882 | the two open ends differ exactly on keys that stop where the wildcard begins |
| `Bindings.BindingExact` | crates/vlinder-amqp/src/routing.rs:62-318 | over all keys the builders can produce, a binding matches exactly the keys of that kind with those fields, on both back ends |
| `Bindings.DeliveredKeyIsAccepted` | crates/vlinder-nats/src/queue.rs:757-961 | what a subscription receives as text on either back end its parser reads back as the key that was sent, S3 keys excepted |
| `Bindings.WildcardAgentReceivesOthers` | crates/vlinder-nats/src/queue.rs:757-759 | an agent called `*` would receive every other agent's invokes |
| `Registry.PersistentRegistry.constructor` | crates/vlinder-sql-registry/src/persistent.rs:36-79 | loading fills the cache with exactly what is on disk |
| `Registry.PersistentRegistry.Open` | crates/vlinder-sql-registry/src/persistent.rs:36-79 | opening fails exactly when a stored model's engine is not configured |
| `Registry.PersistentRegistry.AddModel` | crates/vlinder-sql-registry/src/persistent.rs:139-149 | a call nothing interrupts: validated, cached, then saved; a failed save leaves the cache ahead |
| `Registry.PersistentRegistry.AddAgent` | crates/vlinder-sql-registry/src/persistent.rs:94-119 | a call nothing interrupts: the same agent again is accepted and saved again, another of that name rejected, a new one needs its models, capabilities and an identity |
| `Registry.PersistentRegistry.RemoveModel` | crates/vlinder-sql-registry/src/persistent.rs:167-195 | a call nothing interrupts: refused while a cached agent requires it, disk first, then cache |
| `Registry.PersistentRegistry.RemoveAgent` | crates/vlinder-sql-registry/src/persistent.rs:197-232 | a call nothing interrupts: refused while a fleet holds it, disk first, then cache |
| `Registry.OnlyUnusedModelsGo` | crates/vlinder-sql-registry/src/persistent.rs:167-195 | when nothing interrupts the deletion, a model goes only if no cached agent requires it, and is refused exactly when one does |
| `RegistryRuns.UninterruptedAdd` | crates/vlinder-sql-registry/src/persistent.rs:94-119 | the lock sections and awaits of registering an agent, with no other event between them, do what the uninterrupted call does, every outcome included |
| `RegistryRuns.UninterruptedAddModel` | crates/vlinder-sql-registry/src/persistent.rs:139-149 | the same of registering a model |
| `RegistryRuns.UninterruptedRemoveModel` | crates/vlinder-sql-registry/src/persistent.rs:167-195 | the same of deleting a model |
| `RegistryRuns.UninterruptedRemoveAgent` | crates/vlinder-sql-registry/src/persistent.rs:197-232 | the same of deleting an agent, whose id may be gone when it is looked up |
| `RegistryRuns.FleetsProtectTheirAgents` | crates/vlinder-core/src/domain/registry_memory.rs:445-482 | a fleet enters exactly if its agents are cached and its name is new, and from then on the deletion of any of its agents changes nothing |
| `RegistryOverlaps.CacheCoversDisk` | crates/vlinder-sql-registry/src/persistent.rs:36-232 | over all interleavings of sections in which no two calls in flight clash, failed saves and deletes, crashes in the middle of calls and restarts included, every name on disk is cached, agents as they are on disk |
| `RegistryOverlaps.SavedRunsAreSound` | crates/vlinder-sql-registry/src/persistent.rs:36-232 | if moreover no save is lost, at every moment cache and disk agree at every name that owes no save or eviction, and every agent's models are cached and on disk |
| `RegistryOverlaps.QuietMeansEqual` | crates/vlinder-sql-registry/src/persistent.rs:36-232 | with no call in flight, a sound registry has the same models and agents in the cache and on disk |
| `RegistryOverlaps.LostSavesAreExact` | crates/vlinder-sql-registry/src/persistent.rs:94-149 | a single step without a clash keeps a registry sound exactly when it does not lose a save: one that fails, of something not on disk, that no other call is about to save |
| `RegistryOverlaps.RestartsRepairTheCache` | crates/vlinder-core/src/domain/registry_memory.rs:82-91 | whatever went before, a restart makes cache and disk equal, and every agent has its models exactly when the disk is complete |
| `RegistryOverlaps.RestartIsAlwaysPossible` | crates/vlinder-sql-registry/src/persistent.rs:36-79 | whatever overlapped, clashed or was lost, a registry can be restarted with the engines it has, after a crash too, because no model lacks its engine |
| `RegistryRaces.DifferentRegistrations` | crates/vlinder-core/src/domain/registry_memory.rs:140-279 | from any state, two different agents that register under one new name can end with one in the cache and the other on disk |
| `RegistryRaces.RegisteredWhileDeleted` | crates/vlinder-sql-registry/src/persistent.rs:197-232 | an agent registered again while it is deleted can end on disk and not in the cache |
| `RegistryRaces.ModelRegisteredWhileDeleted` | crates/vlinder-sql-registry/src/persistent.rs:167-195 | so can a model |
| `RegistryRaces.DifferentModels` | crates/vlinder-sql-registry/src/persistent.rs:139-149 | two registrations of one model can end with one in the cache and the other on disk |
| `RegistryRaces.ModelDeletedWhileAwaiting` | crates/vlinder-core/src/domain/registry_memory.rs:266-279 | a model deleted while an agent checked against it awaits its identity leaves the agent cached and stored without its model |
| `RegistryRaces.AgentSavedBeforeModel` | crates/vlinder-sql-registry/src/persistent.rs:94-149 | an agent saved before the model it was checked against, a crash and a restart leave the agent without the model |
| `RegistryRaces.SyncedIsReached` | crates/vlinder-sql-registry/src/persistent.rs:36-149 | every quiet registry whose cache and disk agree and whose agents have their models is reached without a clash or a lost save |
| `RegistryRaces.ClashesAreExact` | crates/vlinder-sql-registry/src/persistent.rs:94-232 | from quiet reachable states, two calls alone, with nothing failing, can end in an unsound registry exactly when they clash |
| `RegistryRaces.LostModelLeavesAgentUnserved` | crates/vlinder-sql-registry/src/persistent.rs:139-149 | a lost save of a model, an agent that uses it, and a restart leave the agent without the model |

## Left out

- Network, process and cloud clients, HTTP servers, the session viewer, logging and configuration: foreign calls are nondeterministic results.
- JSON and TOML formats, diagnostics payloads, tool-call parsers and field-by-field message conversions.
- RFC 3339 parsing: only the printed texts are modelled; equal texts are shown to be equal times.
- Git: ref renaming at promotion, the working-tree checkout, commit messages and author lines; only trees and the linear history of HEAD.
- Names git refuses for reasons of its own file-system protection beyond empty, dots, `.git`, slashes and NUL.
- The NATS consumer cache and the queue names derived from bindings: naming only, no message passes through them here.
- The sequence counter's 32-bit width in the chain-head protocol.
- Snapshots of store states: the KV state is followed in the handler's cell, not in the node rows.
- Other handlers' calls: the shape of a turn is about one handler; rows of other turns may come between its rows.
- The branch lookup of fork rows by name (`insert_fork_node`): a row's branch is an input of the insert.
- Readiness checks that fail to be stored: a report is what was handed to the repository.
- LambdaRuntime.LambdaRuntime.Tick: says nothing of runs in which a cancelled dispatcher never ends, since the method then does not return.
- PodmanRuntime.ContainerRuntime.ProvisionMountVolumes: a failure half way leaves volumes behind, as in the code, and no later step removes them.
- DagStore.SqliteDagStore.Promote: takes the store calls of a promotion together, though the source awaits between them; each of them is a step of the store's runs, and the promotion's own row is left out.
- DagStore.PromoteIsExact: speaks of a promotion whose store calls nothing comes between; in other interleavings only the invariant of `ReplayKeepsInv` is proved.
- RowConversions.RowRoundTrip: leaves out the creation time (whose printed text is in `Timestamps`), the protocol version, which is copied, and the snapshot, which is JSON.
- MCP servers, manifests and readiness checks in the registry, and a fleet's entry agent; fleets are not stored and vanish with a restart.
