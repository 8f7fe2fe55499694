# A verified model of go-kord

go-kord keeps each KORD graph in a SQLite database whose bytes live in Swarm
under a hash that an Ethereum registry maps to the graph's address. This project
models the parts of it that have to be right together, and proves what they
promise.

**The database refresh protocol** (`db/db.go`, with the registry of
`testutil/util.go`). `Refresh.dfy` is a labelled step system. Every goroutine is
a thread with a program counter: callers inside `Driver.Open`, `Conn.Close`,
`Driver.Commit` or `Registry.SetGraph`, and the watcher each opened database
starts. `dbMtx`, the registry mutex and `connsMtx` have explicit holders, the
unbuffered `updates` channel is a rendezvous, a path is the list of inodes that
were renamed onto it, and the Swarm store is a content-addressed map. There is no
bound on names, threads, connections, updates or sizes, and a SQLite write may
hit the file behind any open handle at any moment. Eight invariants, one module
each, are kept by every step (`Runs.InvNext`) and hence in every behaviour
(`Runs.InvAlways`); the results follow from them.

| module | what it adds |
|---|---|
| Bounds, Locks | identifiers name existing things; who holds which mutex |
| Watchers | a name is in the driver's map exactly while its one watcher lives |
| Delivery | what a watcher has applied, holds and is being sent |
| Disks | complete files, the store, commits |
| Mirror | the last rename onto a path is for the last hash fetched |
| Handles | where every SQLite handle ever opened went |
| Freshness | which inode a connection uses |
| Runs | whole behaviours |
| Calls | one call of a thread, from its beginning to its return |
| OpenCalls, CommitCalls, CloseCalls, SetCalls | what a whole call of Open, Commit, Close and SetGraph does, and what it answers |
| Panics | when addConn panics, exactly, and what that leaves behind |
| Liveness, Stuck, Termination | who waits for whom, what blocks for ever, termination |
| Witnesses | behaviours from the start that reach each failure described below |

**The quad store transaction** (`db/graph.go`). `QuadTables.dfy` says what a batch
means, update by update; `QuadLaws.dfy` proves the laws of that meaning over any
tables, batches and runs; `Cells.dfy` spells out the cells of every kind of value
and what is read back from them; `Statements.dfy` says what SQLite does with the three
statements; `Deletes.dfy` puts the deletes around it that Cayley makes in the same
write; `RunTx.dfy` is runTx itself: its two loops, the statement caches, the
deferred closes and all early exits, over a transaction object in which any call
to the database may fail, proved against that meaning.

**Around them**: the registry contract's decoding of a signature from EVM memory
and its ledger against that of the test registry (`Contract.dfy`), the wait for a
receipt (`Receipt.dfy`), hexadecimal text (`Hex.dfy`), claims (`Claims.dfy`) and
KORD URIs (`Uri.dfy`).

`dafny verify dfyconfig.toml` checks everything.

## What turned out to differ from what one might expect

- The comment at `db/graph.go:80` speaks of updating reference counts, but
  `db/graph.go:116` overwrites the count. The model follows the code: refs is the
  last value given (`QuadLaws.NodesExact`), which is what makes a replay
  harmless (`QuadLaws.ReplayIdempotent`). Cayley's delete, which runs in the same
  transaction after runTx, counts down from there and removes nodes at zero, so
  that a delete can remove nodes that other quads still use
  (`Deletes.OverwriteDangles`). `Deletes.DeleteHarmlessExactly` says when it does
  not, and `Deletes.CountedDeletes` that it never does where counts are right.
- A text that holds the four characters `\x00` is read back with a null byte in
  their place, because a null byte is stored as these four and no backslash is
  escaped. `Cells.EscapeRoundTrip` and `Cells.ReadBack` say that such texts are
  exactly the values that are not read back as they were written.
- A hash accepted between the read at `db/db.go:108` and the subscription at
  `db/db.go:121` is not delivered. `Delivery.QuiescentAgreement` gives the exact
  condition under which a database at rest agrees with the registry.
  `Witnesses.MissedHashReached` is a behaviour in which a hash is missed.
- "Every registered connection is on the current file" is false, because newConn
  opens its handle before registering it (`Witnesses.OldInodeReached`).
  `Freshness.FreshAtRest` says exactly which connections are.
- A failed refresh can block forever in two ways: the watcher waits for
  `connsMtx`, which it holds (`db/db.go:250-252, 230`), or a publisher and the
  watcher wait for each other (`testutil/util.go:100-102`, `db/db.go:130`).
  `Liveness.OnlyTwoDeadlocks` says of each thread by itself that what it waits
  for can move on if and only if it is not blocked in one of these two ways;
  `Stuck.BlockedForever` that a blocked thread is blocked for good;
  `Witnesses.SelfBlockedReached` and `Witnesses.MutuallyBlockedReached` that both
  are reached.
- A connection that is registered after its database was torn down writes to a
  nil map (`db/db.go:226, 254`) and panics. The deferred Unlock runs, and then
  either the caller recovers, as the GraphQL executor and the RPC server do for
  their handlers, or the process ends; the model has both, and its invariants
  hold after either. `Panics.PanicExactly` says when that write happens,
  `Panics.NoFailureNoPanic` that a refresh must have failed first,
  `Panics.LostForever` that a recovered panic leaves a connection that is never
  registered, refreshed or closed, and `Witnesses.PanicReached` that all this is
  reached.
- The branch of the watcher that waits for `db.closed` (`db/db.go:148`) is never
  taken, since only the watcher closes that channel (`Panics.ClosedOnce`).
- A superseded handle is closed by nobody in db.go (`Handles.HandleConservation`:
  closed and superseded handles are disjoint).
- A claim's identifier, and so its signature, does not cover where the property
  ends and the claim text begins (`Claims.BoundaryUnsigned`); `Claims.FoundExactly`
  says when a graph nevertheless gives back only claims that were accepted.
- Only writeClaim verifies. Quads are also added to a graph, and deleted from it,
  unverified, through `kord/api.go:55-64`, so a record found in a graph need not
  carry a valid signature (`Claims.UnverifiedFound`). The guarantees about claims are therefore
  per identifier, with any other quads present, and `Claims.FoundVerifiesExactly`
  says for any graph at all when the records found under one verify.
- The contract books a signature that does not recover to the zero address,
  where the test registry refuses it; `Contract.AlikeExactly` lists all the
  publications on which the two differ.
- set-root looks a dapp up under the text it is given, while deploy stores it
  under the printed URI: `Uri.SetRootFinds`.

## Model

| member | source | states |
|---|---|---|
| Runs.InvInit | db/db.go:55-65 | a new driver with nothing open satisfies every invariant |
| Runs.InvNext | db/db.go:69-284 | every step of every opener, closer, committer, publisher and watcher, and every SQLite write, keeps all eight invariants |
| Runs.InvAlways | db/db.go:69-284 | they hold in every state of every behaviour, after failed refreshes and panics too |
| Panics.TornAlways | db/db.go:248-256 | in every state of every behaviour a database is closed, and its conns nil, exactly from the point on at which its watcher makes them so |
| Panics.PanicExactly | db/db.go:223-227 | a step writes to the nil map iff it is the addConn of a connection whose database's watcher has left db.close; it then releases connsMtx and changes nothing else, and the process ends in no other step |
| Panics.PanicLosesConn | db/db.go:223-227 | such a step leaves its connection unregistered with nobody about to register it |
| Panics.LostForever | db/db.go:212-284 | over the rest of the behaviour that connection is not registered, swapped or closed, and its handle stays in use |
| Panics.ClosedOnce | db/db.go:148-149 | db.closed is closed once, by the watcher itself, whose select therefore never sees it closed |
| Panics.NoFailureNoPanic | db/db.go:142-147 | in no behaviour does addConn panic, or a watcher leave, before a refresh has failed |
| Witnesses.PanicReached | db/db.go:212-256 | a behaviour from the start reaches that panic, with the process going on or ending |
| Witnesses.SomeWorld | db/db.go:55-65 | collision-free keys and publishable hashes, which the results and witnesses ask for, exist |
| Witnesses.SelfBlockedReached | db/db.go:248-256 | a behaviour from the start reaches a watcher waiting for the connsMtx it holds |
| Witnesses.MutuallyBlockedReached | testutil/util.go:90-131 | a behaviour from the start reaches a publisher and a failed watcher waiting for each other |
| Witnesses.OldInodeReached | db/db.go:212-227 | a behaviour from the start reaches a watcher at rest and a registered connection on an old inode |
| Witnesses.MissedHashReached | db/db.go:108-121 | a behaviour from the start reaches a watcher at rest that has not fetched the registry's hash |
| Locks.LockedNext | db/db.go:98-99 | at every step each mutex is held by exactly the threads whose position says so, and connsMtx never by a writer and a reader together |
| Locks.SelfLockBlocks | db/db.go:248-256 | db.close holding connsMtx cannot get past the Close of a connection, which locks it again |
| Watchers.SingleWatcher | db/db.go:97-155 | a name is in dbs iff its watcher was spawned or is about to be and has not removed it; one db and one watcher per name, also after failures |
| Watchers.DeletesOwnEntry | db/db.go:132-134 | the deletion at the end of a watcher removes its own entry and no newer one |
| Watchers.OnlyFetcher | db/db.go:113-147 | whoever may rename onto a path is the only live watcher of that name |
| Delivery.DeliveredNext | testutil/util.go:90-131 | every step keeps the account of what each subscriber was sent, holds and has applied |
| Delivery.ExactDelivery | testutil/util.go:97-103 | applied, then in hand, then being sent are exactly the hashes accepted since the subscription, in order; once no SetGraph runs a subscriber lags by at most one |
| Delivery.QuiescentAgreement | db/db.go:106-147 | at rest the last hash fetched is the registry's iff a hash came after the subscription or none that mattered fell between read and subscription |
| Disks.FetchEffect | db/db.go:157-190 | a step of fetchDB touches no file but its own temporary one, and renames only a complete copy of the bytes of its hash |
| Disks.AtomicReplacement | db/db.go:157-172 | at every step other than a SQLite write a path keeps showing the same bytes or at once shows a complete fetched content |
| Runs.NeverPartial | db/db.go:157-172 | in every behaviour a path shows the full bytes of the hash of its last rename, unless SQLite wrote since |
| CommitCalls.ContentTells | db/db.go:157-172 | over any behaviour a file that was renamed to a path holds what the last SQLite write on it wrote, or what it held then, whatever is fetched, renamed over it or committed |
| CommitCalls.CommitExplained | db/db.go:79-95 | over any behaviour, every finished commit is that of one call: it opened the file that the path of the name it was called with showed at one of its steps, stored only bytes that file had at some moment of the call, each at its position and as many as the file had when it asked, and returned their hash; it counts as quiet exactly if no SQLite write hit that file meanwhile |
| CommitCalls.CommitReturns | db/db.go:79-95 | a call of Commit none of whose steps fails returns with such a commit of its own name |
| CommitCalls.CommitRestored | db/db.go:79-95 | a commit that no SQLite write disturbed returns the hash of the bytes its path showed when it opened it, whatever refreshes ran meanwhile, and a refresh to that hash, at any path, restores them |
| Mirror.QuiescentFile | db/db.go:136-147 | at rest a path shows the bytes of the last hash its watcher fetched |
| CommitCalls.PublishedCommitShown | db/db.go:79-147 | over any behaviour: a commit of some name, its publication for an address, and a refresh of a database of that address; at rest its path shows the bytes that the path of the committed name showed when the commit opened it |
| Handles.HandlePartition | db/db.go:212-246 | the handles ever opened are, without overlap, in use, closed, superseded by a swap, or about to be swapped in |
| Handles.HandlePerConn | db/db.go:258-284 | the handles in use or closed are exactly one per connection, registered or not |
| Handles.HandleConservation | db/db.go:229-246 | the same counted: opened = in use + closed + superseded + being swapped, and in use + closed = connections |
| Handles.RemovedKeepsHandle | db/db.go:229-246 | after removeConn no step changes the connection's handle |
| Runs.FinalHandle | db/db.go:280-284 | over any behaviour, what removeConn leaves of a connection, its handle included, is final |
| CloseCalls.NextCloses | db/db.go:229-284 | a step closes at most one handle, that of the connection whose Close is at its last point, and removes a connection only where its handle is closed next |
| CloseCalls.ClosedAlways | db/db.go:280-284 | in every state of every behaviour the handle of a removed connection is closed or a thread is about to close it |
| CloseCalls.ClosedExactly | db/db.go:280-284 | and where none is, a connection's handle is closed iff the connection was removed |
| CloseCalls.CloseReturns | db/db.go:280-284 | when a call of Close has returned, in every later state its connection is out of its database's map and the handle it had then, its last, is closed |
| OpenCalls.OpenAnswers | db/db.go:69-227 | over any behaviour, a call of Open for a name gets a connection it made itself, on the database of that name subscribed to that name's address: the one the map held when the call looked, or, it having held none, the one this call made, in this order, from the registry's hash of the moment, a rename of it onto the path, a subscription and its entry in the map |
| OpenCalls.OpenReturns | db/db.go:69-75 | a call of Open returns with that connection registered, unless one of its own steps failed or addConn panicked |
| OpenCalls.OpenServes | db/db.go:212-246 | from then on the connection stays with its database, and whatever handle it uses was opened on an inode of the path of that name |
| Calls.AddressAlways | db/db.go:107 | in every behaviour each database is subscribed to the address of its name |
| SetCalls.HistoryIsBookings | testutil/util.go:90-98 | in every behaviour the publish history of an address is the sequence of hashes whose signatures recover to it, in the order in which SetGraph held the mutex, and its hash the last of these |
| SetCalls.SetReturns | testutil/util.go:90-105 | when a call of SetGraph whose signature recovers has returned, it has booked its own hash for that address and no other, and handed it to the watcher of every database subscribed to it at that step |
| Handles.OpensShown | db/db.go:212-246 | a step opens at most one handle, on the inode its path shows at that moment |
| Runs.HandleFromPath | db/db.go:212-246 | over any behaviour every handle is on the inode its path showed when it was opened, by newConn or for a swap |
| Runs.ConnFromPath | db/db.go:212-246 | at any time a connection uses the inode its path showed when newConn opened it or, if swapped since, when its last swap opened the handle |
| Freshness.FreshAfterSweep | db/db.go:235-246 | when reopenConns returns, every registered connection is on the newest inode of the path |
| Freshness.FreshAtRest | db/db.go:212-246 | at rest a registered connection is on the newest inode iff the last sweep reached it or it was opened after the last rename |
| Freshness.GenerationsGrow | db/db.go:212-246 | no step takes a connection back to an older inode |
| Runs.FreshForever | db/db.go:235-246 | over any behaviour, a connection registered when a reopenConns ends stays on the inode of that refresh or a later one |
| Liveness.OnlyTwoDeadlocks | db/db.go:97-284 | in every reachable state of a living process, following who waits for whom from a thread in the middle of an operation reaches a thread that can step iff that thread is not blocked by a watcher that waits for itself or by a publisher and a watcher that wait for each other |
| Liveness.DeadlockFree | db/db.go:97-246 | without a failed watcher every operation in progress moves on, for any number of openers, closers, committers, publishers and watchers |
| Liveness.BlockedLeadsNowhere | db/db.go:223-284 | what a blocked thread waits for is blocked, so its waits never end at a thread that can step |
| Stuck.SelfBlockedStays | db/db.go:248-256 | a watcher that waits for the connsMtx it holds does so after every further step |
| Stuck.MutuallyBlockedStays | testutil/util.go:90-131 | a publisher and a failed watcher waiting for each other do so after every further step |
| Stuck.FailedRefreshBlocksSender | db/db.go:129-146 | from any reachable state in which a publisher sends to a watcher that is refreshing, a failure of that refresh blocks both at once |
| Stuck.FailedRefreshBlocksItself | db/db.go:129-144 | from any reachable state in which a watcher with a registered connection is refreshing and the locks are free, a failure leads, step by step, to it waiting for itself |
| Stuck.BlockedForever | db/db.go:223-256 | a blocked thread is at the same point and blocked in every later state of the behaviour |
| Termination.StepsDecrease | db/db.go:69-284 | every step of every thread makes a fixed well-founded measure smaller |
| Termination.NoEndlessRun | db/db.go:69-284 | no infinite run of steps begins no new operation |
| Termination.EveryRunEndsAtRest | db/db.go:69-246 | whatever the schedule, a run from a healthy reachable state without needless failures can go on iff some call or refresh is in progress |
| Termination.EveryOperationEnds | db/db.go:69-246 | and there is one that ends with every call returned and every watcher at its select |
| Termination.EveryRunEndsCurrent | db/db.go:106-147 | where such a run can go on no longer, each database whose address had a hash accepted since its subscription shows the file fetched for the registry's hash |
| Cells.NewNodeStored | vendor/github.com/cayleygraph/cayley/graph/sql/quadstore.go:156-345 | after a successful runTx a new node has, for each of the ten kinds of value, exactly the cells written out, from the first value given for it, and the last RefInc |
| Cells.EscapeLaws | vendor/github.com/cayleygraph/cayley/graph/sql/quadstore.go:281-283 | escaping replaces each null byte by four characters and leaves everything else |
| Cells.EscapeRoundTrip | vendor/github.com/cayleygraph/cayley/graph/sql/quadstore.go:281-286 | unescaping undoes escaping iff the text does not itself hold those four characters |
| Cells.ReadBack | vendor/github.com/cayleygraph/cayley/graph/sql/quadstore.go:592-626 | NameOf gives back the stored value, of its own kind, iff it is not such a text |
| Cells.ReadAfterRun | vendor/github.com/cayleygraph/cayley/graph/sql/quadstore.go:521-630 | over any run of runTx calls NameOf of a new node is the value first given for it, exactly unless it is such a text |
| Cells.StatementsSpelled | db/graph.go:97-144 | the columns, placeholders and arguments of each node insert, of the update and of the quad insert, written out |
| QuadLaws.NodesSucceed | db/graph.go:87-129 | the node loop goes through iff every RefInc is non-negative and every value can be stored |
| QuadLaws.NodesExact | db/graph.go:87-129 | then refs of a mentioned hash is its last RefInc, cells are those stored before or first given, and nothing else changes |
| QuadLaws.QuadsExact | db/graph.go:131-160 | the quad loop goes through iff all are inserts of complete quads and, without IgnoreDup, no quad is repeated or stored; it then adds exactly the batch |
| QuadLaws.RunSucceeds | db/graph.go:79-162 | runTx succeeds iff all of these hold |
| QuadLaws.ErrorKeepsPrefix | db/graph.go:87-161 | on an error the tables are those of the elements before the first offending one, which alone succeed |
| QuadLaws.RefusedBecause | db/graph.go:87-161 | the reason given is that of the element it stops at: a negative RefInc, else a value that cannot be encoded; a delete, else a null end, else a quad stored by then without IgnoreDup |
| QuadLaws.BatchSplitting | db/graph.go:79-162 | one call on two batches joined succeeds iff two calls in sequence do, with the same tables, for any split and either mode |
| QuadLaws.WholeRun | db/graph.go:79-162 | after any run of successful batches the node table is that of one loop over all updates, and the quads are all those given |
| QuadLaws.NodeOverRun | db/graph.go:79-162 | over a run of runTx calls nodes and quads only grow, cells stay fixed, refs is the last RefInc ever given |
| QuadLaws.NothingDangles | db/graph.go:55 | over a run of runTx calls no stored quad dangles although foreign keys are off, if each batch brings or finds the nodes its quads use |
| QuadLaws.ReplayIdempotent | db/graph.go:113-155 | a successful batch applied again with IgnoreDup changes nothing; without it, it is refused iff it has quads |
| Deletes.DecreaseExact | vendor/github.com/cayleygraph/cayley/graph/sql/quadstore.go:418-431 | the count updates of a delete change the count of each node by the sum of its corrected updates, and nothing else |
| Deletes.WriteExact | vendor/github.com/cayleygraph/cayley/graph/sql/quadstore.go:415-441 | a whole write leaves each node that runTx left, its count changed by its updates, unless some count is to be lowered and its own is then zero or less |
| Deletes.DanglingExactly | vendor/github.com/cayleygraph/cayley/graph/sql/quadstore.go:340-449 | after a whole write nothing dangles iff each node a remaining quad uses has a positive count after the updates, or no count went down |
| Deletes.DeleteQuadsExact | vendor/github.com/cayleygraph/cayley/graph/sql/quadstore.go:362-414 | deletes go through iff missing quads are ignored or every quad is stored and named once; they remove exactly the quads named, and what they count as missing is, for every node, the uses named but not lost |
| Deletes.DeletesExact | vendor/github.com/cayleygraph/cayley/graph/sql/quadstore.go:362-441 | a write of deletes lowers the count of each node by exactly the uses that are lost, with missing quads among them or not, and removes exactly the nodes then counted zero or less |
| Deletes.DeleteHarmlessExactly | vendor/github.com/cayleygraph/cayley/graph/sql/quadstore.go:362-441 | such a write leaves nothing dangling iff no count is to be lowered or each node a remaining quad uses is counted more often than its uses are lost |
| Deletes.CountedDeletes | vendor/github.com/cayleygraph/cayley/graph/sql/quadstore.go:362-441 | if each node is counted at least as often as it is used, that holds again after deletes and nothing dangles, missing quads ignored or not |
| Deletes.OverwriteDangles | db/graph.go:114-124 | a store in which nothing dangles, reached by two writes of new quads, from which deleting one quad removes nodes that two others use |
| Statements.InsertNodeWorks | db/graph.go:97-124 | column, placeholder and argument counts of a node insert agree; it stores the node or fails on the key, and the update then sets refs |
| Statements.PlaceholderInjective | db/graph.go:68-70 | different positions have different placeholders |
| Statements.InsertSqlInjective | db/graph.go:97-110 | different value types have different insert statements, so a cache keyed by type is exact |
| RunTx.InsertStmt | db/graph.go:97-112 | gives the statement a fresh Prepare would give, preparing it only when it is not cached |
| RunTx.UpdateStmt | db/graph.go:114-121 | the same for the update |
| RunTx.UpsertNode | db/graph.go:96-128 | inserts a new node or overwrites the refs of a stored one; stops at a failing call with the table unchanged |
| RunTx.ApplyNodes | db/graph.go:81-129 | the node loop does what the node updates mean, with the executions of a loop without caches; it stops at the first failing call, with the table of the updates before and the executions of those and at most a part of the next |
| RunTx.ApplyQuads | db/graph.go:131-160 | the same for the quad loop, in either duplicate mode |
| RunTx.CloseAll | db/graph.go:108-147 | the deferred closes close every statement of the call once |
| RunTx.RunTx | db/graph.go:79-162 | tables, error and executions are those of the batch's meaning on every schedule of failures; after a failing call, the tables are those of the elements before it and the executions theirs and at most a part of its own; every statement prepared is closed exactly once on every exit path, and none is prepared twice |
| Contract.Loads | contracts/KORDRegistry.sol:40-44 | the three loads give bytes 0-31, 32-63 and 64 of a 65-byte signature whatever memory follows |
| Contract.BigEndianInjective | contracts/KORDRegistry.sol:41-42 | the loaded words determine the bytes |
| Contract.ReadWritten | contracts/KORDRegistry.sol:41-42 | reading a big-endian word undoes writing it, for every number that fits |
| Contract.WrittenRead | contracts/KORDRegistry.sol:41-42 | and writing undoes reading, for any bytes |
| Contract.KORDRegistry.SetGraph | contracts/KORDRegistry.sol:33-53 | on the words r and s and a last byte v: accepts iff v is 0, 1, 27 or 28, and then the hash is stored for the address recovered from r, s and the id v stands for, or for the zero address, and for no other; anything not 65 bytes long is refused |
| Contract.TestRegistry.SetGraph | testutil/util.go:90-98 | on the words r and s and a last byte v: accepts iff v is below 4 and r, s and v recover to an address, and then the hash is stored for that address and no other; anything not 65 bytes long is refused |
| Contract.EntriesOf | contracts/KORDRegistry.sol:33-53 | what either registry writes, in terms of r, s and the last byte |
| Contract.LastWritePerSigner | contracts/KORDRegistry.sol:24-52 | over any run, what graph returns for an address is the last hash published for it, or what it was |
| Contract.AlikeExactly | testutil/util.go:90-98 | contract and test registry treat a publication alike iff a condition on its length, last byte and recoverability holds |
| Contract.SameLedger | contracts/KORDRegistry.sol:33-53 | on any run of publications treated alike, in particular recoverable ones with last byte 0 or 1, both ledgers are equal |
| Contract.OffsetIgnored | contracts/KORDRegistry.sol:46 | last bytes 27 and 28 mean 0 and 1 |
| Receipt.Client.Do | registry/registry.go:140-174 | at most 51 heads and 50 queries; decides on the first decisive event or at head 51 and on nothing else; a receipt first visible at head k <= 50 is decided on at head k; never returns a failed receipt; unsubscribes on every return |
| Receipt.Client.SetGraph | registry/registry.go:133-138 | no error iff the wait ends on a good receipt within 50 heads or on a nil from the subscription |
| Receipt.SomeEnd | registry/registry.go:155-158 | it ends on some event of every trace of more than 50 |
| Hex.DecodeEncode | vendor/github.com/ethereum/go-ethereum/common/bytes.go:63-67 | decoding undoes encoding whatever the case of the letters |
| Hex.EncodeDecode | vendor/github.com/ethereum/go-ethereum/common/bytes.go:63-67 | and text that decodes is, but for case, the encoding of what it decodes to |
| Hex.FromHexReads | vendor/github.com/ethereum/go-ethereum/common/bytes.go:31-42 | digits, prefixed or not, read as the bytes they encode, an odd number of them with a zero digit put before |
| Hex.AddressBytes | vendor/github.com/ethereum/go-ethereum/common/types.go:198-204 | an address made of any bytes is the last 20 of them, after zeros |
| Hex.DecodesIffHex | vendor/github.com/ethereum/go-ethereum/common/types.go:152-157 | what decodes is exactly text of an even number of hexadecimal digits |
| Hex.PrintedDigit | vendor/github.com/ethereum/go-ethereum/common/types.go:166-186 | character i of a printed address stands for half-byte i, and is a capital iff it is a letter over a half-byte of 8 or more of the hash |
| Hex.AddressRoundTrip | vendor/github.com/ethereum/go-ethereum/common/types.go:166-186 | an address printed with EIP-55 capitals reads back as itself, for every hash function |
| Claims.StorageRoundTrip | api/types.go:121-140 | ToClaim of Quad is the claim; the recomputed identifier is the stored one and the claim verifies again iff it did |
| Claims.SignedBytes | api/types.go:66-73 | the identifier is the digest of issuer in bytes 0 to 19, subject in 20 to 39, then property and claim |
| Claims.ClaimQuads | api/types.go:110-130 | the six quads of a claim, written out |
| Claims.SameID | api/types.go:66-73 | two identifiers are equal iff issuer, subject and property+claim are |
| Claims.BoundaryUnsigned | api/types.go:66-73 | moving the boundary between property and claim keeps the identifier and the validity of the signature |
| Claims.FoundVerifies | api/graphql.go:245-273 | where the quads under an identifier came from accepted claims, whatever else the graph holds, a record read back under it that fits it carries a valid signature of its issuer |
| Claims.FoundVerifiesExactly | api/graphql.go:163-186 | in any graph, where some record fits an identifier, all that fit verify iff every signature stored under it is one by that issuer |
| Claims.UnverifiedFound | kord/api.go:55-64 | the quads of a claim that does not verify, written past writeClaim, are found, fit their identifier and do not verify |
| Claims.ForeignKeeps | kord/api.go:55-64 | an unverified write keeps the records accepted under an identifier iff it deletes none of their quads, and leaves it clean iff what remains there, old and new, is of accepted claims |
| Claims.FoundExactly | api/types.go:121-140 | where the quads under an identifier are those of the claims accepted for it, every record that can be read back under it is one of those iff they agree where the property ends |
| Claims.Driver.Get | graph/driver.go:70-82 | over any sequence of calls no name's store is opened twice; an opened store is never replaced, and nothing is remembered on failure |
| Claims.Resolver.WriteClaim | api/graphql.go:245-263 | on a store with any contents: adds the claim's quads iff it verifies, the store opens, both texts are non-empty and the write succeeds, and otherwise changes no graph; under every identifier keeps the records of accepted claims and cleanness |
| Claims.Resolver.CreateClaim | api/graphql.go:222-243 | succeeds iff the write and the commit do; a failing commit is reported although the claim is written |
| Uri.UnescapeEscape | pkg/uri/uri.go:51-57 | percent-decoding undoes percent-encoding (section 2.1 of RFC 3986) |
| Uri.EscapeUnescape | pkg/uri/uri.go:51-57 | encoding undoes decoding exactly on texts that escape only what must be, in capitals |
| Uri.EscapeByte | pkg/uri/uri.go:51-57 | which bytes of a path stand for themselves, and how the others are written |
| Uri.ParseExactly | pkg/uri/uri.go:34-49 | Parse accepts exactly the texts made of the scheme in any case, perhaps a user, an address, an absolute path or none, and perhaps a query and a fragment, and returns the address and the decoded path |
| Uri.PathsSpelled | pkg/uri/uri.go:51-57 | a path prints byte by byte, but for a lone '*' |
| Uri.ParsePrint | pkg/uri/uri.go:34-57 | parsing a printed URI gives the URI with its path made absolute, for every URI |
| Uri.CanonicalForm | pkg/uri/uri.go:34-57 | for every accepted text, Parse after String after Parse is Parse, and printing is idempotent |
| Uri.SetRootFinds | kord/meta.go:153-163 | set-root finds a deployed dapp iff its text is canonical and means the same URI |
| Uri.CanonicalReads | cli/dapp.go:94-97 | a canonical text is accepted and prints as itself |
| Uri.PrintedIsCanonical | pkg/uri/uri.go:51-57 | what is printed for a parsed URI is canonical |
| Uri.EmptyFragmentLost | kord/meta.go:153-163 | every printed URI followed by '#' is accepted, means the same, and is not found |

## Left out

- Form of db/db.go and the test registry: they are concurrent, so they are a step system on values instead of classes with methods; a step is the code between two points at which another goroutine may run. What is not captured is the Go memory model below those points.
- File names: different names are taken to denote different files, so two names that filepath.Join maps to one path are not modelled.
- Hashes: a digest is an unbounded number and a collision-free function; signature recovery and Keccak are parameters.
- RWMutex: a waiting writer does not hold off new readers in the model; each connsMtx has one reader, its watcher.
- Errors of Registry.Graph and SubscribeGraph in openDB: the test registry returns none. The SubscribeGraph of registry/registry.go is a stub.
- Finalizers of the SQLite driver, which may close a superseded handle some time later.
- The mutex of graph/driver.go:71, held while a store is opened: one opener that is blocked also blocks every Driver.Get of any name.
- A panic that is recovered far from Driver.Open: what database/sql keeps for the connection it was opening is not modelled.
- A second Close of a Conn closes its handle again, which the model records once.
- Liveness after a failed refresh: what is blocked, and that it stays so, is stated as it is, and nothing is repaired.
- SQLite: a failed insert undoes only itself, node hashes are a key, quads are unique on their four directions, three of which are NOT NULL. The ts column, and times and floats beyond equality, are not modelled. The rollback after an error is part of Deletes.Write and not of RunTx.
- Node updates with the zero hash, which graphlog.SplitDeltas does not make, and the order in which it puts the nodes.
- Reading nodes: the cache of QuadStore.NameOf is not modelled, and the protobuf decoding of a foreign value is taken to undo its encoding.
- Deletes.Write: failing database calls and prepared statements are modelled for runTx only.
- RunTx.RunTx: the order of the deferred closes is modelled but its contract states only that each statement is closed once.
- RunTx.UpsertNode: a call that fails leaves the tables as they were, which is SQLite's behaviour for a failed statement.
- Contract.KORDRegistry.SetGraph: gas is not modelled, and a failing ecrecover gives the zero address, as Solidity from 0.4.14 on guarantees.
- Contract.TestRegistry.SetGraph: its subscribers are part of the Refresh module.
- Receipt.Client.Do: the events the select takes are a given finite sequence; how the block feed produces them is not modelled.
- Claims.Resolver.WriteClaim: which quads a schema write makes is modelled, but not their way through Cayley's writer to runTx; a graph whose file is replaced by a refresh while a store is open belongs to the refresh protocol.
- Loading a claim: Cayley's loader returns one record per subject with one value per field, so of several signatures or boundaries stored under one identifier only one comes back. The model speaks of every record it could return.
- Claims: the identifier is stored as its hash and not as its hexadecimal text. JSON, the path query of GraphResolver.Claim and ClaimFilter are left out.
- Hex.FromHex: what the decoder returns beside an error is a parameter, since it depends on the Go version.
- Uri.Parse: net/url follows Go 1.9 (Dockerfile:1), whose source is not part of this model; errors are not told apart, and which user information before an '@' is accepted is a parameter.
- Swarm chunking and retrieval, HTTP, RPC, GraphQL execution, the command line, mining and service start-up, and the generated contract binding.
