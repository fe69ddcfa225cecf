# OeScript: a verified model of the tuple space, its matcher, its codecs and its heap structures

OeScript is a transactional tuple space written in C. Clients put records
(tuples or maps of attributes, with an optional attachment) under a lease, read
or take records that match a template, wait for a match, and group puts and takes
into transactions. This project models the parts where that promise can go wrong
and proves it, or says exactly when it fails:

| files | what they model |
|---|---|
| `Space`, `Rollback`, `Commit`, `History` | the store as a state machine of its atomic steps, and what holds over whole interleaved runs |
| `Promise` | how long a record can be had and a transaction finished, which gets are refused or miss, and what a put hands to a later get, in clock readings and attribute lists alone |
| `PropIndex`, `OeBdb`, `HolderCodec`, `Decimal` | the store's code on top of that machine: records, three secondary indexes kept up to date entry by entry, puts, gets, takes, commits, the reaper, and the stored bytes of a record |
| `Enlistment` | the client's count of what it enlisted against the store's |
| `Dispatcher`, `Kernel`, `Waiting` | the template matcher that wakes waiting clients, the path from a store step to those it must wake, and the life of one get request |
| `CJson`, `JsonMsg`, `Framing`, `Base64` | what goes over the wire, and back |
| `Buckets`, `HashSet`, `HashTable`, `Arena` | hash buckets, sets, tables and the arena allocator |

`Space` knows nothing of code: a step is legal or not and has one effect. Each
method of `OeBdb.Store` is proved to be exactly one such step (or none), so the
theorems about runs in `Rollback`, `Commit` and `History` hold of the code.
Berkeley DB is reduced to that contract: one atomic step per call, and a deadlock,
a retry or an error leaves the records as they were. The clock, malloc and the
order of thread steps are parameters or free choices.

Some obvious claims are false of the code. They are stated with the condition
under which they do hold:

- A map key is a plain concatenation with "~+" between the halves. It identifies
  its pair if and only if neither half contains "~+" (`PropIndex.MapKeyIdentifies`);
  tuple keys always identify theirs (`PropIndex.TupleKeyIdentifies`). The join over
  a map template's keys agrees with matching on every record if and only if no key
  of it can be cut elsewhere into two halves a record may have, or one cannot be cut
  at all (`PropIndex.MapJoinAgreesIff`); every tuple template has a map that misleads
  it (`PropIndex.TupleTemplatesMislead`).
- A get over several templates can return more than `max` results: if and only if
  some template finds a visible record although those before it find `max` or more
  (`OeBdb.MaxIsExceededIff`, with a store where it happens in `OeBdb.MaxIsExceeded`).
- A group of templates that does not consume can fire twice on one write
  (`Dispatcher.ReadFiresTwice`): if and only if the scan of a set matches another
  member before the first (`Dispatcher.FiresTwiceIff`), which the bucket order of
  the member ids decides (`Dispatcher.GroupFiresAtMostOnce`). It never fires a third
  time (`Dispatcher.GroupFiresAtMostTwice`).
- A member of a taking group that is filed after its group was removed has no
  handler, yet a write that it matches stops at it. An event wakes nobody if and only
  if no live template matches it, or such a leftover comes before all that do
  (`Dispatcher.WakesNobodyIff`); it does happen (`Dispatcher.LeftoverSwallowsWrite`).
- The matcher files a template under a hash of 99000 values and never compares the
  field itself again, so a write of another field with the same hash wakes a get, and
  a take that waits swallows it: "eovm" for "a" (`Dispatcher.SameHashWakes`; exactly
  when, `Dispatcher.WriteForOne`).
- A map template that the store matches is found by the matcher if and only if the
  field it is filed under stands once in the template or more than once in the
  object, or a field of the same hash lets it in (`Dispatcher.StoreMatchIsFound`).
  So a template that repeats a pair may be missed, or not (`Dispatcher.RepeatedPairs`);
  one that repeats none never is (`Dispatcher.DistinctPairsAreFound`).
- `oe_memmem` is a search if and only if the needle is one character, or one
  character twice (`Framing.MemmemIsSearchIff`); "\n\n" is such a needle.
- The reaper does nothing unless some indexed expiry is at or after now
  (`OeBdb.Store.LeaseReaper`, with a lapsed record it leaves in
  `OeBdb.ReaperLeavesLapsed`). The comparator of its index orders the keys of an
  interval rightly if and only if the interval holds at most 2^31 of them
  (`OeBdb.ComparatorIsRightIff`).
- The client counts a refused put as enlisted, so the commit's count check passes
  if and only if no enlisted put was refused (`Enlistment.CountCheckIsExact`, with a
  run that fails in `Enlistment.RefusedPutSpoilsCommit`).
- A get is answered once for the request and once more for each of its groups that
  fires twice (`Waiting.AnswerBound`): at most once for a take or a single template
  (`Waiting.AnsweredOnce`), but a read of two equal templates can be answered twice
  (`Waiting.ReadAnsweredTwice`).
- A write between a get's miss and the filing of its templates wakes nobody
  (`Waiting.UnfiledIsPassedOver`); it is noticed when the timeout makes the get look
  again (`Waiting.WriteInTheGap`).
- An if-exists get that misses waits if and only if it asks for all templates and the
  first has a hit (`Waiting.Get.Look`), so never for a record a transaction has written
  (`Waiting.OwnedAreUnseen`, with a run in `Waiting.IfExistsIgnoresWritten`).
- In `arena.c` the chunk header has room for a pointer to an arena record, not for
  the record. Where three pointers are wider than `union align` (8-byte pointers
  and a 16-byte `long double`), a client's first block covers a saved field and
  `Arena_free`'s closing assertion fails (`Arena.ShallowHeaderBreaksFree`); where
  they are not, everything the allocator promises is proved (`Arena.Allocator`).
- A transaction that put a record the attribute index refuses can never commit,
  since the record has to be indexed when it is unlocked
  (`History.UnindexableNeverCommits`).
- An active transaction that expires is stuck: its records stay locked for good
  (`History.ExpiredHoldsForever`).

## Model

| member | source | states |
|---|---|---|
| Space.InvHolds | corelib/OeBdb.c:549-575 | every legal step keeps the invariant: a record is unlocked exactly when unowned, a nonzero owner is an active transaction, every record not under a write lock can be indexed |
| Space.InvRun | corelib/OeBdb.c:755-889 | the invariant holds in every state a run can reach |
| Space.NoPanic | corelib/OeBdb.c:857-863 | the walk over a transaction's records never meets one under neither lock, so the panic branch cannot be reached |
| Rollback.RollbackLeavesNoTrace | corelib/OeBdb.c:755-889 | for every interleaved run in which a transaction starts and is rolled back, erasing its steps (lease updates on its own writes included) gives a legal run that ends with the same records, record for record, and the same other transactions |
| Rollback.UncommittedIsInvisible | corelib/OeBdb.c:282-326 | before a transaction commits, the run without it leads to the store with its takes given back and its writes gone, at every point of the run |
| Rollback.EraseKeepsHidden | corelib/OeBdb.c:1472-1571 | the simulation behind both: full and erased run stay related through every step of everybody |
| CommitAtomicity.CommitIsAtomic | corelib/OeBdb.c:755-889 | a run in which a transaction commits ends with the same records as the run in which it does nothing until the commit, and then all its puts are plain puts and all its takes plain deletes, together at the commit |
| CommitAtomicity.BatchIsCommit | corelib/OeBdb.c:1526-1571 | the plain puts and deletes are legal where the transaction never ran, and lead to what the commit step leaves |
| CommitAtomicity.FinishedDoesNothing | corelib/OeBdb.c:769-771 | after its commit no step of any run is a step of that transaction |
| History.FateRun | corelib/OeBdb.c:282-371 | conservation: told from the steps alone, each lease id is always in exactly one of unborn, free, written, taken, consumed, withdrawn, reaped, and the store agrees |
| History.FinalFates | corelib/OeBdb.c:815-823 | consumed, withdrawn and reaped are final |
| History.ConsumedOnce | corelib/OeBdb.c:328-371 | over any run a lease id is consumed by at most one take, and exactly when that is its fate |
| History.TakesAreExclusive | corelib/OeBdb.c:1275-1297 | a second take of a lease id can succeed only after the transaction of the first was rolled back |
| History.StatusIsFinal | corelib/OeBdb.c:1494-1520 | a transaction that left the active status keeps its record unchanged for good |
| History.ExpiredHoldsForever | corelib/OeBdb.c:1514-1520 | an active transaction whose expiry is set and lies before the clock stays active over any run, and its records are never unlocked or deleted |
| History.UnindexableNeverCommits | corelib/OeBdb.c:850-854 | while a transaction holds a written record that the attribute index refuses, no run contains a commit of it |
| History.WakeUpsAreExact | corelib/OeBdb.c:1561-1567 | the records a step fires events for are exactly those that become unowned in it |
| History.UnreapedRun | corelib/OeBdb.c:1631-1724 | dropping the reaper's steps from a run leaves a legal run whose store differs only by unowned records of a lapsed lease |
| History.ReapingIsInvisible | corelib/OeStoreHolder.c:117-131 | with the reaper switched off, every later get is offered the same records |
| Promise.LeaseLaw | corelib/OeStoreHolder.c:117-131 | over any run that neither takes nor renews it, a record nobody owns can be had at m if and only if it is for ever or m is before its expiry, and until it is reaped it stays what it was |
| Promise.RenewalLaw | corelib/OeBdb.c:1346-1352 | over any such run the lease can be renewed at m if and only if the record is still there and m is not past its expiry |
| Promise.TxnLaw | corelib/OeBdb.c:1514-1520 | a transaction started at n for d and left open over any run is rolled back at m if and only if m <= n + d, or d is for ever; and committed if also what it wrote can be indexed and the count is right |
| Promise.VerdictIff | corelib/OeBdb.c:1226-1305 | what a get answers, told from templates and records alone: refused if and only if some template has only wildcards or is no list of pairs, found if and only if some template matches a record on offer; when all templates are asked for, every one has to |
| Promise.PutThenGet | corelib/OEK_put.c:36-43 | what is put at n for d is read or taken at m, whole, by any template that matches it, if and only if m < n + d or d is for ever |
| Promise.PutThenRenew | corelib/OeBdb.c:1346-1352 | what is put at n for d is renewed at m if and only if m <= n + d or d is for ever |
| Promise.StartThenFinish | corelib/OeBdb.c:1514-1520 | a transaction started at n for d is finished at m if and only if m <= n + d or d is for ever, and refused as expired otherwise |
| Promise.ExtendThenFinish | corelib/OeBdb.c:1514-1524 | an extension at k by `more` succeeds if and only if k <= n + d, and then the transaction can be finished at m if and only if m <= k + more |
| Decimal.NumeralInjective | corelib/oec_values.c:105-115 | different numbers have different decimal forms |
| PropIndex.MapKeyIdentifies | corelib/OeBdb.c:405-430 | a map key identifies its pair if and only if neither half contains "~+" |
| PropIndex.TupleKeyIdentifies | corelib/OeBdb.c:373-403 | a tuple key identifies field, position and size, whatever the field contains |
| PropIndex.KeysAgreeWithMatching | corelib/OeBdb.c:964-1048 | a record carries all keys of a template exactly when it matches it (same-length tuples equal at every non-wildcard place, maps with every pair of the template, none a wildcard), for map templates free of "~+" against any record, and tuple templates against tuples and "~+"-free maps |
| PropIndex.MapJoinAgreesIff | corelib/OeBdb.c:405-430 | for a map template the join agrees with matching on every record if and only if no pair of it is ambiguous, or one that no record can carry |
| PropIndex.TupleTemplatesMislead | corelib/OeBdb.c:373-403 | every tuple template has a map record that carries its keys without matching |
| PropIndex.SeparatorBreaksMatching | corelib/OeBdb.c:422-424 | with "~+" in an attribute two maps without a common pair, and a map and a tuple, answer to one key |
| OeBdb.Store.SetProps | corelib/OeBdb.c:1050-1099 | the attribute callback gives exactly the record's keys, and fails exactly for unowned records without an indexable attribute list |
| OeBdb.Store.TupleProps | corelib/OeBdb.c:1005-1048 | the keys of a tuple's non-wildcard fields; fails when there is none |
| OeBdb.Store.MapProps | corelib/OeBdb.c:964-1003 | the keys of a map's pairs without wildcards; fails on an empty or odd list |
| OeBdb.Store.PutHolder | corelib/OeBdb.c:577-620 | the record is replaced and all three indexes, updated entry by entry, equal their definition again; a refused record changes nothing |
| OeBdb.Store.DelHolder | corelib/OeBdb.c:328-371 | the record goes and the indexes equal their definition |
| OeBdb.Store.Put | corelib/OEK_put.c:18-71 | lock, owner and expiry chosen for a new record; succeeds exactly when the transaction is active or the plain record can be indexed, each failure with its own code; the record stored is the one given, to run out `dur` after now or never; is that one step, and fires an event exactly for a plain put |
| OeBdb.Store.TryPut | corelib/OeBdb.c:549-575 | stores the record exactly when its transaction is active, or it has none and can be indexed |
| OeBdb.Store.UpdateLease | corelib/OeBdb.c:1307-1381 | the return code for every case: a known lease is renewed if and only if it is for ever or now is not past its expiry, and its expiry alone changes |
| OeBdb.Store.StartTxn | corelib/OeBdb.c:1401-1441 | a fresh id and an active transaction record that runs out `dur` after now or never, or a drawn id and no other change |
| OeBdb.Store.FinishRecords | corelib/OeBdb.c:790-869 | the walk over the owner index deletes the records under one lock, unlocks those under the other, counts them all and lists the data of the unlocked ones once each |
| OeBdb.Store.FinishTxn | corelib/OeBdb.c:755-889 | succeeds exactly when every record to unlock can be indexed and the enlisted count is right; otherwise changes nothing |
| OeBdb.Store.UpdateTxn | corelib/OeBdb.c:1472-1571 | the return code for every case: finished transactions are told apart, an active one is refused if and only if its expiry is set and before now, a commit then if a written record cannot be indexed or the count is wrong; commit, rollback or extension is one legal step or changes nothing; the events fired are the data of the records that became unowned, one each |
| OeBdb.UpdateIsStep | corelib/OeBdb.c:1514-1560 | when an update is legal, and the transaction and records it leaves |
| OeBdb.NeverPanics | corelib/OeBdb.c:857-863 | in a reachable state neither commit nor rollback meets a record under neither lock |
| OeBdb.Store.Join | corelib/OeBdb.c:480-497 | joining the cursors yields exactly the unowned records that carry every key |
| OeBdb.JoinAgreesWithScan | corelib/OeBdb.c:480-497 | with "~+" kept out of map templates, and for tuple templates out of maps, those are exactly the unowned records a direct scan matches |
| OeBdb.Store.GetOne | corelib/OeBdb.c:447-547 | what one template adds: visible records carrying its keys, each once, and exactly as many as there are, or as are missing to max, one at least; the exists flag is set exactly when something is added, for a record under a write lock is never in the join |
| OeBdb.Store.Get | corelib/OeBdb.c:1226-1305 | the return code, told from the store; how many results each template has, told from the store; every result visible and carrying the keys of its template, none twice for one template; a take is one legal step that never reports a lease id twice; any other outcome changes nothing; after a miss the exists flag is set if and only if all templates are asked for and the first has a hit |
| OeBdb.Store.TakeResults | corelib/OeBdb.c:282-371 | the results are locked, or deleted without a transaction, unless one of them is gone already |
| OeBdb.AnswersMatch | corelib/OeBdb.c:499-545 | each result of a get is unlocked, within its lease and matches, by direct comparison, the template it was found by; a read reports the stored record itself, a take the record with only lock and owner changed |
| OeBdb.MissesMatchNothing | corelib/OeBdb.c:499-545 | a template that no visible record carries the keys of matches nothing visible |
| OeBdb.ResultCount | corelib/OeBdb.c:536-542 | the number of results: all there are while they stay below max, then max and one more for each later template that finds something |
| OeBdb.MaxIsExceededIff | corelib/OeBdb.c:536-542 | more than max results come back if and only if some template finds a visible record although those before it find max or more |
| OeBdb.MaxIsExceeded | corelib/OeBdb.c:536-542 | three puts and a read of at most two that returns all three |
| OeBdb.CountBounds | corelib/OeBdb.c:1226-1305 | one result for each template in order when all are asked for, otherwise at most max + k - 1 for k templates |
| OeBdb.EveryHitIsAnswered | corelib/OeBdb.c:506-542 | every template that matches something visible has a result |
| OeBdb.Query.AddStoreHolder | corelib/OeStoreQuery.c:24-32 | the result is appended |
| OeBdb.Query.ResetNItemsFound | corelib/OeStoreQuery.c:33-35 | the results are dropped |
| OeBdb.ComparatorIsRightIff | corelib/OeBdb.c:100-130 | the comparator, a 64-bit difference cut to int, orders every pair of keys of an interval rightly if and only if the interval holds at most 2^31 keys |
| OeBdb.OrderIsRight | corelib/OeBdb.c:116-130 | when expiries lie within 2^31 ms and lease ids within 2^31, the index, which the same comparator orders by both, is in order of expiry and then lease id |
| OeBdb.Store.LeaseReaper | corelib/OeBdb.c:1631-1724 | in the comparator's own order, for expiries within 2^31 ms: a pass is one step that deletes only unowned lapsed records; "more" means 99 or 100 were deleted, "done" that none from before now is left, provided an entry at or after now gave it a place to start |
| OeBdb.Store.ReapUntilDone | corelib/OEK_impl.c:27-37 | the driver loop ends, and no later get can tell |
| OeBdb.ReaperLeavesLapsed | corelib/OeBdb.c:1141-1143 | one put and one pass that says it is done and leaves the lapsed record |
| HolderCodec.Marshal | corelib/OeStoreHolder.c:48-116 | the buffer holds the stored form and is never overrun |
| HolderCodec.StoredBytes | corelib/OeStoreHolder.c:48-116 | words go lowest byte first, the locks are 0, 1 and 2, "for ever" is all ones, each attribute ends in a NUL |
| HolderCodec.Unmarshal | corelib/OeStoreHolder.c:133-172 | reads back any record from its stored form, whatever follows it |
| HolderCodec.MarshalRoundTrip | corelib/OeStoreHolder.c:48-172 | marshalling and unmarshalling give every record back |
| HolderCodec.PeeksSeeTheHolder | corelib/OeStoreHolder.c:174-196 | the peeks at fixed offsets, through which the index callbacks see a record, give its lease id, owner and expiry |
| Enlistment.Latch.Update | corelib/Oec_CountdownLatch.c:53-66 | the count moves by the value, the high-water mark by positive values only |
| Enlistment.Txn.Write | corelib/OesKernel_impl.c:116-123 | a put within a transaction is counted as under way |
| Enlistment.Txn.Take | corelib/OesKernel_impl.c:214-223 | a take within a transaction is counted as under way |
| Enlistment.Txn.Return | corelib/OesKernel_impl.c:59-81 | an answer lowers the latch by one and raises the mark by one for a put, by the results for a take |
| Enlistment.Txn.Expected | corelib/OesKernel_impl.c:385-387 | the count a commit sends |
| Enlistment.OwnedGrows | corelib/OeBdb.c:790-797 | what the store lists under an owner grows by exactly what each step enlists |
| Enlistment.AgreeRun | corelib/OesKernel_impl.c:142-182 | over every interleaving of requests, answers and other clients' steps, mark plus undelivered counts equal the store's list plus refused puts |
| Enlistment.CountCheckIsExact | corelib/OeBdb.c:872-876 | once nothing is under way the commit's count check passes if and only if no enlisted put was refused |
| Enlistment.RefusedPutSpoilsCommit | corelib/OesKernel_impl.c:59-81 | a put that is refused, and no commit of its transaction passes the count check |
| Enlistment.RefusedPutExample | corelib/OesKernel_impl.c:385-387 | such a transaction, started in an empty store |
| Dispatcher.InsertOrdered | corelib/set.c:75-93 | a new template keeps the snapshot of its set in bucket order, free of repetition |
| Dispatcher.InsertedAtHead | corelib/set.c:75-93 | a new template comes before all others of its bucket and after those of lower buckets |
| Dispatcher.BucketLaw | corelib/Oed_Dispatcher.c:610-614 | an id falls into the bucket of its low 32 bits modulo 509 |
| Dispatcher.HashLaw | corelib/oec_values.c:145-150 | the hash of a string is 0 or, one character longer, 127 times the hash before it plus the character, modulo 99000 |
| Dispatcher.HashStringKey | corelib/oec_values.c:145-155 | the loop computes that hash |
| Dispatcher.TestFields | corelib/Oed_Dispatcher.c:810-828 | the two loops accept a template exactly when each field but the one it is filed under equals a field of the object other than the one that found it, or is a wildcard and there is such a field |
| Dispatcher.Matcher.Detach | corelib/Oed_Dispatcher.c:92-136 | the template leaves the one set that holds it; its timeout handler runs only if it was there; its timer goes with it; the emptied set is dropped unless the first field filed it |
| Dispatcher.Matcher.RemoveGroup | corelib/Oed_Dispatcher.c:71-88 | all members leave the table, members after the first lose their handlers, and a timeout handler runs exactly if the first was filed |
| Dispatcher.Matcher.Timeout | corelib/Oed_Dispatcher.c:743-748 | the timeout handler runs exactly when the group is live and its first member filed; the group is removed, and with each template that leaves the table goes its timer |
| Dispatcher.Matcher.Match | corelib/Oed_Dispatcher.c:828-846 | a match runs the group's handler if it still has one, and removes the group |
| Dispatcher.Matcher.CreateGroup | corelib/Oed_Dispatcher.c:339-358 | fresh items for all members, nothing queued yet |
| Dispatcher.Matcher.SendNext | corelib/Oed_Dispatcher.c:359-364 | one more member is linked and queued, also when the group is gone already |
| Dispatcher.Matcher.ChooseKey | corelib/Oed_Dispatcher.c:702-725 | the chosen field is not a wildcard and no other such field has a smaller set |
| Dispatcher.Matcher.RegisterNext | corelib/Oed_Dispatcher.c:702-741 | the template is filed under its rarest field, or refused exactly when it has only wildcards; a timer is set if and only if the wait is finite |
| Dispatcher.Matcher.ProcessSet | corelib/Oed_Dispatcher.c:791-852 | how far the scan went: to the first consuming match, or to the end; each group's handler ran exactly as often as `FiresTwiceIff` says, and not at all for groups removed before |
| Dispatcher.Matcher.Process | corelib/Oed_Dispatcher.c:854-862 | a live group fires if and only if one of its matches has no consuming match before it (by field, then by place in the set), and twice if and only if its first member is reached after another in the first set that holds one; stops if and only if something consuming matches; the timers cleared are exactly those of the templates that leave the table |
| Dispatcher.StoreMatchIsFound | corelib/OEK_get.c:100-133 | a filed template that the store matches to the object is found by the scan if and only if it is a tuple, or the field it is filed under stands once in it or twice in the object, or a field of the same hash lets it in |
| Dispatcher.PlacedMatches | corelib/Oed_Dispatcher.c:796-826 | a template whose fields have distinct places in the object passes the scan's test at the place of the field it is filed under |
| Dispatcher.MapTestIff | corelib/Oed_Dispatcher.c:806-826 | at a given place a map template the store matches fails the scan's test if and only if the field that led there stands elsewhere in the template and only once in the object |
| Dispatcher.DistinctPairsAreFound | corelib/Oed_Dispatcher.c:806-826 | a map template without a repeated pair is found wherever the store matches it |
| Dispatcher.RepeatedPairs | corelib/Oed_Dispatcher.c:806-826 | a template that repeats a pair and is missed however it is filed, and one that is found when filed under another field |
| Dispatcher.WakesNobodyIff | corelib/Oed_Dispatcher.c:828-852 | an event wakes nobody if and only if no live template matches it, or the first consuming match is a leftover of a removed group and comes before all live ones |
| Dispatcher.WriteForOne | corelib/SKeyTable.c:11-26 | a get that waits for one field is woken by a write of another if and only if the two have the same hash |
| Dispatcher.SameHashWakes | corelib/SKeyTable.c:11-26 | a write of "axy" passes a take that waits for "abc"; one of "eovm" fires a take that waits for "a" |
| Dispatcher.LeftoverSwallowsWrite | corelib/Oed_Dispatcher.c:339-369 | from an empty matcher: a take is answered while its second template is still queued, after which that template, once filed, keeps a matching write from the read waiting for it |
| Dispatcher.GroupFiresAtMostOnce | corelib/Oed_Dispatcher.c:71-136 | in every state that registrations, matches and timeouts can reach, a group that consumes, or whose first member lies in an earlier bucket than the others, has fired at most once |
| Dispatcher.GroupFiresAtMostTwice | corelib/Oed_Dispatcher.c:71-136 | in every such state any group has fired at most twice, and twice exactly when some event reached its first member after another |
| Dispatcher.FiresTwiceIff | corelib/Oed_Dispatcher.c:803-846 | a scan of a set runs a live group's handler twice if and only if it matches another member before the first, once if it matches any otherwise, never more than twice |
| Dispatcher.ReadFiresTwice | corelib/Oed_Dispatcher.c:791-852 | from an empty matcher: a read of two equal templates is registered, and one matching write fires it twice |
| Kernel.FireAll | corelib/OEK_impl.c:39-46 | the events of a store step, one after the other: the matcher's state before, between and after them, each event with the exact outcome of its scan, and delivered to those it concerns |
| Kernel.OutcomeDelivers | corelib/Oed_Dispatcher.c:854-862 | a scan's outcome seen from the waiting client: woken, or a consumer that was woken or is a leftover came first |
| Kernel.UpdateTxn | corelib/OeBdb.c:1561-1567 | end to end: the store does exactly the one legal step or nothing; the matcher goes from its state before to its state after through one scan for each freed record, with that scan's exact outcome; for each record a commit or rollback frees, whoever waits for it by the store's own matching rule is woken by the end of its event, unless a consuming template that comes first took that very event; and whoever waits for more of them than there are consuming templates that come before it for one of the records it matches is woken |
| Kernel.Put | corelib/OeBdb.c:556-572 | end to end: the put succeeds exactly when its owner is active or it can be indexed, and is one legal step; the same then holds of the scan for a plainly put record, and a put under a transaction reaches nobody |
| Kernel.EventsWakeAll | corelib/OEK_impl.c:39-46 | for each freed record, at its own event: whoever waited for it when the step began has been woken by then, or the event stopped at a consuming template before all its matches, itself woken or a leftover of a removed group |
| Kernel.TakersDiffer | corelib/Oed_Dispatcher.c:841-846 | while a waiter is not woken, each event that concerns it is taken by a different consuming template, one that came before it for an event of its own when the step began |
| Kernel.EnoughForAll | corelib/OeBdb.c:1561-1567 | whoever is concerned by more events of a step than there are consuming templates that come before it for one of those very events is woken |
| Kernel.EventsServe | corelib/OeBdb.c:1561-1567 | whoever waits for more of the freed records than there are consuming templates that come before it for a record it matches is woken: n equal records wake n waiting takes, and takes of different records do not compete |
| Waiting.Get.Look | corelib/OEK_get.c:135-190 | one run of a get: the answer found, the refusal, "nothing" after a miss if and only if the deadline has come or, if-exists, the first of all templates asked for has no hit, and otherwise a new group of its templates; each run ends in exactly one of them |
| Waiting.Get.Search | corelib/OEK_get.c:167-175 | the retry loop ends with the store's own verdict, and the exists flag a miss leaves is told from the store |
| Waiting.Get.Register | corelib/OEK_get.c:100-133 | a miss that is not final registers one group of all templates |
| Waiting.Get.Wake | corelib/OEK_get.c:198-204 | each handler that ran schedules one more run |
| Waiting.BalanceKept | corelib/OEK_get.c:198-204 | whatever runs none of a get's handlers, adds groups and leaves templates as they are keeps the account of its runs and answers |
| Waiting.Ask | corelib/OEK_get.c:206-213 | a new get on the same store and matcher: every get's account holds |
| Waiting.LookTogether | corelib/OEK_get.c:135-190 | one get's run, with its registration, ends in an answer or a group and keeps every other get's account |
| Waiting.SendTogether | corelib/Oed_Dispatcher.c:359-364 | queueing the next template of any group keeps every get's account |
| Waiting.FileTogether | corelib/Oed_Dispatcher.c:702-741 | filing a template of any fields keeps every get's account; it is refused exactly when all fields are wildcards |
| Waiting.EventTogether | corelib/OEK_get.c:198-204 | a write schedules, for every get at once, as many runs as handlers of its groups ran, and answers nothing by itself |
| Waiting.TimerTogether | corelib/OEK_get.c:198-204 | the same for a timer |
| Waiting.AnswerBound | corelib/OEK_get.c:100-204 | over any sequence of runs, registrations, events and timeouts, of gets of any templates: answers and runs left are at most one more than the groups that fired twice |
| Waiting.AnsweredOnce | corelib/OEK_get.c:100-204 | a take, or a get of one template, is answered at most once |
| Waiting.ReadAnsweredTwice | corelib/OEK_get.c:198-204 | from an empty store and matcher: a read of two equal templates that one write has answered twice |
| Waiting.OwnedAreUnseen | corelib/OeBdb.c:1053-1064 | whether a get misses, and whether it then sees something to wait for, is the same as in the store without the records of transactions |
| Waiting.WaitsForAnother | corelib/OEK_get.c:118-120 | a get that misses and sees something to wait for has its record for the first template, and some later template has none |
| Waiting.IfExistsIgnoresWritten | corelib/OEK_get.c:118-120 | from an empty store: a transaction writes ["a"], and an if-exists get of ["a"] with time left is answered "nothing" at once |
| Waiting.UnfiledIsPassedOver | corelib/OEK_get.c:113-131 | an event processed before a get's templates are filed does not wake it |
| Waiting.WriteInTheGap | corelib/OEK_get.c:113-131 | from an empty store and matcher: a record written between miss and filing is found only when the timer goes off |
| Waiting.TimedOut | corelib/OEK_get.c:113-131 | from an empty store and matcher: a get that nothing matches is registered, timed out at its deadline and ends in exactly one answer, "nothing" |
| CJson.RoundTrip | corelib/cJSON.c:231-243 | parsing the printed form of any tree (32-bit integers, strings without unprintable control characters) gives the tree back, formatted or not, whatever follows |
| CJson.ValueRoundTrip | corelib/cJSON.c:245-275 | the same at any depth of indentation |
| CJson.ArrayRoundTrip | corelib/cJSON.c:278-354 | arrays are read back item for item |
| CJson.ObjectRoundTrip | corelib/cJSON.c:357-447 | objects are read back member for member, names included |
| CJson.StringRoundTrip | corelib/cJSON.c:136-215 | every escape the printer writes is read back |
| CJson.PlainQuote | corelib/cJSON.c:184-217 | text without quotes, backslashes and control characters is written as it stands between quotation marks |
| CJson.PrintableIff | corelib/cJSON.c:184-217 | which numbers and strings the round trip covers: all of 32 bits, and text with no control characters but the five that have an escape |
| CJson.NumberRoundTrip | corelib/cJSON.c:92-133 | integers are read back when no digit, point or exponent follows |
| CJson.PrintStringPtr | corelib/cJSON.c:184-215 | the printing loop writes the quoted, escaped string |
| CJson.ParseStringPtr | corelib/cJSON.c:136-181 | the parsing loop reads what the parser's definition reads, and stops where it stops |
| CJson.ReadDigits | corelib/cJSON.c:92-101 | the digit loop computes the value of the leading digits |
| JsonMsg.SerializePut | corelib/json_msg_factory.c:726-783 | the tree of a put command |
| JsonMsg.TreeRoundTrip | corelib/json_msg_factory.c:89-170 | creating from that tree gives the command back, attachment and attributes included |
| JsonMsg.PutSurvives | corelib/json_msg_factory.c:1278-1303 | a put command survives serialize, print, parse, telling its kind, and create |
| JsonMsg.CreatedIff | corelib/json_msg_factory.c:89-170 | a put message is accepted if and only if its numbers are numbers, its attachment is a string that decodes to something, and its values are strings and integers |
| JsonMsg.CaseIsIgnored | corelib/cJSON.c:452 | a member is found whatever the letter case of its name |
| JsonMsg.FindInFront | corelib/json_msg_factory.c:1168-1182 | the receiver's tests of "t" and "n" find "cmd" and "put" in every put |
| JsonMsg.PutText | corelib/json_msg_factory.c:726-783 | the text of the empty tuple's put, character by character |
| Framing.MemmemIsSearchIff | corelib/oec_values.c:28-41 | the function finds the first occurrence in every haystack if and only if the needle is one character or one character twice |
| Framing.MemmemMisses | corelib/oec_values.c:28-41 | for any other needle, a haystack searched in vain |
| Framing.PrintedTight | corelib/cJSON.c:392-447 | no printed tree contains an empty line, begins or ends with a newline |
| Framing.EndOfMessage | corelib/JsonNet.c:22-61 | in a message and its terminator the search finds the end of the message and nothing before it |
| Framing.Conn.ReadFrame | corelib/JsonNet.c:22-61 | a whole message is consumed, or nothing |
| Framing.Conn.ReadAll | corelib/JsonNet.c:22-61 | any concatenation of messages, with part of a next one, is split into exactly those messages |
| Framing.ReadTrees | corelib/JsonNet.c:92-116 | a stream of written trees is read back as exactly those trees in order |
| Base64.RoundTrip | corelib/modp_b64.c:79-118 | decode(encode(b)) is b for every byte string |
| Base64.Examples | corelib/modp_b64.c:79-118 | the texts of "f", "fo" and "foo" are those of the RFC's test vectors |
| Base64.AlphabetLaw | corelib/modp_b64_gen.c:36-46 | the alphabet is A to Z, a to z, 0 to 9, + and / |
| Base64.Encode | corelib/modp_b64.c:79-118 | writes exactly the encoding of length 4*ceil(n/3) and a terminator |
| Base64.Decode | corelib/modp_b64.c:191-267 | fails exactly on bad length, misplaced padding or a foreign character, otherwise writes exactly the decoded bytes; the overlapping 4-byte stores stay inside the promised buffer |
| Base64.DecodeChunks | corelib/modp_b64.c:215-229 | the loop over whole groups, each store overwritten by the next |
| Base64.GroupBad | corelib/modp_b64_gen.c:137-167 | the or of the four table entries shows a foreign character exactly when there is one |
| Base64.GroupRoundTrip | corelib/modp_b64_gen.c:84-95 | encoding and decoding tables undo each other on a group |
| Buckets.OneChainIsEnough | corelib/set.c:64-74 | an equal entry is in the one chain its hash selects, or nowhere |
| Buckets.EntriesAreUnique | corelib/set.c:75-93 | no two entries of the buckets have equal keys |
| Buckets.CountIsTotal | corelib/set.c:112-115 | the length kept is the number of entries |
| Buckets.Prepended | corelib/set.c:84-89 | linking a new entry adds it and nothing else |
| Buckets.Replaced | corelib/set.c:90-91 | overwriting an entry replaces the one with the equal key |
| Buckets.Unlinked | corelib/set.c:94-111 | unlinking removes the one entry with that key |
| Buckets.SizeFor | corelib/set.c:47-54 | the largest prime of the table below the hint, 509 at least |
| HashSet.Set.Member | corelib/set.c:64-74 | whether the set holds an equal member |
| HashSet.Set.Put | corelib/set.c:75-93 | the member takes the place of an equal one, or is added |
| HashSet.Set.Remove | corelib/set.c:94-111 | the equal member goes and is returned, or nothing changes |
| HashSet.Set.Length | corelib/set.c:112-115 | the cardinality of the set |
| HashSet.Set.ToArray | corelib/set.c:143-154 | every member exactly once |
| HashSet.Copy | corelib/set.c:21-41 | a fresh set of the same members |
| HashSet.Union | corelib/set.c:155-172 | a fresh set that holds what either holds, for any equivalence the hash respects; arguments untouched |
| HashSet.Inter | corelib/set.c:173-203 | a fresh set that holds what both hold; the swap of arguments ends |
| HashSet.Minus | corelib/set.c:204-232 | a fresh set that holds what the first holds and the second does not |
| HashSet.Diff | corelib/set.c:233-278 | a fresh set that holds what exactly one of them holds |
| HashSet.ChosenHolds | corelib/set.c:185-200 | selecting representatives selects whole classes of equal members |
| HashTable.Table.Get | corelib/arenatable.c:46-56 | the value bound to an equal key, or none |
| HashTable.Table.Put | corelib/arenatable.c:57-83 | the key, or the equal key there already, is bound to the value; the previous value is returned |
| HashTable.Table.Remove | corelib/arenatable.c:103-122 | the binding of the equal key goes, and its value is returned |
| HashTable.Table.ToArray | corelib/arenatable.c:123-142 | every binding exactly once |
| HashTable.Table.Length | corelib/arenatable.c:84-87 | the number of bindings, whose keys all differ |
| HashTable.LookupAfterPut | corelib/arenatable.c:57-83 | lookups after a put: the new value for equal keys, the old answer for all others |
| HashTable.LookupAfterRemove | corelib/arenatable.c:103-122 | lookups after a removal: none for equal keys, the old answer for all others |
| HashTable.AnswerIsUnique | corelib/arenatable.c:46-56 | a lookup has one answer |
| Arena.Allocator.New | corelib/arena.c:76-83 | an empty arena beside the others |
| Arena.Allocator.Alloc | corelib/arena.c:90-124 | the block is new, aligned, of the rounded size and disjoint from all live blocks of all arenas, whose contents are untouched; failure only when malloc fails |
| Arena.Allocator.MakeRoom | corelib/arena.c:96-121 | the loop ends even when reused chunks are too small |
| Arena.Allocator.Free | corelib/arena.c:133-151 | the arena is empty and the closing assertions hold; every other arena's blocks and their contents are untouched; the free list takes its chunks until it holds 10, and the counter is its length |
| Arena.Allocator.Release | corelib/arena.c:135-148 | one chunk goes to the free list or back to malloc, never to two places |
| Arena.Allocator.Write | corelib/arena.c:117-123 | a client's store into its own block disturbs no record and no list |
| Arena.AdoptSound | corelib/arena.c:117-120 | saving the arena's record in a chunk keeps all lists, records and blocks |
| Arena.BlocksKept | corelib/arena.c:118-118 | a record never reaches into a block when the header has room for it |
| Arena.ShallowHeaderBreaksFree | corelib/arena.c:70-73 | when it has not, one allocation, one store into it and a free break the closing assertion, for every such geometry |

## Left out

- Berkeley DB itself: cursors, snapshot conflicts, the deadlock watchdog, durability levels and page layout; a call is one atomic step, and a deadlock is a flag the caller of the model sets.
- The `reaper_running` flag, and the retry loops around `PLEASE_RETRY` other than that of a get: a pass and a call are one step each, and a failed call has no effect.
- OeBdb.Store.LeaseReaper: what Berkeley DB makes of an index whose comparator is not an order, that is of expiries 2^31 ms, or lease ids 2^31, or more apart.
- OeBdb.Store.FinishRecords: looks owners up by equality, which the comparator of the owner index tells rightly for transaction ids less than 2^31 apart.
- Waiting.Get: a request that is never answered because its template list is empty is counted as silent; the lifetime of its context, freed after the first answer, is not captured.
- Dispatcher.GroupFiresAtMostOnce: holds under the condition in its row, since the code lets the first member keep its handlers; the exact condition for one event is in `Dispatcher.Matcher.Process`.
- Kernel.FireAll: events are processed right after the step that fires them; templates registered between the two are those the matcher holds when it runs.
- Dispatcher.Matcher.Process: template sets are listed by bucket as `Set_toArray` lists them; items are values with an identity, not heap blocks, so use after free of a listed item is not captured.
- Dispatcher.HashStringKey: characters are taken as numbers from 0 up; a C char that is negative is not captured.
- `Oed_Dispatcher_reg` with a single template and `Oed_Dispatcher_unreg`, which removes nothing because its item has no set.
- CJson.RoundTrip: the recursive descent is modelled by functions on text; in-place linking of nodes is not captured, nor are fractions, exponents, `\u` escapes and malformed or truncated text. The loops over characters and digits are methods.
- JsonMsg.PutSurvives: only the put command; a get response does not survive, since create reads another member as the destroyed flag and leaves the attachment encoded.
- HolderCodec.Unmarshal: bytes are those of a little-endian machine with 64-bit ids and 4-byte int.
- Base64.Decode: the little-endian branch only.
- HashSet.Set.Put and HashTable.Table.Put: a chain is a sequence, so relinking of its nodes, `Set_map` and `Set_free` are not captured.
- Arena.Allocator.Alloc: addresses are unbounded, `sizeof (union align)` is a multiple of the pointer size, and arena structs live outside the chunks.
- Oec_CountdownLatch: waiting and time-outs; `Enlistment` speaks of states in which nothing is under way.
- JCL, sockets, TLS, login, logging, signal handling, futures, and the node, java, php and swig bindings.
