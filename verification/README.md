# Verification of the database service's queue, SQL mapping, formatter and tracer

A Dafny model of the parts of the service where correctness is hardest to see, with proofs of what they
promise. `dafny verify dfyconfig.toml` checks everything.

| Component | Modules |
|---|---|
| Lock-free queue, implicit producers | `CircularIndex`, `Dequeue`, `FreeList`, `BlockIndex`, `BlockLife`, `ProducerHash` |
| Lightweight semaphore and blocking queue | `BlockingQueue` |
| Command queue and trunk queue of the service | `ExecQueue` |
| Row decoding and statement building | `Rows`, `Sql`, `SqlFit`, `SqlOrigin` |
| Formatter and copy | `PrintfInt`, `Printf`, `Memcpy` |
| dbug tracer | `DbugList`, `DbugControl`, `DbugExplain`, `DbugTrace` |
| dbug profile analyzer | `ProfileBooks`, `ProfileTree`, `ProfileReplay`, `Profile` |
| URL codec | `UrlCode` |

`ModArith` holds facts about remainders.

The concurrent protocols are interleaving machines: a state, one action for each atomic access, and runs
that are any sequences of enabled actions of any number of threads. Each has an invariant, a lemma that
every action keeps it, and theorems about every state of every run. State that no step reads is kept as
history and named as such at the head of the module. The protocols meet at stated interfaces: `Dequeue`
justifies that a claim stays below the tail, which `BlockIndex` and `BlockLife` use as one action;
`BlockIndex.LookupCorrect` is the lookup of `BlockLife`; `FreeList` is its free list; and
`BlockLife.ClearAllowed` discharges the condition `BlockIndex` puts on clearing an entry.

The sequential code is imperative: methods with the source's loops over arrays, buffers and class fields,
each tied to a specification about which the properties are proved.

Where the code does not do what its documentation or its callers expect, the model follows the code:

- `%ld`, `%li`, `%lu`, `%lld`, `%lli` and `%llu` of 0 advance the format over the first letter only, so the
  rest of the conversion is printed (`Printf.LongZero`); and fmtint counts separators twice when the precision
  exceeds the digits, so that it can miss its width (`Printf.IntTextLength`).
- A message field without a result column gets its default in the first row, and another field's column or an
  exception in every later one (`Rows.AgreeIffCovered`).
- Keys given in another order than the entity's fields are bound to the wrong placeholders of INSERT,
  UPDATE and DELETE (`Sql.OrderFails`; exactly when: `Sql.UpdateAligned`, `Sql.InsertAligned`,
  `Sql.DeleteAligned`).  A SELECT is misaligned by a key given twice, a key that names a message or a field
  without a binder, and a nested leaf with the name of a key (`Sql.SelectFails`; exactly when:
  `Sql.SelectAligned`, `SqlOrigin.SelectBinds`).  A statement too long for its buffer is cut and can lose
  placeholders (`SqlFit.WhereCut`, `SqlFit.InsertFitting`).
- The promise of a synchronous call is captured by a reference to the caller's local pointer, and the caller
  can return while `set_value` is still at work (`ExecQueue.CallerCanBeGone`).
- `waitMany(0)` without a timeout returns 0 and fails its own assertion (`BlockingQueue.ResultInRange`).
- The comment on ListCopy that the order of a list is not significant does not hold for patterns that overlap
  (`DbugList.CopyCanFlip`; exactly when: `DbugList.CopyReadsSame`).
- A relative dbug control string that names no function is not followed by a re-scan, though the depth, the
  process list or a copy of the list may have changed what the rules say; exactly when that leaves a stale bit:
  `DbugTrace.CodeState.StaysInSync`.  The exit of `FixTraceFlags` at its third check is exact only for frames
  that have the default (`DbugTrace.CodeState.EarlyExitExact`).

## Model

| member | source | states |
|---|---|---|
| CircularIndex.CircularLessThanExactly | src/base/concurrent/concurrentqueue.h:398-409 | on the words of any two counters the comparison holds exactly when the second is ahead of the first by less than half the range, around the circle |
| CircularIndex.CircularLessThanAgrees | src/base/concurrent/concurrentqueue.h:398-409 | for counters less than half the range apart it is the order of the unbounded counters |
| CircularIndex.CircularLessThanStops | src/base/concurrent/concurrentqueue.h:398-409 | half the range is sharp: at that distance it says no |
| CircularIndex.DesiredAgrees | src/base/concurrent/concurrentqueue.h:2690-2703 | the wrapped difference tail - (optimistic - overcommit) tested against zero is the test, and then the value, on the counters |
| CircularIndex.SlotWordAgrees | src/base/concurrent/concurrentqueue.h:2857-2867 | the wrapped, sign-preserving slot arithmetic of the block lookup yields the slot of the unbounded block numbers, forwards and backwards |
| Dequeue.ActionKeepsInv | src/base/concurrent/concurrentqueue.h:2466-2535 | every atomic action of single and bulk dequeues and of the producer, in any interleaving, keeps the invariant tying tickets, overcommit, claims and the two indices |
| Dequeue.WinsBound | src/base/concurrent/concurrentqueue.h:1894-1921 | the ticket argument: the successes are at most the tail, since the largest successful ticket has its overcommit's worth of failed ones below it |
| Dequeue.Safety | src/base/concurrent/concurrentqueue.h:2688-2735 | in every reachable state headIndex <= tailIndex, the index ranges claimed are pairwise disjoint and hold enqueued indices only, and the source's assertion overcommit <= myDequeueCount holds |
| Dequeue.NoElementTwice | src/base/concurrent/concurrentqueue.h:2466-2535 | two consumers that have returned never hold the same element |
| Dequeue.QuietBalance | src/base/concurrent/concurrentqueue.h:1878-1974 | whenever no consumer is mid-call, optimisticCount - overcommit is exactly headIndex |
| Dequeue.LoneDequeue | src/base/concurrent/concurrentqueue.h:2688-2788 | a dequeue of up to max that meets no other consumer, while the producer goes on enqueuing, takes at least min(max, size at the call) and at most min(max, size at its end) elements from the head; it fails only on a sub-queue that was empty at the call, and exactly then if nothing is enqueued meanwhile |
| Dequeue.WaitFree | src/base/concurrent/concurrentqueue.h:1878-1974 | in every reachable state a consumer in a call has a step to take, seven of its own steps at most bring it back, and no step of another moves it |
| FreeList.ActionKeepsInv | src/base/concurrent/concurrentqueue.h:1367-1446 | every atomic action of add, try_get and add_knowing_refcount_is_zero keeps the invariant on list, reference words and the places of every node |
| FreeList.Safety | src/base/concurrent/concurrentqueue.h:1381-1446 | in every reachable state the links from the head visit each node at most once, the source's assertion on SHOULD_BE_ON_FREELIST holds, and the low 31 bits of every reference word count its holders exactly |
| FreeList.LinkStable | src/base/concurrent/concurrentqueue.h:1395-1398 | freeListNext of a node does not change while any thread holds a reference to it |
| FreeList.NeverStuck | src/base/concurrent/concurrentqueue.h:1367-1446 | in every reachable state a thread inside a call has a step to take |
| FreeList.LentIsOut | src/base/concurrent/concurrentqueue.h:1367-1418 | a node is out with a client exactly when the calls so far say so |
| FreeList.NoDoubleGet | src/base/concurrent/concurrentqueue.h:1381-1418 | a node is never handed to two getters without an add in between |
| FreeList.NoneLost | src/base/concurrent/concurrentqueue.h:1424-1446 | an added node is on the list, or in the care of exactly one thread, or has references out of which the last to be returned must link it |
| FreeList.QuietListComplete | src/base/concurrent/concurrentqueue.h:1367-1446 | when every call has returned, the list holds exactly the nodes no client has |
| BlockIndex.LookupSlot | src/base/concurrent/concurrentqueue.h:2851-2868 | the slot computed from the tail's key is the slot of the block looked for, in the current or an older header |
| BlockIndex.ActionKeepsInv | src/base/concurrent/concurrentqueue.h:2809-2909 | insertion, rewinding, doubling, lookups and clearing, one atomic access at a time, keep the invariant on all headers ever published |
| BlockIndex.LookupCorrect | src/base/concurrent/concurrentqueue.h:2851-2868 | in every reachable state a consumer's slot, through whichever header it loaded, points at the entry whose key is its element's block and whose value is that block: both assertions of the lookup |
| BlockIndex.LookupNeverStuck | src/base/concurrent/concurrentqueue.h:2857-2860 | the tail's key is never INVALID_BLOCK_BASE when a consumer reads it |
| BlockIndex.ClearedOnce | src/base/concurrent/concurrentqueue.h:2735-2775 | no block's entry is cleared twice |
| BlockLife.ActionKeepsInv | src/base/concurrent/concurrentqueue.h:2402-2535 | requisition, filling, claiming, moving out, counting, clearing and release, in any interleaving with other producers' use of the pools, keep the invariant |
| BlockLife.Delivery | src/base/concurrent/concurrentqueue.h:2466-2535 | the element moved out of index i is the i-th enqueued, taken by the thread that claimed i, and i had not been delivered before |
| BlockLife.HistoryGrows | src/base/concurrent/concurrentqueue.h:2466-2535 | what was enqueued, claimed, delivered or released stays so in every later state: each element at most once, each release for good |
| BlockLife.NeverStuck | src/base/concurrent/concurrentqueue.h:2478-2500 | a consumer in a call finds the block of its next element and the element in it |
| BlockLife.QuietDelivered | src/base/concurrent/concurrentqueue.h:2688-2788 | with all consumers idle exactly the indices below headIndex have been delivered, each with its own element |
| BlockLife.ReleaseSafe | src/base/concurrent/concurrentqueue.h:1505-1545 | a block is released by the one thread that completed it, after all BLOCK_SIZE elements were moved out, while it is in no other place |
| BlockLife.OneOwner | src/base/concurrent/concurrentqueue.h:2957-3009 | no block is in two of: initial pool, free list, another producer's hands, this producer's hand, in use at a block number |
| BlockLife.ClearAllowed | src/base/concurrent/concurrentqueue.h:2506-2517 | the condition under which the block index model lets an entry be cleared holds whenever a consumer is about to clear one |
| BlockingQueue.ActionKeepsInv | src/base/concurrent/blockingconcurrentqueue.h:260-405 | every atomic access of wait, waitMany, the timeout repair loop and signal, and every use of the inner queue, keeps the accounting |
| BlockingQueue.WaitersAccounted | src/base/concurrent/blockingconcurrentqueue.h:273-296 | max(0, -m_count) + kernel count + promised posts = unresolved slow-path waiters, in every reachable state |
| BlockingQueue.NeverOverdrawn | src/base/concurrent/blockingconcurrentqueue.h:299-340 | acquisitions never exceed the initial count plus the signals, and the difference is exactly what is in m_count, in the kernel semaphore or promised to it |
| BlockingQueue.ResultInRange | src/base/concurrent/blockingconcurrentqueue.h:365-394 | no call acquires more than max; an untimed wait returns at least 1 if and only if max > 0 (for max = 0 the source's assertion fails) |
| BlockingQueue.NoLostWakeup | src/base/concurrent/blockingconcurrentqueue.h:396-405 | with no signaller mid-call, a waiter lacks a kernel permit if and only if m_count is negative, and then no permit is free |
| BlockingQueue.RepairHasHelp | src/base/concurrent/blockingconcurrentqueue.h:284-296 | a timed-out waiter that finds m_count >= 0 and no kernel permit can point to a signaller that still owes a post |
| BlockingQueue.HolderFindsElement | src/base/concurrent/blockingconcurrentqueue.h:690-699 | a thread holding unspent permits finds that many unclaimed elements in the inner queue, in every reachable state |
| BlockingQueue.ElementsCoverPermits | src/base/concurrent/blockingconcurrentqueue.h:533-540 | unclaimed elements = permits free, in the kernel or promised + permits held + enqueued but not yet signalled |
| BlockingQueue.QuietCount | src/base/concurrent/blockingconcurrentqueue.h:771-780 | when nobody is in a call, m_count is the number of elements in the queue |
| ProducerHash.ActionKeepsInv | src/base/concurrent/concurrentqueue.h:3285-3433 | every access of lookup, migration, insertion and resizing keeps the invariant on all tables of the chain |
| ProducerHash.FreeSlot | src/base/concurrent/concurrentqueue.h:3371-3391 | a table always has a free slot, since its keys have different tickets, all below three quarters of its capacity |
| ProducerHash.EmptyMeansAbsent | src/base/concurrent/concurrentqueue.h:3305-3350 | a search that meets an empty slot has not missed an entry |
| ProducerHash.AlwaysRoom | src/base/concurrent/concurrentqueue.h:3308-3309 | in every reachable state, under concurrent inserts, resizes and migrations, every table of the chain has a free slot |
| ProducerHash.ProbingEnds | src/base/concurrent/concurrentqueue.h:3307-3352 | no search, migration or insertion ever passes as many slots as its table has |
| ProducerHash.SameProducer | src/base/concurrent/concurrentqueue.h:3285-3433 | a thread that was given a producer is given the same one every later time |
| ProducerHash.PublishesNext | src/base/concurrent/concurrentqueue.h:3357-3391 | only the latest table is extended, by one thread at a time |
| DbugList.ListAddDel | thirdparty/mysql-connector-c-6.1.10-src/dbug/dbug.c:1610-1663 | the in-place scan of the control text and of the list amounts to adding or deleting its names one after the other |
| DbugList.AddDelSpec | thirdparty/mysql-connector-c-6.1.10-src/dbug/dbug.c:1590-1606 | one name: an included name is added or adjusted, an excluded one is removed or marked, every other name keeps its entry, and the list stays good |
| DbugList.ListAddDelGood | thirdparty/mysql-connector-c-6.1.10-src/dbug/dbug.c:1610-1663 | whatever the text, names stay unique and each entry is exactly one of INCLUDE and EXCLUDE |
| DbugList.ListCopy | thirdparty/mysql-connector-c-6.1.10-src/dbug/dbug.c:1688-1707 | the copy has the links in reverse order |
| DbugList.CopyMeansSame | thirdparty/mysql-connector-c-6.1.10-src/dbug/dbug.c:1683-1687 | the copy has the same entry under every name |
| DbugList.SearchList | thirdparty/mysql-connector-c-6.1.10-src/dbug/dbug.c:1730-1744 | the loop returns the flags InList describes, collecting MATCHED, NOT_MATCHED and SUBDIR on the way |
| DbugList.InListFirst | thirdparty/mysql-connector-c-6.1.10-src/dbug/dbug.c:1730-1744 | those are the flags of the first entry that matches; when none does, whether all entries are excluded, and SUBDIR when an entry has it and only excluded ones follow |
| DbugList.InListReversed | thirdparty/mysql-connector-c-6.1.10-src/dbug/dbug.c:1688-1744 | in a copy the last entry that matches decides |
| DbugList.CopyReadsSame | thirdparty/mysql-connector-c-6.1.10-src/dbug/dbug.c:1683-1744 | a copy reads as its original for a name if and only if the first and the last matching entry carry the same flags, or nothing matches and SUBDIR is kept from both ends or from neither |
| DbugList.CopyCanFlip | thirdparty/mysql-connector-c-6.1.10-src/dbug/dbug.c:1683-1687 | the order is significant after all: with foo excluded and then f* included, a copy includes foo and the original does not |
| DbugControl.StrTok | thirdparty/mysql-connector-c-6.1.10-src/dbug/dbug.c:2267-2273 | the next field separator, past double colons and colons before a slash or backslash |
| DbugControl.AtoiDecimal | thirdparty/mysql-connector-c-6.1.10-src/dbug/dbug.c:1056-1060 | atoi reads back every number that is printed |
| DbugControl.DbugParse | thirdparty/mysql-connector-c-6.1.10-src/dbug/dbug.c:481-754 | the settings after any control string are the fold of its fields over the start settings, and the result says whether the functions may have changed |
| DbugExplain.Explain | thirdparty/mysql-connector-c-6.1.10-src/dbug/dbug.c:1106-1146 | character by character into the buffer, leaving at the one that reaches the limit: the terminated text, or as much as fits before three dots, and nothing behind the buffer |
| DbugExplain.CanonMeansSame | thirdparty/mysql-connector-c-6.1.10-src/dbug/dbug.c:1088-1103 | a list printed as included, then excluded names comes back with the same entry under every name |
| DbugExplain.FieldUnsplit | thirdparty/mysql-connector-c-6.1.10-src/dbug/dbug.c:2267-2273 | a field as the tokenizer cuts it out, with its double colons and colons before a slash, would be taken whole again |
| DbugExplain.ExplainRoundTrip | thirdparty/mysql-connector-c-6.1.10-src/dbug/dbug.c:1106-1146 | parsing the control string printed for any settings that parsing can produce, names with double colons included, restores the three lists as maps from names to flags, the numbers and every printed flag, for output on stderr and sub_level 0 |
| DbugExplain.ParsedGood | thirdparty/mysql-connector-c-6.1.10-src/dbug/dbug.c:481-754 | every settings made by parsing is good, whatever the control string: unique names that the tokenizer keeps whole, one kind each, DEBUG_ON with any keyword, TRACE_ON just when the depth is not 0 |
| DbugTrace.CodeState.FixHelper | thirdparty/mysql-connector-c-6.1.10-src/dbug/dbug.c:761-783 | the recursion sets the bit of each frame as the rules applied from the outermost frame say |
| DbugTrace.CodeState.FixTraceFlags | thirdparty/mysql-connector-c-6.1.10-src/dbug/dbug.c:787-857 | every exit but that of the third check leaves the frames exactly as the full re-scan would |
| DbugTrace.CodeState.EarlyExitExact | thirdparty/mysql-connector-c-6.1.10-src/dbug/dbug.c:810-819 | the third check's exit is exact if and only if every frame's bit has the default |
| DbugTrace.CodeState.Enter | thirdparty/mysql-connector-c-6.1.10-src/dbug/dbug.c:1210-1258 | entering a function keeps the default in every frame while no rule has SUBDIR, and keeps frames in sync with a re-scan |
| DbugTrace.CodeState.Return | thirdparty/mysql-connector-c-6.1.10-src/dbug/dbug.c:1280-1320 | so does returning from it |
| DbugTrace.CodeState.Control | thirdparty/mysql-connector-c-6.1.10-src/dbug/dbug.c:878-935 | set and push: when the list of functions may have changed, all frames end up as a full re-scan would leave them, whatever early exit was taken; otherwise they stay, and frames in sync remain so if and only if they are undisturbed |
| DbugTrace.CodeState.Pop | thirdparty/mysql-connector-c-6.1.10-src/dbug/dbug.c:990-1012 | and so after a pop |
| DbugTrace.CodeState.SettledInSync | thirdparty/mysql-connector-c-6.1.10-src/dbug/dbug.c:787-857 | without a SUBDIR rule the frames are in sync in every state |
| DbugTrace.CodeState.StaysInSync | thirdparty/mysql-connector-c-6.1.10-src/dbug/dbug.c:761-783 | frames in sync stay in sync under changed settings, without a re-scan, if and only if for every frame the old and the new SUBDIR rule give the same bit: both absent, equal, or the one there saying what is inherited |
| DbugTrace.CodeState.SameListUndisturbed | thirdparty/mysql-connector-c-6.1.10-src/dbug/dbug.c:697-754 | with the same list of functions: if and only if every SUBDIR rule that depth or process begins or ceases to apply says what its frame inherits |
| DbugTrace.CodeState.ReversedListUndisturbed | thirdparty/mysql-connector-c-6.1.10-src/dbug/dbug.c:530-548 | with the reversed copy made on a push over the global settings: the same condition between the first match before and the last match now |
| DbugTrace.CodeState.DepthLeavesStaleBit | thirdparty/mysql-connector-c-6.1.10-src/dbug/dbug.c:697-713 | "+t,1" while a function listed as "f/" runs at level 2 leaves a stale bit |
| DbugTrace.CodeState.ProcessLeavesStaleBit | thirdparty/mysql-connector-c-6.1.10-src/dbug/dbug.c:682-696 | so does "+p,x" in any other process |
| DbugTrace.CodeState.CopyLeavesStaleBit | thirdparty/mysql-connector-c-6.1.10-src/dbug/dbug.c:530-548 | and "+n" pushed on global settings that exclude f before a pattern includes it |
| ProfileBooks.ExitBalanced | thirdparty/mysql-connector-c-6.1.10-src/dbug/dbug_analyze.c:327-364 | an exit record keeps tot_time = dummy's time + children times on the stack, tot_time = sum of m_time, tot_calls = sum of m_calls |
| ProfileBooks.ExitTimely | thirdparty/mysql-connector-c-6.1.10-src/dbug/dbug_analyze.c:336-352 | with stamps that do not decrease no function's time and no total ever goes down |
| ProfileBooks.TotalsFit | thirdparty/mysql-connector-c-6.1.10-src/dbug/dbug_analyze.c:336-352 | and none exceeds the last stamp, so nothing wraps |
| ProfileTree.GrowSorted | thirdparty/mysql-connector-c-6.1.10-src/dbug/dbug_analyze.c:250-293 | a name hung where its search ended is in its place in the in-order listing |
| ProfileTree.GrowTable | thirdparty/mysql-connector-c-6.1.10-src/dbug/dbug_analyze.c:233-296 | add keeps a search tree that lists every name once, in increasing order |
| ProfileTree.AbsentMeansNew | thirdparty/mysql-connector-c-6.1.10-src/dbug/dbug_analyze.c:250-293 | a search that ends at a missing child means the name is not in the table |
| ProfileReplay.ReplayAgrees | thirdparty/mysql-connector-c-6.1.10-src/dbug/dbug_analyze.c:302-418 | after any records the functions known are those named, in order of appearance, the stack holds those entered and not exited, and the calls of each with its open entries are the times it was entered or exited without having been |
| ProfileReplay.ExitTally | thirdparty/mysql-connector-c-6.1.10-src/dbug/dbug_analyze.c:327-364 | an exit closes the entries down to its function's innermost one, each charged one call, and counts one more call exactly when the function was not open |
| ProfileReplay.ReplayFits | thirdparty/mysql-connector-c-6.1.10-src/dbug/dbug_analyze.c:129-147 | the analyzer gives up exactly on traces that at some point have more than 100 functions open or more than 10000 seen |
| Profile.Analyzer.Push | thirdparty/mysql-connector-c-6.1.10-src/dbug/dbug_analyze.c:129-147 | an entry is pushed, or the stack of 100 is full |
| Profile.Analyzer.Pop | thirdparty/mysql-connector-c-6.1.10-src/dbug/dbug_analyze.c:155-176 | the top entry, or false with the dummy left |
| Profile.Analyzer.Add | thirdparty/mysql-connector-c-6.1.10-src/dbug/dbug_analyze.c:233-296 | the index of the name, entered at the end of the arrays when it is new; fails only when the 10000 are used up; the tree invariant is kept |
| Profile.Analyzer.ExitRecord | thirdparty/mysql-connector-c-6.1.10-src/dbug/dbug_analyze.c:327-364 | the array code closes exactly the entries down to the function's own, or charges the dummy |
| Profile.Analyzer.Finish | thirdparty/mysql-connector-c-6.1.10-src/dbug/dbug_analyze.c:402-416 | at the end of the file every open entry is closed at the last stamp |
| Profile.Analyzer.StackRecord | thirdparty/mysql-connector-c-6.1.10-src/dbug/dbug_analyze.c:365-390 | largest stack use and extent of the stack |
| Profile.Analyzer.Process | thirdparty/mysql-connector-c-6.1.10-src/dbug/dbug_analyze.c:302-418 | the final books are those of the replay closed at the last stamp; it fails exactly on traces beyond the limits; each function's calls are its entries and unmatched exits and tot_calls is their number; the books balance and the tree is in order; with ordered stamps every time is non-negative and the total is at most the last stamp |
| Profile.Analyzer.OutBody | thirdparty/mysql-connector-c-6.1.10-src/dbug/dbug_analyze.c:515-538 | the traversal lists a subtree in order with the sums of what it lists |
| Profile.Analyzer.Output | thirdparty/mysql-connector-c-6.1.10-src/dbug/dbug_analyze.c:544-560 | every function once, by strictly increasing name, with printed sums equal to tot_calls and tot_time |
| Rows.AddFirstReturnRecord | src/db/Protobuf2DbEngine.cpp:950-1138 | the first row is decoded by name, and arrIndex holds the columns in traversal order with one more slot after each sub-message; nothing else of it changes |
| Rows.AddReturnRecord | src/db/Protobuf2DbEngine.cpp:1145-1261 | a later row is decoded by those slots; it raises exactly when a slot that is used holds no column |
| Rows.CachedIsByName | src/db/Protobuf2DbEngine.cpp:1145-1261 | both decoders give the same record for every row, for any nested schema whose handled leaves name columns |
| Rows.AgreeIffCovered | src/db/Protobuf2DbEngine.cpp:950-1138 | that condition is exact: they agree on a row, whatever the driver yields, if and only if every handled leaf names a column |
| Rows.Redecode | src/db/Protobuf2DbEngine.cpp:625-634 | decoding into a record that holds an earlier row gives what decoding into the original gives |
| Rows.ParseEntityResult | src/db/Protobuf2DbEngine.cpp:612-635 | the first result is the first row by name, every later one its row by the cached columns decoded over the one before, and the second row raises if and only if a leaf has no column to read; when every leaf names a column each result is its own row decoded by name into the record given, although one record is reused; the cache of 256 takes one entry per slot |
| Rows.ParseProcResult | src/db/Protobuf2DbEngine.cpp:831-848 | the same with a new message for every row |
| Sql.ZdbStatement.PrepareSelect | src/db/ZdbConnectionPoolSession.cpp:160-193 | _sql gets the text of the SELECT, cut to its 4096 characters, and the number of its placeholders; the clause is built in a buffer of 4096, which callers must not overrun |
| Sql.ZdbStatement.PrepareInsert | src/db/ZdbConnectionPoolSession.cpp:217-320 | the same for the INSERT with its three clause buffers |
| Sql.ZdbStatement.PrepareUpdate | src/db/ZdbConnectionPoolSession.cpp:344-397 | the same for the UPDATE |
| Sql.ZdbStatement.PrepareDelete | src/db/ZdbConnectionPoolSession.cpp:421-454 | the same for the DELETE |
| Sql.ZdbStatement.PrepareStoredProcCall | src/db/ZdbConnectionPoolSession.cpp:478-501 | the text of the CALL, built in _sql itself, which callers must not overrun |
| Sql.ZdbStatement.AddOneInputParam | src/db/Protobuf2DbEngine.cpp:855-943 | a bindable value goes to the next placeholder, another type is passed over |
| Sql.WherePlaceholders | src/db/ZdbConnectionPoolSession.cpp:160-193 | read back from the text, the placeholders of a SELECT or DELETE are compared with the keys, in order |
| SqlFit.WhereCut | src/db/ZdbConnectionPoolSession.cpp:188-193 | a statement with keys that is longer than _sql loses a placeholder, so it has fewer than it has columns and keys |
| Sql.UpdatePlaceholders | src/db/ZdbConnectionPoolSession.cpp:344-397 | those of an UPDATE are assigned to the columns set, then compared with the keys |
| Sql.InsertPlaceholders | src/db/ZdbConnectionPoolSession.cpp:217-320 | those of an INSERT stand for the keys, then the columns set, one each, and the duplicate clause has none |
| Sql.CallPlaceholders | src/db/ZdbConnectionPoolSession.cpp:478-501 | a CALL has the number of placeholders asked for |
| Sql.CollectEntityInputParams | src/db/Protobuf2DbEngine.cpp:327-388 | key and set parameters are the present leaves with a wanted name, in depth-first order |
| Sql.CollectEntitySetFields | src/db/Protobuf2DbEngine.cpp:395-440 | the set columns are the names of the present leaves that are not keys, in the same order |
| Sql.CollectProcInputParams | src/db/Protobuf2DbEngine.cpp:642-680 | all present leaves in depth-first order |
| Sql.ParseProcParamsCount | src/db/Protobuf2DbEngine.cpp:761-808 | counts as many parameters as are bound of those CollectProcInputParams collects, whatever their types |
| Sql.ParseSelect | src/db/Protobuf2DbEngine.cpp:447-485 | text and bindings of a SELECT |
| Sql.ParseInsert | src/db/Protobuf2DbEngine.cpp:492-506 | text and bindings of an INSERT: keys, then set fields |
| Sql.ParseUpdate | src/db/Protobuf2DbEngine.cpp:513-546 | text and bindings of an UPDATE: set fields, then keys; nothing prepared without a set field; INSERT with the hack |
| Sql.ParseDelete | src/db/Protobuf2DbEngine.cpp:553-561 | text and bindings of a DELETE |
| Sql.ParseProcParam | src/db/Protobuf2DbEngine.cpp:703-711 | a stored procedure call has exactly as many placeholders as parameters bound, the bindable leaves in order |
| Sql.SetsAligned | src/db/Protobuf2DbEngine.cpp:395-440 | bound SET parameters match the SET column list one for one, on every nested entity and for any keys |
| Sql.UpdateAligned | src/db/Protobuf2DbEngine.cpp:513-546 | every placeholder of an UPDATE gets the value of its column if and only if every set field has a binder and the keys are given as the bindable key fields occur in the traversal |
| Sql.InsertAligned | src/db/Protobuf2DbEngine.cpp:492-506 | the same for an INSERT |
| Sql.DeleteAligned | src/db/Protobuf2DbEngine.cpp:553-561 | the same for the keys of a DELETE |
| Sql.OrderFails | src/db/Protobuf2DbEngine.cpp:492-561 | two keys in the wrong order misalign all three |
| SqlFit.SelectFits | src/db/ZdbConnectionPoolSession.cpp:188-193 | a SELECT with keys that is aligned is so in the text as it is sent if and only if the text fits |
| SqlFit.DeleteFits | src/db/ZdbConnectionPoolSession.cpp:449-454 | the same for a DELETE |
| SqlFit.UpdateFits | src/db/ZdbConnectionPoolSession.cpp:392-397 | and for an UPDATE, with or without keys |
| SqlFit.InsertFitting | src/db/ZdbConnectionPoolSession.cpp:314-320 | an INSERT as it is sent has a placeholder for every column if and only if the text up to the last of them fits, and is then aligned exactly when the whole text is |
| Sql.SelectAligned | src/db/Protobuf2DbEngine.cpp:447-485 | the j-th placeholder of a SELECT gets the value of the j-th WHERE column if and only if the keys found among the top fields are the names of the bindable leaves they pick anywhere in the entity, in order |
| Sql.SelectFlatAligned | src/db/Protobuf2DbEngine.cpp:447-485 | so it does on a flat entity of bindable types with no key twice, in any order |
| Sql.SelectExact | src/db/Protobuf2DbEngine.cpp:447-485 | in terms of the call: of the conditions that each key found names one bindable scalar and is given once, and that no bindable leaf below the top has its name, both are necessary and together sufficient as soon as one holds |
| Sql.SelectFails | src/db/Protobuf2DbEngine.cpp:447-485 | so a key given twice, a key that names a message or an unbindable field, and a leaf below the top with the name of a key misalign it |
| Sql.SelectNestedFails | src/db/Protobuf2DbEngine.cpp:447-485 | the least nested entity for which it does not |
| Sql.SelectCoincides | src/db/Protobuf2DbEngine.cpp:447-485 | with a key given twice and a leaf below the top of that name the names agree by chance, and a value from below is bound |
| SqlOrigin.SelectBinds | src/db/Protobuf2DbEngine.cpp:447-485 | the j-th placeholder gets the value of the very field at the top that the j-th WHERE column names if and only if each key found there is given once and names a bindable scalar, and no bindable leaf below the top has its name |
| SqlOrigin.PickedAre | src/db/Protobuf2DbEngine.cpp:327-388 | the leaves with their paths that this speaks of are those bound |
| SqlOrigin.BindsMeansAligned | src/db/Protobuf2DbEngine.cpp:447-485 | then the names are aligned as well |
| SqlOrigin.CoincidenceMisbinds | src/db/Protobuf2DbEngine.cpp:447-485 | agreement of names is not enough for it |
| PrintfInt.Convert | src/base/mysnprintf.c:1934-1947 | the digits of any 64-bit value, last first, within the buffer of 43 |
| PrintfInt.ParseDecimal | src/base/mysnprintf.c:1934-1947 | a decimal text parses back to its value and has no leading zero |
| PrintfInt.ParseDigits | src/base/mysnprintf.c:1934-1947 | and the digits in radix 8, 10 and 16, large or small, parse back to the value |
| PrintfInt.TableDigits | src/base/mysnprintf.c:844-858 | the three-digit-table loop and the skipping of zeros leave the decimal text at the end of the scratch buffer of 32 |
| Printf.FastIsGeneral | src/base/mysnprintf.c:821-1078 | the fast path prints what fmtint prints with base 10 and no flags, width or precision, signed and unsigned, and it parses back to the value |
| Printf.Out.OutChar | src/base/mysnprintf.c:718-723 | writes while there is room for the terminator, counts always |
| Printf.Out.FastInteger | src/base/mysnprintf.c:821-863 | the sign and as many digits as fit; gives up when the buffer is full |
| Printf.Out.FastString | src/base/mysnprintf.c:809-819 | as much of the string as fits |
| Printf.Out.FmtInt | src/base/mysnprintf.c:1490-1589 | sign, prefix, zeros, grouped digits and padding, within the buffer |
| Printf.IntTextLength | src/base/mysnprintf.c:1545-1589 | fmtint prints max(what the value needs, width less the separators that a precision above the number of digits counts twice) characters, so it fills its width if and only if there are none of those or the value needs as much |
| Printf.GroupedDigits | src/base/mysnprintf.c:1561-1578 | without its separators the grouped text is the digits |
| Printf.GroupedNumber | src/base/mysnprintf.c:1561-1578 | so the grouped digits of a number, without their separators, are its digits in any radix and parse back to it |
| Printf.GroupedLength | src/base/mysnprintf.c:1561-1578 | and as many separators are printed as are counted |
| Printf.Out.FmtStr | src/base/mysnprintf.c:1456-1488 | the string cut to its precision and padded to its width, within the buffer |
| Printf.Out.Terminate | src/base/mysnprintf.c:1443-1447 | the terminator stands behind what fits |
| Printf.Drive | src/base/mysnprintf.c:762-1441 | the loop writes the unlimited text, or a prefix of it that fills the buffer |
| Printf.StepsRun | src/base/mysnprintf.c:762-1441 | what is printed from the middle of a format on depends only on the state reached there: the text is what was written before, and the run of the rest |
| Printf.Vsnprintf | src/base/mysnprintf.c:737-1454 | the result is terminated and is the first min(length, size - 1) characters of the unlimited text, and nothing beyond size is touched; when all fits the length is returned |
| Printf.LongZero | src/base/mysnprintf.c:901-1070 | with any flags and wherever the machine meets them in a format, %ld, %li, %lu, %lld, %lli and %llu print the value and nothing else if and only if it is not 0; the letters behind the first l are printed after a 0 |
| Printf.LongZeroFirst | src/base/mysnprintf.c:901-1070 | in particular at the start of a format, before any rest |
| Memcpy.MemcpyTiny | src/base/fast_memcpy.h:87-574 | for every size up to 128 the overlapping stores of its case copy exactly the bytes asked for |
| Memcpy.Move128 | src/base/fast_memcpy.h:604-625 | eight 16-byte moves, each store at an aligned address |
| Memcpy.MainLoop | src/base/fast_memcpy.h:603-626 | whole rounds of 128 bytes, less than one left over |
| Memcpy.AlignTarget | src/base/fast_memcpy.h:590-599 | one unaligned store and an advance to the next 16-byte boundary, inside the target |
| Memcpy.FastMemcpy | src/base/fast_memcpy.h:580-686 | for every size and alignment a bytewise copy; nothing outside the target changes, and every aligned access is aligned |
| ExecQueue.ActionKeepsInv | src/PbStubExecQueue.cpp:502-640 | every step of callers, consumers, RunOnce and Shutdown keeps the invariant on where each command and callback is |
| ExecQueue.ExecutedOnce | src/PbStubExecQueue.cpp:502-630 | a command accepted is executed at most once |
| ExecQueue.SynchronizedResult | src/PbStubExecQueue.cpp:171-207 | a Synchronize* call returns true only after its command was executed, a load only with that command's answer in its result |
| ExecQueue.CallerStillThere | src/PbStubExecQueue.cpp:179-186 | until set_value lets it go, a synchronous caller whose locals a callback refers to still waits for that command |
| ExecQueue.CallerCanBeGone | src/PbStubExecQueue.cpp:183-207 | in the rest of set_value, reached through a reference to the caller's pointer, the caller may have returned |
| ExecQueue.CalledOnce | src/base/CamelConcurrentQueue.cpp:29-41 | whenever the callback of an asynchronous load is called, it has not been called before, and it gets the answer of its command |
| ExecQueue.NeverTwice | src/PbStubExecQueue.cpp:502-630 | so along a run no command is executed twice and no asynchronous callback called twice |
| ExecQueue.OnlyThere | src/base/CamelConcurrentQueue.cpp:29-41 | nothing but RunOnce calls an asynchronous callback, and nothing but a consumer executes a command |
| ExecQueue.StaysClosed | src/base/CamelConcurrentQueue.cpp:33-55 | once closed, no iteration of RunOnce passes its test again |
| ExecQueue.ClosedMeansQuiet | src/DbService.cpp:274-282 | Shutdown closes the trunk queue only when every consumer is gone, so no result is dropped because it is closed |
| UrlCode.ToHex | src/base/URLCode.h:24-24 | fromHex inverts it, and it yields an upper-case digit |
| UrlCode.Encode | src/base/URLCode.cpp:11-46 | the escapes of the bytes up to the terminator, in order |
| UrlCode.Decode | src/base/URLCode.cpp:53-75 | the bytes decoded left to right, or an error where at() throws or a digit is not one |
| UrlCode.RoundTrip | src/base/URLCode.cpp:11-75 | decoding an encoded string restores every byte, whitespace as a space |
| UrlCode.RoundTripIdentity | src/base/URLCode.cpp:11-75 | it is the identity if and only if the space is the only whitespace |
| UrlCode.EncodedClean | src/base/URLCode.cpp:18-39 | an encoded string has only unreserved characters, +, and % before two upper-case hex digits |

## Left out

- Memory orders: atomic accesses are sequentially consistent, in every concurrent module; these are machines on values, so in-place update and aliasing of the queue's own objects are not captured there.
- Index wrap-around in the protocols: indices are unbounded, and `CircularIndex` relates the word comparisons and the slot arithmetic to them within half the range; masks by a power-of-two capacity are remainders.
- Allocation failure, except in the block index and in requisition_block; exceptions thrown by element constructors; enqueue_bulk and its roll-back; the explicit producer's own block index and ring of blocks.
- ProducerHash: thread-exit notification, reuse of keys and recycling of producers, none of which the variant modelled has.
- BlockingQueue: the narrowing of a release count to int, and spurious wake-ups inside the kernel semaphore.
- ExecQueue: liveness around shutdown (commands still queued when `_done` is set are never executed), and executing without a database.
- The dequeue across several producers with its heuristics and token rotation, and size estimates.
- DbugTrace: sharing of linked lists between settings is a mark on a value that is copied before it is changed; freeing, files, locks, output and the printing of trace lines are not modelled; global settings do not change.
- DbugControl: overflow in atoi, the loss of the output stream when a file cannot be opened, and names longer than the buffers.
- DbugExplain: PROFILE_ON and its list, which no control string sets.
- Profile: reading and scaling of numbers, and function names of 64 characters or more; times are unbounded, and bounded by the last stamp where stamps are ordered.
- Rows: the driver's conversions are a function of field type and cell, and the default left in a float or double is some positive number; debug-only type checks are not modelled; a message is a value, not an object updated in place.
- Sql: preparing a statement either succeeds or not; execution and transactions; what an overrun of a clause buffer does, which the methods' callers are required to avoid as the source does not check.
- Printf: floating point, %p, %n, %N, locales, the minimum of a signed type (its negation overflows), arguments of the wrong type, and overflow of widths taken from arguments.
- Memcpy: prefetches and the store fence.
- UrlCode: locales other than "C".
- MySQLSession, the Cap'n Proto and FlatBuffers engines, the importer, logging and the library entry points; libzdb, the MySQL client and protobuf reflection are not part of this model.
