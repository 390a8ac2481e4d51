# A verified model of a small distributed file system

The system is a file system in layers. Clients cache locks and blocks; a lock
server and an extent server keep the truth; an RPC layer with at-most-once
semantics joins them over framed connections. Each layer is modelled here and its
guarantee proved.

* **Locks** (`LockClient`, `LockServer`, `LockProtocol`, `LockSafety`,
  `LockTheorems`, `LockHistory`, `LockUse`, `LockWitnesses`). The classes run the
  source's regions on its maps. `LockProtocol` puts any number of clients with any
  number of threads, one server and the calls in flight into one transition system with
  a step for each region that runs under a mutex. Calls arrive late, time out, and are
  executed after their caller gave up. `LockHistory` and `LockUse` say what the server
  and the clients do from what happened in the run.
* **Block cache** (`ExtentCache`, `Coherence`). The write-back cache on top of the
  lock protocol, for one block and for all blocks at once.
* **At-most-once RPC** (`AckWindow`, `ReplyWindow`, `AtMostOnce`,
  `AtMostOnceSafety`, `AtMostOnceTheorems`, `AtMostOnceHistory`, `AtMostOnceWitness`,
  `RetryLoop`). The network is the set of everything ever sent, so loss, repetition and
  reordering are all included, and the server restarts at any time.
* **File system** (`Bits`, `Volume`, `FileChain`, `FileSteps`, `FileWrite`,
  `FileRead`, `Directories`, `DirectoryInsert`, `DirectoryRemove`, `DirectoryMap`,
  `FsTree`, `FsSteps`, `FsUnlink`, `Reachability`, `OneWay`, `Operations`, `Sessions`,
  `Refinement`, `Symlinks`, `FsModes`, `FsPossible`, `FsWitness`, `Layout`). `Volume` is
  one client's view of the blocks with the locks it holds. Files are chains of inodes
  that stand for byte strings, directories chains of blocks that stand for maps.
  `FsTree.FsOk` says that every block in use belongs to one place of one file or
  directory and that the directories form a tree. `Refinement` ties all of it to maps
  and byte strings.
* **Wire** (`Wire`, `Framing`, `Connections`, `Codec`, `RoundTrip`, `Messages`,
  `WireForms`, `Marshalling`, `Unmarshalling`). Framing over arbitrarily cut reads and
  writes, the typed encoding on a growing buffer, and whole requests and replies.

Properties that do not hold of the code as it stands are stated with their exact
condition and a concrete case:

* a lock can be lost for good (`LockTheorems.TokenConserved`, `LockTheorems.UsableWhen`;
  `LockTheorems.LockCanBeLost`, `LockWitnesses.LateAnswer`, `LockWitnesses.GrantedTooLate`);
* a read past the end at an unaligned offset returns too much (`FileRead.ExactlyWhen`;
  `FileRead.UnalignedReadOverruns`);
* create can miss a name that sits behind a block with room, as mkdir can miss any name
  (`DirMap.StaysDistinct`, `DirMap.MkdirBindsWhen`; `FsWitness.NameCanHide`,
  `FsWitness.MkdirCanDouble`);
* a waiter at the lock server does not imply that the holder is being revoked
  (`LockHistory.RevokedWhen`; `LockWitnesses.WaiterWithoutRevoke`);
* formatting a store in use can leave bits set that nothing accounts for
  (`Formatting.AgreesWhen`; `FsWitness.FormatCanStrand`);
* the wait of the retry loop can outgrow an int when it is doubled once more
  (`RetryLoop.DoublingFitsWhen`; `RetryLoop.ExactExpires`);
* a short reply passes the header's own test (`Messages.ReplyCutWithoutTakeIn`;
  `Messages.ShortReplyPasses`).

## Reading the model

* A call that times out looks to the lock client like an answer other than OK; the
  server may still execute it. Calls between lock client and lock server are executed
  at most once, which is what the RPC layer proves. Client and server nonces are
  distinct and not zero, and xids do not wrap.
* Client names are numbers in place of ordered strings.
* The file system operations are taken one after another. That a client which holds
  the lock of a block sees the last put of any client is the business of `Coherence`;
  that every operation touches a block only under its lock is proved of each one,
  except symlink.
* Get and put calls to the extent server succeed, and a fresh cache entry is clean:
  the source leaves its dirty flag unset in the constructor.
* A block holds bytes, a file inode or a directory inode, by what was stored last;
  `Layout` shows that the 512 octets of the source's structure read back as the same
  fields, and that a block of zeros reads as either kind. A block is never read as a
  kind it is not in a sound file system; that is part of what is proved.
* A name is the part of a string before its first NUL, shorter than 64.
* An operation that allocates needs as many free blocks as it takes; the source would
  search past the last bitmap block.
* A run of file system events takes any free block for a new one; the operations take
  the least free one, as the source does.
* Block numbers are below 191 * 4096, what the bitmap describes.
* The source formats the store in every client's constructor; `Format` does so on
  whatever the store holds.
* The four octets of a PDU's length overwrite its first four; a PDU that is sent has at
  least four and fewer than 2^31 octets. A length that is received is any signed int.
* The results of socket calls, the clock and the order of threads are arguments or
  choices of the model.

## Model

| member | source | states |
|---|---|---|
| `LockClient.Client.CheckAgain` | lock_client_cache.cc:68-110 | the loop at CHECK_AGAIN on the four maps of one lock is the function Check, leaves the maps of every other lock alone and ends |
| `LockClient.Client.Acquire` | lock_client_cache.cc:53-110 | a missing entry reads as NONE; the rest is Check |
| `LockClient.Client.AcquireAnswered` | lock_client_cache.cc:75-84 | an OK takes effect only if the status is still ACQUIRING; then the status is checked again |
| `LockClient.Client.WakeUp` | lock_client_cache.cc:104-107 | a woken thread is no longer counted and checks the status again |
| `LockClient.Client.Release` | lock_client_cache.cc:139-181 | which of FREE, RELEASING, wait or failing VERIFY a release comes to, from all statuses |
| `LockClient.Client.ReleaseAnswered` | lock_client_cache.cc:159-162 | the status after the release call |
| `LockClient.Client.RevokeHandler` | lock_client_cache.cc:195-207 | a FREE lock is given back at once, any other revoke is noted |
| `LockClient.Client.RetryHandler` | lock_client_cache.cc:224-229 | a retry is noted |
| `LockServer.Server.AcquireLock` | lock_server_cache.cc:34-101 | grant, wait or wait and revoke, with owner, waiters and revoked flag; other locks untouched |
| `LockServer.Server.ReleaseLock` | lock_server_cache.cc:104-147 | the lock is free whoever releases it; the clients told to retry are the first two waiters in order |
| `LockServer.FirstWaiters` | lock_server_cache.cc:132-146 | the retry loop tells exactly the least waiters, at most two, none skipped |
| `LockSafety.CheckedKeeps` | lock_client_cache.cc:68-110 | running CHECK_AGAIN keeps the invariant of a client: one busy thread, the waiters count, somebody awake when the lock is unused |
| `LockSafety.ExitedKeeps` | lock_client_cache.cc:143-169 | release keeps the invariant of a client, including the wake-up it sends |
| `LockSafety.RevokedKeeps` | lock_client_cache.cc:195-209 | a revoke keeps the invariant of a client |
| `LockSafety.StepKeeps` | lock_client_cache.cc:47-233 | each of the seventeen steps of the system of clients, server and calls in flight keeps the whole invariant and makes no token from nothing |
| `LockSafety.ReachableOk` | lock_server_cache.cc:25-158 | the invariant holds in every reachable state of every run |
| `LockTheorems.MutualExclusion` | lock_client_cache.cc:85-115 | at most one thread of one client is between the return of acquire and the call of release |
| `LockTheorems.AtMostOneToken` | lock_server_cache.cc:54-62 | free at the server, OK answer in flight, held at a client, release call not executed: at most one of these at any time |
| `LockTheorems.ReleaseComesFromOwner` | lock_server_cache.cc:118-125 | every release the server executes comes from the recorded owner of a lock it knows and holds, though it does not look |
| `LockTheorems.HolderIsRecorded` | lock_server_cache.cc:54-59 | a client that is FREE or LOCKED is the recorded owner |
| `LockTheorems.ReleaseNeverFails` | lock_client_cache.cc:143-180 | a thread that releases what it acquired reaches no failing VERIFY and no wait |
| `LockTheorems.NoLostWakeUp` | lock_client_cache.cc:100-107 | in every reachable state of a client, whoever has the mutex: FREE and revoked has a waiter; NONE or FREE with waiters has one awake; ACQUIRING with a noted retry has a thread awake or in a call |
| `LockTheorems.TokenConserved` | lock_client_cache.cc:78-83 | a step keeps the lock usable if and only if it is not one of three: a late OK dropped, the caller of a granted call giving up, a grant to a call nobody waits for |
| `LockTheorems.UsableWhen` | lock_client_cache.cc:75-83 | at the end of any run the lock is usable if and only if no step of the run was one of the three |
| `LockTheorems.LostForever` | lock_client_cache.cc:78-83 | after such a step no thread gets the lock in any continuation |
| `LockTheorems.LockCanBeLost` | lock_client_cache.cc:75-83 | a concrete run of four steps in which the lock is lost |
| `LockWitnesses.LateAnswer` | lock_client_cache.cc:78-83 | a reachable state with a usable lock in which a late OK is dropped at its client |
| `LockWitnesses.GrantedTooLate` | lock_client_cache.cc:75-83 | a reachable state in which the caller of a granted call gives up |
| `LockWitnesses.WaiterWithoutRevoke` | lock_server_cache.cc:54-62 | a reachable state in which the lock is held, another client waits and no revoke is due: a waiter alone does not imply a revoke |
| `LockHistory.ServerRemembers` | lock_server_cache.cc:34-147 | in every run the owner is the client granted last and not given back, the waiters are those refused and not granted since, and the lock is revoked if and only if another client was refused since the grant, all told from the answers and releases of the run |
| `LockHistory.GrantedWhen` | lock_server_cache.cc:54-78 | a call is granted if and only if the last grant was given back, and refused otherwise |
| `LockHistory.RefusedWaits` | lock_server_cache.cc:58-77 | a client is a waiter if and only if it was refused and has not been granted the lock since, whoever holds it and whether or not a revoke is out |
| `LockHistory.ToldAreLeast` | lock_server_cache.cc:126-146 | a release tells the least two of those refused and not granted since, or all of them if fewer |
| `LockHistory.RevokedWhen` | lock_server_cache.cc:79-83 | while the lock is held it is revoked if and only if another client was refused since the grant |
| `LockHistory.OneRevokeEach` | lock_server_cache.cc:79-96 | revokes sent and still to be sent are as many as first refusals since a grant |
| `LockHistory.RevokeNotLost` | lock_server_cache.cc:79-96 | while another client was refused since the grant, the revoke is still to be sent, under way to the owner, noted there, or the owner is giving the lock back |
| `LockUse.ClientRemembers` | lock_client_cache.cc:139-229 | the revoked and retried flags of a client told from the run: what was noted and not yet acted on |
| `LockUse.EntersWhen` | lock_client_cache.cc:68-107 | in every run a thread that asks is inside at once exactly if the client keeps the lock unused, calls the server exactly if nobody here asks or a retry came, and else sleeps |
| `LockUse.AnsweredWhen` | lock_client_cache.cc:75-107 | the same for a thread whose call is answered, an OK in time letting it in |
| `LockUse.TimedOutWhen` | lock_client_cache.cc:75-107 | the same for a thread whose call timed out |
| `LockUse.LeavesWhen` | lock_client_cache.cc:143-169 | a thread that is done gives the lock back if and only if a revoke was noted and no other thread of the client waits; otherwise the client keeps it, with no call |
| `LockUse.KeptUntilRevoked` | lock_client_cache.cc:143-169 | a client that has the lock with no revoke noted keeps it over any steps without a revoke for it, makes no acquire call meanwhile, and lets the next thread in without one |
| `LockUse.ReleasesOnlyOnRevoke` | lock_client_cache.cc:143-207 | a client makes no more release calls than it received revokes |
| `LockUse.AsksOnlyWithReason` | lock_client_cache.cc:68-99 | a client makes at most one acquire call more than it received retries and revokes |
| `ExtentCache.CacheClient.Get` | extent_client_cache.cc:57-83 | returns the cached block or fetches and caches it clean |
| `ExtentCache.CacheClient.Put` | extent_client_cache.cc:86-102 | caches the block dirty and writes nothing through |
| `ExtentCache.CacheClient.Flush` | extent_client_cache.cc:119-161 | a dirty block reaches the server and the entry is gone either way; other blocks untouched |
| `Coherence.FlushKeeps` | yfs_client.cc:26-31 | flushing before the release call keeps cache and store coherent |
| `Coherence.OtherLockStepKeeps` | lock_client_cache.cc:143-169 | no other step of the lock protocol lets a client keep a cached block without the lock |
| `Coherence.ReadsLastPut` | extent_client_cache.cc:57-102 | in every run a thread that holds the lock reads the block last put by any client |
| `Coherence.CachedOnlyUnderLock` | extent_client_cache.cc:144-156 | only a holder of the lock caches the block, at most one client does, and when none does the store has the last put |
| `Coherence.CachedWhen` | extent_client_cache.cc:57-161 | a client caches the block if and only if it used it since its last flush, and the entry is dirty if and only if it wrote it since |
| `Coherence.FlushWritesWhen` | extent_client_cache.cc:119-161 | a flush stores the last put if the client wrote since the flush before, and else leaves the store alone |
| `AllBlocks.EveryBlockCoherent` | extent_client_cache.cc:57-161 | in every run over all blocks, under any interleaving, a thread that holds the lock of a block reads the block last put |
| `AllBlocks.EveryBlockCachedUnderLock` | extent_client_cache.cc:144-156 | in every run over all blocks a block is cached only by a holder of its lock and by at most one client, and when none caches it the store has the last put |
| `AckWindow.FrontIsLargest` | rpc/rpc.cc:386-408 | the front is the largest n with 1..n all reported |
| `AckWindow.Window.UpdateXidRep` | rpc/rpc.cc:386-408 | after any report the list again stands for the reported xids: ascending, not empty, front plus one not in it |
| `AckWindow.Window.Insert` | rpc/rpc.cc:394-400 | the xid goes in front of the first larger one |
| `AckWindow.Window.Compress` | rpc/rpc.cc:402-407 | the loop that pops while it walks never pops the element it points at and leaves the front at its largest |
| `AckWindow.FrontOfList` | rpc/rpc.cc:390-392 | the front of a list that stands for a set is the front of the set |
| `AckWindow.Window.Acked` | rpc/rpc.cc:211-214 | what the next request acknowledges is the largest n with 1..n all reported |
| `ReplyWindow.Scan` | rpc/rpc.cc:675-691 | the loop that erases and searches in one pass: everything up to the watermark before the place it stops is gone, nothing else |
| `ReplyWindow.CheckList` | rpc/rpc.cc:668-697 | the list and watermark after a request stand for the window that Check gives, with its answer |
| `ReplyWindow.Server.CheckDuplicateAndUpdate` | rpc/rpc.cc:660-697 | NEW, INPROGRESS, DONE with the saved reply or FORGOTTEN, and the new window; other clients untouched |
| `ReplyWindow.Server.AddReplyTo` | rpc/rpc.cc:771-797 | the reply is saved at its xid if it is still in the window |
| `AtMostOnceSafety.StartCallKeeps` | rpc/rpc.cc:196-215 | a new call keeps the invariant |
| `AtMostOnceSafety.GotReplyKeeps` | rpc/rpc.cc:360-381 | a reply, late or repeated or not, keeps the invariant |
| `AtMostOnceSafety.ReceiveKeeps` | rpc/rpc.cc:522-583 | a request, late or repeated or not, keeps the invariant |
| `AtMostOnceSafety.NewIsNew` | rpc/rpc.cc:693-697 | NEW is answered only for a request this instance has not executed |
| `AtMostOnceSafety.ReachableOk` | rpc/rpc.cc:498-643 | the invariant of clients, server instances and everything ever sent holds in every run |
| `AtMostOnceTheorems.RunsAtMostOnce` | rpc/rpc.cc:522-628 | over any loss, repetition, reordering and server restart the handler of a request other than bind runs at most once |
| `AtMostOnceTheorems.ExecutedIsTracked` | rpc/rpc.cc:668-697 | an executed xid is in the reply window, or at or below the watermark and then acknowledged |
| `AtMostOnceTheorems.PendingNotForgotten` | rpc/rpc.cc:668-674 | while a call waits the watermark is below its xid, it is not answered FORGOTTEN and no such answer is under way |
| `AtMostOnceTheorems.PendingReplyKept` | rpc/rpc.cc:675-680 | the saved reply of a waiting call is not erased |
| `AtMostOnceTheorems.AcceptsItsResult` | rpc/rpc.cc:368-379 | with one server instance a waiting call accepts the value of its one execution |
| `AtMostOnceHistory.ServerRemembers` | rpc/rpc.cc:660-797 | the watermark is the most the client acknowledged to this instance, the list the requests above it that were received, with a reply exactly for those answered |
| `AtMostOnceHistory.DispatchedWhen` | rpc/rpc.cc:522-643 | what dispatch does with any request in every run: told old, told forgotten exactly if acknowledged, started exactly if not received before, left alone exactly if received and not answered, and else answered with the value of its execution |
| `AtMostOnceHistory.AnswerWhen` | rpc/rpc.cc:660-697 | NEW, INPROGRESS, DONE and FORGOTTEN each if and only if the run says so |
| `AtMostOnceHistory.AnswerToWaiting` | rpc/rpc.cc:675-697 | for a waiting call: NEW if and only if not received, INPROGRESS if and only if in hand, and DONE with the value of its execution once answered |
| `AtMostOnceHistory.ClientKnows` | rpc/rpc.cc:196-381 | the calls, states, reported xids and server nonce of a client told from its run |
| `AtMostOnceHistory.NextRequest` | rpc/rpc.cc:196-215 | xids count up from 1, the server nonce is that of the bind, and the acknowledgement is the largest n such that every call up to n was answered or is over |
| `AtMostOnceHistory.ResultIsFirstReply` | rpc/rpc.cc:349-379 | a call comes back with the first reply received for it |
| `AtMostOnceWitness.CallCanComplete` | rpc/rpc.cc:185-643 | a run in which a client binds, calls and gets the value of its handler |
| `RetryLoop.AddTimespec` | rpc/rpc.cc:1137-1147 | the carry loop, which leaves a full second of nanoseconds in place |
| `RetryLoop.AddIsSum` | rpc/rpc.cc:1137-1147 | the sum is right in nanoseconds |
| `RetryLoop.FullSecondStays` | rpc/rpc.cc:1137-1147 | a full second of nanoseconds is left in place, one more carries |
| `RetryLoop.CmpOrders` | rpc/rpc.cc:1120-1134 | the comparison agrees with nanoseconds on the times the loop makes |
| `RetryLoop.WaitLoop` | rpc/rpc.cc:217-284 | all waits but the last were full and expired, so 1000 (2^k - 1) ms have passed; without a reply the loop ends only when the timeout is over; the request is sent in the first round and in each round after a wait that found the connection broken |
| `RetryLoop.SentOnce` | rpc/rpc.cc:224-249 | on a connection that holds the request is sent once |
| `RetryLoop.WaitsBounded` | rpc/rpc.cc:252-283 | the number of waits is logarithmic in the timeout, no deadline is past the final one, and every wait the loop makes fits an int |
| `RetryLoop.DoublingFitsWhen` | rpc/rpc.cc:252-283 | every wait the loop computes fits an int, the one doubled after the last expired wait included, if and only if the timeout is below 2097151000 ms |
| `Shifts.MasksAreShifts` | yfs_client.cc:221-250 | the masks of the model are the shifts of the source |
| `Bits.AfterSet` | yfs_client.cc:250 | setting a bit changes that bit of the block only |
| `Bits.AfterClear` | yfs_client.cc:296 | clearing a bit changes that bit of the block only |
| `Volume.Vol.Get` | yfs_client.cc:211-226 | succeeds exactly on blocks in use, reading the bit under the lock of its bitmap block |
| `Volume.Vol.PutOld` | yfs_client.cc:268-285 | writes exactly if the block is in use |
| `Volume.Vol.FindFree` | yfs_client.cc:232-242 | the search stops at the least free block and holds the locks of the bitmap blocks passed |
| `Volume.Vol.ReleaseBitmaps` | yfs_client.cc:261-265 | all of them are released again |
| `Volume.Vol.PutNew` | yfs_client.cc:228-266 | the least free block gets the data and its bit, no other block and no other bit changes, no lock is left |
| `Volume.Vol.Remove` | yfs_client.cc:288-307 | clears its own bit and nothing else |
| `Volume.Vol.SafeGet` | yfs_client.cc:1055-1063 | takes the lock of the block unless the caller holds it, and gives it back |
| `Volume.Vol.SafePut` | yfs_client.cc:1065-1073 | the same for writing |
| `FileSteps.AppendInode` | yfs_client.cc:874-886 | a new inode behind a full last one; the chain is again sound |
| `FileSteps.AppendBlock` | yfs_client.cc:891-898 | a zero block in the first free slot; the bytes before it stay |
| `FileWrite.SeekBlock` | yfs_client.cc:866-911 | walks to the block of the offset, making zero blocks on the way |
| `FileWrite.WriteLoop` | yfs_client.cc:912-959 | lays the buffer over the blocks and changes no other byte |
| `FileWrite.InnerWrite` | yfs_client.cc:848-968 | the file becomes the old bytes overlaid with the buffer, as long as the larger of old length and end of the buffer, zeros in any gap; only blocks of the file are allocated; NOENT if the inode is free |
| `FileRead.ExactlyWhen` | yfs_client.cc:776-844 | the length returned is the exact one if and only if nothing is asked for, the offset is on a block boundary, the range is inside the file, the file ends before the block of the offset or fills its last block |
| `FileRead.UnalignedReadOverruns` | yfs_client.cc:808-834 | a concrete read past the end that returns too much |
| `FileRead.ReadsMost` | yfs_client.cc:776-844 | the length is the most that is asked for, lies between the start of the block of the offset and the end of the file, and is in the blocks: never less than right and at most off % 512 more |
| `FileRead.InnerRead` | yfs_client.cc:742-846 | the bytes are the file, with zeros up to the end of its last block, from the offset on; they are the slice asked for if and only if that condition holds; the file keeps its contents |
| `DirOps.Lookup` | yfs_client.cc:419-451 | the inum of the first entry of the name, 0 if none, IOERR in its place if the directory is free; only a time changes |
| `DirOps.Readdir` | yfs_client.cc:453-484 | the items of all entries; IOERR if the directory is free |
| `DirInsert.CreateSlot` | yfs_client.cc:331-372 | the duplicate check sees the blocks up to the first with room; a block is linked only if all are full |
| `DirInsert.InnerCreate` | yfs_client.cc:970-1053 | a name it sees is returned and nothing but times changes; otherwise a new empty file of mode 1 with its times gets an entry behind those of the first block with room |
| `DirInsert.Create` | yfs_client.cc:311-417 | the same with the directory locked |
| `DirInsert.Mkdir` | yfs_client.cc:528-571 | a new empty directory of mode 0 with its times gets an entry there without any check of names |
| `DirRemove.FreeSlots` | yfs_client.cc:646-650 | frees the blocks of the slots up to the first empty one |
| `DirRemove.RecursiveUnlink` | yfs_client.cc:642-657 | from inode j of the chain on, frees exactly those inodes and all data blocks |
| `DirRemove.DropEntry` | yfs_client.cc:616-622 | copies every entry but one |
| `DirRemove.Unlink` | yfs_client.cc:573-639 | NOENT if the name is absent; else its first entry goes and exactly the blocks of the file are freed |
| `DirMap.CreateBinds` | yfs_client.cc:311-392 | create of a name it does not see updates the map by that one binding |
| `DirMap.MkdirBindsWhen` | yfs_client.cc:542-566 | mkdir binds its new directory if and only if no entry of the name is in front of the place it takes |
| `DirMap.StaysDistinct` | yfs_client.cc:331-372 | names stay distinct if and only if the new name was in no block of the directory |
| `DirMap.UnlinkUnbindsWhen` | yfs_client.cc:591-625 | unlink takes the binding away if and only if there was no second entry of the name |
| `DirMap.UnlinkUnbinds` | yfs_client.cc:591-625 | with distinct names unlink removes exactly its binding and names stay distinct |
| `DirMap.ReaddirListsMap` | yfs_client.cc:468-478 | what readdir returns is the map turned round if and only if names are distinct |
| `FsWitness.NameCanHide` | yfs_client.cc:331-392 | from a formatted store a run reaches a root with distinct names, "a" among them, in which create of "a" enters it a second time |
| `FsWitness.MkdirCanDouble` | yfs_client.cc:542-566 | a run reaches a root in which mkdir enters a name that is there a second time |
| `FsTree.WroteKeeps` | yfs_client.cc:848-968 | a write keeps every block accounted for, every other file and every directory as they were |
| `FsSteps.InsertKeeps` | yfs_client.cc:311-392 | create and mkdir keep the file system sound |
| `FsUnlink.UnlinkKeeps` | yfs_client.cc:573-657 | unlink of a file keeps it sound |
| `FsSteps.TimesKeep` | yfs_client.cc:428-434 | steps that change only times keep it sound |
| `Reachability.BitmapIsReachability` | yfs_client.cc:228-307 | a bit is set if and only if its block is reserved or reachable from the root by the pointers on the disk, never both |
| `OneWay.OnePointer` | yfs_client.cc:346-386 | at most one pointer field of a block in use leads to a block, and none to the root |
| `OneWay.OnePath` | yfs_client.cc:642-657 | there is one path from the root to a block |
| `FsEvents.NeverReserved` | yfs_client.cc:53-71 | a free block is never 0, 1 or one of 10 to 200 |
| `FsEvents.EventKeeps` | yfs_client.cc:311-657 | whatever an operation does keeps the file system sound |
| `FsOps.Create` | yfs_client.cc:311-417 | from no lock held to no lock held, every extent touched under its lock, no lock taken twice; one event of the file system; a new file has mode 1, size 0, no blocks and its times |
| `FsOps.Mkdir` | yfs_client.cc:528-571 | the same for mkdir |
| `FsOps.Lookup` | yfs_client.cc:419-451 | the same for lookup, with the inum it returns |
| `FsOps.Readdir` | yfs_client.cc:453-484 | the same for readdir, with the items it returns |
| `FsOps.Unlink` | yfs_client.cc:573-639 | the same for unlink, with NOENT exactly for absent names |
| `FsOps.Write` | yfs_client.cc:520-526 | the same for write, with the overlaid contents and the header fields |
| `FsOps.WriteThenRead` | yfs_client.cc:512-526 | write and then read of the same place gives the bytes back, on any sound file system |
| `FsOps.Read` | yfs_client.cc:512-518 | the same for read, with all bytes returned, and the exact slice if and only if the condition holds |
| `Formatting.FirstBitmap` | yfs_client.cc:59-71 | the loop sets exactly bits 0, 1 and 10 to 200 |
| `Formatting.Format` | yfs_client.cc:45-83 | on any store, in use or not, rewrites four blocks; the bitmap agrees with what is reachable, and the file system is sound and empty, if and only if no block described by bitmap blocks 11 to 199 was in use |
| `Formatting.AgreesWhen` | yfs_client.cc:45-83 | the same of the disk before and after: each bit is that of a reserved block or of a block reachable from the root if and only if none was set in the bitmap blocks not rewritten |
| `FsWitness.FormatCanStrand` | yfs_client.cc:45-83 | a run reaches a store with a file at block 4096; formatting it again leaves that bit set and the block unreachable |
| `FsRuns.RunSound` | yfs_client.cc:311-657 | the file system is sound at every point of every run |
| `FsModes.RunModes` | yfs_client.cc:372-378 | in every run the first block of a file has mode 1 or 2 and that of a directory mode 0 |
| `FsModes.IsFile` | yfs_client.cc:103-123 | says yes of files that are not links and of nothing else |
| `FsModes.IsDir` | yfs_client.cc:125-144 | says yes of directories and of nothing else |
| `FsRuns.Accounted` | yfs_client.cc:228-307 | at every point of every run the set bits are exactly those of the reserved blocks and of the blocks reachable from the root, each by one path |
| `FsRuns.UnlinkFrees` | yfs_client.cc:573-657 | the blocks that unlink frees are exactly those of the file and exactly those no longer reachable |
| `AbstractFs.NamesDistinctWhen` | yfs_client.cc:331-372 | over one event of any kind names stay distinct in all directories if and only if create or mkdir was for an absent name |
| `AbstractFs.Refines` | yfs_client.cc:311-657 | each event on the blocks is its meaning on maps of names and byte strings |
| `AbstractFs.RunRefines` | yfs_client.cc:311-657 | after any run whose creates and mkdirs were for absent names the disk means the replay of the events |
| `AbstractOps.Lookup` | yfs_client.cc:419-451 | after such a run lookup returns what the replayed map binds the name to, 0 if nothing |
| `AbstractOps.Readdir` | yfs_client.cc:453-484 | after such a run readdir lists the replayed map turned round |
| `AbstractOps.Read` | yfs_client.cc:512-518 | after such a run read returns the slice of the replayed byte string if and only if the read is exact |
| `Symlinks.Symlink` | yfs_client.cc:674-705 | a create or the stamp of a create that sees the name, then a write, then the mode of a link in the header; the name leads to the inode; under a name not seen the new file holds exactly the link, otherwise the link is laid over the file; other files and directories stay; IOERR if the directory is free |
| `Symlinks.LinkedEntries` | yfs_client.cc:674-705 | the entries of every directory afterwards |
| `Symlinks.LinkedMeans` | yfs_client.cc:674-705 | for an absent name symlink means one new binding and one new byte string |
| `Symlinks.LinkRoundTrip` | yfs_client.cc:674-740 | symlink, lookup of the name and readlink give the link back |
| `Symlinks.Readlink` | yfs_client.cc:707-740 | returns the whole contents of the file; NOENT if the inode is free |
| `Layout.FileBack` | yfs_client.h:98-120 | a file inode laid out in 512 octets is read back field by field |
| `Layout.DirBack` | yfs_client.h:98-120 | a directory inode with its names is read back |
| `Layout.ZeroBlock` | yfs_client.h:98-120 | a block of zeros reads as an empty inode of either kind |
| `Layout.Offsets` | yfs_client.h:98-120 | where each field of the structure is in the 512 octets |
| `Layout.SlotOffset` | yfs_client.h:98-120 | where each block pointer is |
| `Layout.EntryOffset` | yfs_client.h:98-120 | where the name and the inum of each entry are |
| `Wire.LengthRoundTrip` | rpc/connection.cc:229-267 | the length in network order comes back |
| `Framing.StepKeeps` | rpc/connection.cc:123-296 | every way a write or read is cut up, fails or is refused keeps the invariant of sender, wire and receiver |
| `Framing.AcceptedInOrder` | rpc/connection.cc:193-220 | the PDUs accepted are the first of those sent, in order, each once |
| `Framing.NothingLost` | rpc/connection.cc:123-220 | if nothing in the run broke the connection, then when all is written and read every PDU sent was accepted |
| `Framing.DeadWhen` | rpc/connection.cc:123-296 | a side is dead if and only if an error, a stop, a length cut short or a PDU above 10485760 octets broke it |
| `Framing.StaysAlive` | rpc/connection.cc:17-296 | with PDUs of at most 10485760 octets and no error, stop or length cut short both sides stay alive |
| `Framing.LengthTaken` | rpc/connection.cc:269-281 | a length from 4 to 10485760 is taken |
| `Framing.LengthRefused` | rpc/connection.cc:269-275 | a larger one ends the connection |
| `Framing.GetsThrough` | rpc/connection.cc:123-296 | any PDU of 4 to 10485760 octets can be sent, read and accepted |
| `Framing.TrueMeansWritten` | rpc/connection.cc:152-161 | a send that returns true has its whole frame on the wire behind the earlier ones |
| `Framing.FrameCarries` | rpc/connection.cc:229-232 | the frame is the PDU with its length in the first four octets |
| `Connections.Connection.WritePdu` | rpc/connection.cc:222-244 | what one write call does to the PDU in hand, in all outcomes |
| `Connections.Connection.SendBegins` | rpc/connection.cc:123-160 | send up to its wait, refused on a dead connection |
| `Connections.Connection.SendEnds` | rpc/connection.cc:161-166 | true exactly if alive and all written |
| `Connections.Connection.WriteCb` | rpc/connection.cc:170-190 | one more write, or nothing in hand |
| `Connections.Connection.ReadPdu` | rpc/connection.cc:246-296 | the length as a signed int, the limit of 10 MB, the body and the three outcomes of a read; 4 to 10485760 is taken and more refused; a length below four is reported |
| `Connections.Connection.ReadCb` | rpc/connection.cc:193-220 | reads unless a whole PDU waits, offers a whole PDU, keeps a refused one; stays alive on a length from 4 to 10485760 and dies on more; a length below four is reported |
| `Framing.NeverTooSmall` | rpc/connection.cc:246-268 | between two such connections no length below four arrives |
| `RoundTrip.Back` | rpc/rpc.cc:859-1069 | any value of any type decodes to itself and the index stops behind it, whatever follows |
| `RoundTrip.CutFails` | rpc/rpc.cc:969-1069 | no strict prefix of an encoding decodes |
| `RoundTrip.PairsBack` | rpc/marshall.h:233-259 | a map comes back from its entries in key order |
| `RoundTrip.AssignBinds` | rpc/marshall.h:252-257 | the assignment that builds a map binds one key |
| `Messages.MessageBack` | rpc/marshall.h:83-187 | the header and the values of a request come back and the message ends okdone |
| `Messages.ReplyBack` | rpc/marshall.h:98-198 | the header and the values of a reply come back and the message ends okdone |
| `Messages.MessageCut` | rpc/rpc.cc:498-516 | no strict prefix of a request, cut in the header or behind it, leaves ok true |
| `Messages.ReplyCut` | rpc/rpc.cc:349-379 | no strict prefix of a reply leaves ok true once take_in has looked at it |
| `Messages.ReplyCutWithoutTakeIn` | rpc/rpc.cc:950-957 | without take_in a prefix of a reply passes if and only if it has twelve octets or more and no value is read |
| `Messages.ReqHeaderWhen` | rpc/marshall.h:175-187 | a request header unpacks with ok true if and only if there are 24 octets |
| `Messages.ReplyHeaderWhen` | rpc/marshall.h:189-198 | a reply header unpacks with ok true if and only if there are 12 octets |
| `Messages.ShortReplyPasses` | rpc/marshall.h:189-198 | any twelve octets pass for a reply header and leave the index past the end |
| `WireForms.WireForm` | rpc/rpc.cc:859-928 | the octets of each kind of value: ints from the highest octet down, lengths first, elements in order, each key before its value |
| `WireForms.ListForm` | rpc/marshall.h:83-108 | arguments follow one another in order |
| `WireForms.HeaderAt` | rpc/marshall.h:83-96 | where the length, xid, proc, nonces and acknowledgement of a request are |
| `WireForms.ReplyHeaderAt` | rpc/marshall.h:98-108 | where the length, xid and result of a reply are |
| `KeyOrder.KeysGoUp` | rpc/marshall.h:233-243 | keys are sent in ascending order, strings by their first difference |
| `Marshalling.Marshall.RawByte` | rpc/rpc.cc:834-844 | appends an octet, doubling when full; the index stays within the capacity |
| `Marshalling.Marshall.RawBytes` | rpc/rpc.cc:846-857 | appends octets under the second growth rule; the index stays within the capacity |
| `Marshalling.Marshall.PackReqHeader` | rpc/marshall.h:83-96 | the header goes in front of the content, which stays as it was |
| `Marshalling.Marshall.PackReplyHeader` | rpc/marshall.h:98-108 | the same for a reply |
| `Marshalling.Put` | rpc/rpc.cc:859-928 | the operators append exactly the encoding |
| `Marshalling.PutAll` | rpc/marshall.h:211-218 | the vector loop |
| `Marshalling.PutPairs` | rpc/marshall.h:233-243 | the map loop |
| `Unmarshalling.Unmarshall.UnpackReqHeader` | rpc/marshall.h:175-187 | on any buffer the fields, the index and ok of UnpackedReq, ok exactly from 24 octets on |
| `Unmarshalling.Unmarshall.UnpackReplyHeader` | rpc/marshall.h:189-198 | on any buffer the fields, the index and ok of UnpackedReply, ok exactly from 12 octets on |
| `Unmarshalling.Unmarshall.TakeIn` | rpc/rpc.cc:948-957 | takes the other buffer from behind the header on, ok exactly from 24 octets on, and leaves the other empty |
| `Unmarshalling.GotReply` | rpc/rpc.cc:349-379 | a reply of fewer than 12 octets is dropped, any other handed over, with ok exactly from 24 octets on |
| `Unmarshalling.Get` | rpc/rpc.cc:980-1056 | the operators compute the decoding, the index and ok |
| `Unmarshalling.GetAll` | rpc/marshall.h:220-231 | the vector loop pushes as many elements as announced |
| `Unmarshalling.GetPairs` | rpc/marshall.h:245-259 | the map loop |

## Left out

- Codec.RawBytes: index and length are added without wrapping at 32 bits; the source's unsigned sum wraps only for an announced length within the index of 2^32, which no encoder of a buffer of int size produces.
- Symlinks.Symlink: proved for one client at a time, because the source writes the new inode without its lock; the contract admits that one extent as touched without its lock.
- FsOps.Unlink: the directory must be in use, because the source goes on with an unset buffer when its read fails; the name must not lead to a directory, because the source then frees blocks by reading directory inodes as file inodes.
- DirRemove.Unlink: the same two conditions, for the same reasons.
- FsOps.Mkdir: the directory must be in use, because the source goes on with an unset buffer when its read fails.
- DirInsert.Mkdir: the same condition, for the same reason.
- Connections.Connection.ReadPdu: a received length below four is reported as too small and nothing more is said, because the source then asks for a negative number of octets; between two such connections such a length does not arrive.
- Connections.Connection.ReadCb: the same for a length below four.
- setattr writes back a copy of the inode taken before its own write allocated blocks, so no invariant here covers it.
- issym keeps its lock when its read fails; it, getfile and getdir only read a header.
- Liveness of the lock protocol and freedom from deadlock between block locks depend on scheduling and thread pools and are not claimed.
- rpcc::cancel, set_reachable, the lossy switches, connection reference counts and the freeing of buffers are resource plumbing; replayed requests are covered as repetitions.
- The code after the return at rpc/rpc.cc:697 is not reachable and is not modelled.
- Requests with a zero client nonce are outside the at-most-once logic.
- getattr and remove of the extent cache, and the file I/O of the extent server, which is a map from numbers to blocks here.
- handle.cc, the poll manager, the thread pool, the bounded queue, FUSE, the mains and the testers.
- lock_server.cc and lock_client.cc, the lock without caching, which the server main does not use.
- Capacities and indices of the marshall buffer are unbounded integers.
