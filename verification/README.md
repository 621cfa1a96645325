# A verified model of the YFS distributed file system

YFS keeps a shared file system in an extent server. Clients cache extents while they hold the lock of the extent;
a lock server hands locks from client to client; the servers are meant to be replicated by a state machine whose
views Paxos agrees on; everything talks through an RPC layer that promises to run each call at most once. This
project models these protocols in Dafny and proves what they promise, for every run, every interleaving and every
input.

| files | models |
|---|---|
| `Ballots`, `Acceptors`, `Proposers`, `Paxos`, `PaxosNet`, `PaxosSteps`, `PaxosSafety`, `PaxosLoops`, `PaxosRounds`, `PaxosRuns`, `PaxosProgress` | one Paxos instance: ballots, quorums, the acceptor and its log, the proposer's loops, and the protocol over a network that loses, repeats and delays messages, with restarts |
| `LockNodes`, `LockStages`, `Locks`, `LockMoves`, `LockViews`, `LockRuns`, `LockService` | the caching lock protocol: server and client code, then all clients and threads together, one event per critical section |
| `Extents`, `Coherence` | the write-back extent cache, alone and on top of the lock protocol |
| `RpcClients`, `RpcServers`, `Rpc`, `RpcReplies` | the client's acknowledgement window, the server's reply memory, both over an unreliable network, and what is answered when |
| `Views` | the text of a membership view, the chain of views, and the choice of the primary |
| `Codec`, `Buffers` | the wire format of nested values and the buffers that write and read it |
| `Options`, `Sequences`, `Arithmetic` | shared definitions |
| `Splitting`, `Directory` | `Split`, and directories as `name:inum` text |

Code that updates fields in place is modelled by classes and by methods with loops; each method is proved against
a function on values. The transition systems of the protocols are made of these functions; the proposer's loops are
taken there one call at a time, and `PaxosLoops` proves that they stand where the code stands in every run. A run is
a datatype: a starting state and the events since. The main results are lemmas over all legal runs.

Paxos relies on two rules that its code does not check. An accept request is handled only by a node that has not
decided the instance yet (`timely`), and no proposer offers the empty string (`filled`). The second is what the
configuration code guarantees (`Views.ProposalsAreFilled`).

Properties that the code does not have on all inputs come with the exact condition and a run or input that breaks
them outside it: late accepts and empty values in Paxos, untouched or re-read extents in the cache, late joiners in
the choice of the primary, names with delimiters and reused inode numbers in directories, and booting as first node
with ballots in the log.

Where the code and its comments differ, the model follows the code:

- `acceptreq` ignores the instance of the request, so a node that has decided, and thereby forgotten its promise,
  accepts anything (`PaxosRuns.AgreementIffStrict`, `PaxosRuns.LateAcceptBreaksAgreement`).
- `checkduplicate_and_update` never answers INPROGRESS; a duplicate of a running call counts as done and nothing is
  sent back.
- `extent_client::get` returns the status of the `getattr` call that follows it, so a missing extent is reported as
  IOERR and not NOENT.
- `set_primary` is said to pick the lowest-numbered node of the previous view; it picks the first one in the list,
  which is the longest-standing member.

## Model

| member | source | states |
|---|---|---|
| `Ballots.BallotOrder` | paxos.cc:18-28 | `>` and `>=` on proposal numbers form a strict total order and its reflexive closure |
| `Ballots.CounterFirst` | paxos.cc:18-28 | the counter decides between proposal numbers, the names between equal counters |
| `Ballots.NameOrder` | paxos.cc:18-28 | names are ordered by the first position where they differ, a proper prefix first |
| `Ballots.IsMember` | paxos.cc:43-49 | finds a name exactly when it is in the list |
| `Ballots.MajorityTest` | paxos.cc:60-72 | true exactly when twice the number of positions of the node list that name a member of the other list exceeds its length |
| `Ballots.MajorityIs` | paxos.cc:60-72 | the test used throughout the protocol is: the set of positions named by the list is more than half of all positions |
| `Ballots.QuorumsMeet` | paxos.cc:60-72 | any two lists that pass the majority test over one node list share a member, even if the node list has repeats |
| `Acceptors.AcceptorNode.constructor` | paxos.cc:251-269 | a new acceptor is the replay of its log, plus the decision of instance 1 on the very first node |
| `Acceptors.AcceptorNode.LogRead` | log.cc:17-58 | the record loop rebuilds instance, values and ballots as the replay function says |
| `Acceptors.AcceptorNode.Prepared` | paxos.cc:277-302 | the three answers of a prepare, with the promise logged before it is given |
| `Acceptors.AcceptorNode.AcceptRequested` | paxos.cc:304-321 | accepts exactly at or above the promise, logs it, leaves the promise alone |
| `Acceptors.AcceptorNode.CommitWo` | paxos.cc:342-363 | a newer instance is logged and stored and its ballots are cleared; an older one changes nothing |
| `Acceptors.AcceptorNode.Decided` | paxos.cc:323-340 | commits the accepted value of the next instance, which is the decided one |
| `Acceptors.DecidedForever` | paxos.cc:342-363 | the value of a decided instance never changes, whatever is served later, restarts included |
| `Acceptors.OldInstancesAnswered` | paxos.cc:285-288 | after a commit and any later requests, a prepare for that instance is answered with the value committed for it |
| `Acceptors.FoundersInstance` | paxos.cc:265-269 | the first node has decided instance 1 for the value it was started with, and reports it ever after |
| `Acceptors.DecisionsInOrder` | paxos.cc:323-340 | a node that is told decisions only by decide requests has every instance up to its highest in its log, whatever instances the requests name |
| `Acceptors.BootDurable` | paxos.cc:251-269 | after boot the log rebuilds the acceptor exactly when it did not decide instance 1 on top of logged ballots |
| `Acceptors.LateFirstBootForgets` | paxos.cc:251-269 | a node that promises a ballot and then boots as first node rejects that ballot for the next instance, but promises it after one more restart |
| `Acceptors.ReplayRebuilds` | log.cc:17-58 | whatever requests a durable acceptor serves, replaying its log rebuilds it up to the name part of zero ballots |
| `Acceptors.SimilarForever` | paxos.cc:277-363 | acceptors that differ only in such names give every request sequence the same answers, forever |
| `Acceptors.RestartIsInvisible` | log.cc:17-131 | a node restarted from its log answers every later request sequence as the node that never stopped |
| `Acceptors.CandidForever` | paxos.cc:277-363 | whatever an acceptor serves, restarts included, it reports no value while it has accepted nothing |
| `Proposers.NextBallot` | paxos.cc:84-88 | the next ballot is the proposer's own, above all it has used and above its acceptor's promise, and the least such |
| `Proposers.HighestAdopted` | paxos.cc:160-192 | the prepare loop ends with the value of the highest accepted ballot among the promises, and with exactly the promising nodes |
| `Proposers.FirstOfTheHighest` | paxos.cc:172-185 | of several promises with the highest ballot, the value of the first one is adopted |
| `Proposers.SameAdoption` | paxos.cc:172-185 | answers that differ only in zero ballots' names make the proposer adopt the same value |
| `Proposers.RestartsKeepTheChoice` | log.cc:17-58 | whatever its nodes have been through, a proposer gets the same promises and picks the same value as if any of them had just been restarted from their logs |
| `Proposers.ProposerNode.Prepare` | paxos.cc:148-193 | the loop computes the specified tally, and stops at an old-instance reply |
| `Proposers.ProposerNode.Accept` | paxos.cc:197-226 | returns exactly the nodes that granted the accept, in order |
| `Proposers.ProposerNode.Run` | paxos.cc:90-141 | which of the four outcomes a run has, and with which value |
| `PaxosNet.ChosenBinds` | paxos.cc:109-121 | once a majority has accepted a value, every accept request at an equal or higher ballot carries that value |
| `PaxosSteps.FirstToAsk` | paxos.cc:84-121 | a ballot reused by a restarted proposer has at most one run that asks for accepts with it |
| `PaxosSteps.AcceptsAtPromise` | paxos.cc:304-321 | an undecided acceptor accepts only at exactly the ballot it promised last, so not raising the promise changes nothing |
| `PaxosSafety.Agreement` | paxos.cc:90-370 | in every run that is `timely` and `filled`, with loss, repetition, delay, competing proposers and restarts, no two nodes decide differently, and what is decided was offered by a proposer |
| `PaxosSafety.BallotSafety` | paxos.cc:109-121 | in such runs, once an accept for a ballot and value is sent, no continuation of the run chooses another value at or below that ballot |
| `PaxosSafety.DecideNeverFails` | paxos.cc:323-340 | in such runs, the assertions in the decide handler hold whenever a decide is delivered, also after higher accepts |
| `PaxosProgress.CanDecide` | paxos.cc:84-141 | from every reachable state, any node can bring about a decision with any majority that answers, while all other nodes stay silent |
| `PaxosLoops.LoopsFollowTheCode` | paxos.cc:148-226 | in every run, whatever the rules, each proposer's loops stand where the code's loops stand on answers and grants that were really sent |
| `PaxosLoops.DecidesAsTheCode` | paxos.cc:109-129 | a proposer that decides does so as the winning outcome of `run` on such answers |
| `PaxosLoops.LearnsAsTheCode` | paxos.cc:172-177 | a proposer told of an old instance ends as `run` does, whatever the calls it leaves out would have said |
| `PaxosLoops.GivesUpAsTheCode` | paxos.cc:111-138 | a proposer without a majority of promises ends as `run` does |
| `PaxosLoops.LosesAsTheCode` | paxos.cc:121-132 | a proposer without a majority of accepts ends as `run` does |
| `PaxosLoops.AsksForTheHighest` | paxos.cc:109-121 | what a proposer asks for is the value of the highest ballot reported to it by a majority, or else its own |
| `PaxosRuns.AgreementIffStrict` | paxos.cc:304-321 | among any three nodes, agreement holds in all runs under a set of rules if and only if both `timely` and `filled` are among them |
| `PaxosRuns.LateAcceptBreaksAgreement` | paxos.cc:304-321 | over any three nodes there is a run in which accepts after a decision lead to two different decisions |
| `PaxosRuns.EmptyValueBreaksAgreement` | paxos.cc:114-115 | over any three nodes there is a run in which an accepted empty value is overlooked and two values are decided |
| `LockNodes.LockServer.Acquire` | lock_server_cache.cc:22-99 | the new entry, the reply and whether a revoke is sent, for every state of lock and queue; other locks are untouched |
| `LockNodes.LockServer.Release` | lock_server_cache.cc:101-127 | the entry is free with its queue kept, and a retry follows exactly when a client is queued |
| `LockNodes.LockClient.Acquire` | lock_client_cache.cc:36-122 | what the first critical section does in each of the five states, and what the thread waits for or calls next |
| `LockNodes.LockClient.Recheck` | lock_client_cache.cc:54-110 | one turn of each wait loop, including the wait for a retry |
| `LockNodes.LockClient.Unlock` | lock_client_cache.cc:124-168 | the lock goes to waiting threads, stays cached, or starts to go back if it was revoked |
| `LockNodes.LockClient.RevokeHandler` | lock_client_cache.cc:170-206 | a free lock nobody waits for starts to go back; otherwise the revoke is noted |
| `LockNodes.LockClient.Released` | lock_client_cache.cc:147-156 | after the release call the lock is nobody's here, and a thread that waits to acquire it is signalled |
| `LockNodes.LockClient.RetryHandler` | lock_client_cache.cc:208-226 | the retry is noted, and a thread that waits for it is signalled |
| `LockNodes.LockClient.Answered` | lock_client_cache.cc:248-296 | a granted lock is taken up; otherwise a retry that has come is used, or waited for |
| `LockNodes.LineMoves` | lock_server_cache.cc:34-93 | an acquire served while clients are in line is granted to the first of them, or joins at the end |
| `LockStages.ServeKeeps` | lock_server_cache.cc:22-99 | serving an acquire keeps owner, line, revokes and retries consistent across all clients |
| `LockStages.Released` | lock_server_cache.cc:101-127 | a release finds somebody in line, and leaves exactly one wake-up for the front under way |
| `LockRuns.RunKeeps` | lock_client_cache.cc:36-296 | the invariant over server, clients, threads and messages holds in every reachable state |
| `LockRuns.MutualExclusion` | lock_server_cache.cc:22-127 | at most one thread of all clients holds the lock; a client that has it cached or is giving it back is the recorded owner, and the owner has it or its grant is on the way; a free lock has no owner |
| `LockRuns.NoLostWakeup` | lock_server_cache.cc:34-124 | with clients in line, either a revoke or a release of the owner, or a retry or second acquire of the front, is under way |
| `LockRuns.WaiterHasServer` | lock_client_cache.cc:46-110 | inside a client, a thread that waits for the lock has been woken, or a thread of the client holds it, is acquiring it, or waits to acquire it once it is back; that one has been woken, or the release is under way; one that waits for a retry is in line, and woken if the retry is there |
| `LockRuns.NeverStuck` | lock_client_cache.cc:46-226 | whenever some thread wants or holds the lock, the program or the holder can take a step that ends a wait or moves a call on |
| `LockService.BoundedService` | lock_client_cache.cc:36-296 | however events interleave, the program takes at most 26 steps for each acquire |
| `LockService.AllServed` | lock_client_cache.cc:36-296 | when no step is left, every thread is done |
| `LockService.OneReleasePerAcquire` | lock_client_cache.cc:36-168 | each acquire of a thread is followed by one release, before which the thread held the lock |
| `LockService.EveryAcquireServed` | lock_client_cache.cc:36-296 | from every reachable state, without new acquires, the run can be continued until every thread is done and every acquire was followed by a release |
| `LockRuns.RetriedAcquireGranted` | lock_client_cache.cc:248-296 | the acquire after a retry finds the lock free with its client in front, so the failure branches are never taken |
| `LockRuns.RevokeNeverStale` | lock_server_cache.cc:34-93 | a revoke reaches the present owner, although it was read outside the mutex; never two at once |
| `LockRuns.RetryNeverStale` | lock_server_cache.cc:101-124 | a retry reaches the present front of the line, which waits for it; never two at once |
| `LockRuns.FirstComeFirstServed` | lock_server_cache.cc:34-93 | the clients told to wait are the clients admitted while others waited, in the same order, followed by the queue; no client is queued twice |
| `LockRuns.OneRevokePerGrant` | lock_server_cache.cc:36-72 | each grant is revoked once, as soon as another client is in line and not before |
| `Extents.ExtentServer.PutExtent` | extent_server.cc:24-37 | stores text and size under one id |
| `Extents.ExtentServer.GetExtent` | extent_server.cc:39-53 | returns the stored text, or NOENT |
| `Extents.ExtentServer.GetAttributes` | extent_server.cc:55-74 | returns the size of the stored text, or IOERR |
| `Extents.ExtentServer.RemoveExtent` | extent_server.cc:76-99 | removes text and attributes together |
| `Extents.ExtentClient.GetExtent` | extent_client.cc:23-46 | answers from the cache, or fetches and caches a clean copy, also of an extent that is not there |
| `Extents.MissingExtent` | extent_client.cc:23-46 | a missing extent reads as empty with IOERR, and is then cached, so the next read succeeds |
| `Extents.ExtentClient.GetAttributes` | extent_client.cc:48-70 | answers from the cached attributes or fetches them |
| `Extents.ExtentClient.PutExtent` | extent_client.cc:72-104 | caches the text as dirty together with its size |
| `Extents.ExtentClient.RemoveExtent` | extent_client.cc:106-113 | forgets the extent, which is how a removal is remembered |
| `Extents.ExtentClient.Flush` | extent_client.cc:115-141 | writes a dirty text back, removes what is not cached at all, and leaves nothing cached |
| `Extents.FlushKeepsTruth` | extent_client.cc:115-141 | a flush leaves at the server what the users' operations say, if and only if the server had nothing, or the stay did something and read nothing it had removed |
| `Extents.GetTellsTruth` | extent_client.cc:23-46 | when exactly `get` returns the last text put, for any sequence of operations before it |
| `Extents.GetAttrTellsTruth` | extent_client.cc:48-70 | the same for the size returned by `getattr` |
| `Extents.CarefulIsSound` | extent_client.cc:23-141 | a stay that does something and reads only what is there gets true answers throughout and a true flush |
| `Extents.UnsoundStays` | extent_client.cc:115-141 | a stay that leaves an extent alone removes it; reading a removed extent brings it back |
| `Coherence.NothingCachedWithoutLock` | lock_client_cache.cc:124-206 | in every run, a client that does not own the lock, or has not taken it up yet, has nothing cached |
| `Coherence.FaithfulIffSound` | lock_client_cache.cc:303-305 | in every run over all clients, all flushes hand over the truth if and only if all stays were sound |
| `Coherence.HandedOver` | lock_client_cache.cc:138-156 | with sound stays, whenever no client has the lock the server holds the truth; a removed extent is gone |
| `Coherence.ReadsTellTruth` | extent_client.cc:23-70 | with sound stays, what a holder reads is the last text put by any client, exactly in a sound place |
| `RpcClients.RpcClient.UpdateXidRep` | rpc/rpc.cc:384-408 | the list stays sorted and stands for the set of done ids: its head is the largest k with 1 to k done, the rest what is done above |
| `RpcClients.RpcClient.Compress` | rpc/rpc.cc:402-407 | the loop pops exactly the heads whose successor is done and never the node its iterator is on |
| `RpcClients.RpcClient.StartCall` | rpc/rpc.cc:208-214 | a new id, and a header that acknowledges the front of the done set |
| `RpcClients.RpcClient.GotPdu` | rpc/rpc.cc:360-378 | the first reply of a waiting call is kept, later ones and strays only count as done |
| `RpcClients.RpcClient.EndCall` | rpc/rpc.cc:286-298 | the call is gone and done, answered or not |
| `RpcClients.RpcClient.Remember` | rpc/rpc.cc:300-309 | in lossy mode the client keeps one request and the highest answered acknowledgement |
| `RpcClients.RpcClient.ForgottenRequest` | rpc/rpc.cc:232-242 | the kept request is taken exactly when the answered acknowledgement has passed it |
| `RpcServers.RpcServer.CheckDuplicateAndUpdate` | rpc/rpc.cc:661-729 | verdict and new memory for the client, other clients untouched |
| `RpcServers.RpcServer.TrimList` | rpc/rpc.cc:708-727 | the erasing loop keeps exactly the unacknowledged entries and reports the others |
| `RpcServers.RpcServer.StoreReply` | rpc/rpc.cc:731-750 | the reply goes into the entry of the call if it is still there |
| `RpcServers.CheckUpdates` | rpc/rpc.cc:661-729 | new means never seen; a seen id stays known forever; exactly the acknowledged ids are forgotten; no id is kept twice |
| `RpcServers.AddReplyUpdates` | rpc/rpc.cc:731-750 | storing a reply changes the entry of that call and nothing else |
| `Rpc.AtMostOnce` | rpc/rpc.cc:579-750 | over any loss, repetition and reordering the handler of a call is started at most once, and the server's lists stay free of repeats and disjoint |
| `Rpc.RepliesAreOutputs` | rpc/rpc.cc:348-382 | a call that got a reply got the output of its one execution, never a failure |
| `RpcReplies.OutputsAreSent` | rpc/rpc.cc:600-625 | in every run, the output of every completed handler was sent to the client |
| `RpcReplies.RequestAnswered` | rpc/rpc.cc:579-643 | an arriving request starts its handler exactly if none was started; otherwise it is answered with the stored output if there is one, with a failure exactly if the call was forgotten, and with nothing while the handler runs |
| `RpcReplies.PendingCanBeAnswered` | rpc/rpc.cc:348-382 | from every reachable state, every waiting call can still get its reply: the output it has, or that of its first execution |
| `Rpc.PendingNeverForgotten` | rpc/rpc.cc:708-727 | while a call waits no header acknowledges it, the server has not forgotten it, and no failure reply for it exists |
| `RpcReplies.AcknowledgedAreForgotten` | rpc/rpc.cc:708-727 | when a new call has arrived, the server keeps replies only for calls beyond those the client was done with in a row |
| `RpcReplies.IdleAcknowledgesAll` | rpc/rpc.cc:384-408 | a client without pending calls acknowledges all its calls in its next request |
| `Rpc.ResentIsForgotten` | rpc/rpc.cc:232-242 | the deliberately resent request is classified as forgotten however late it arrives, and nobody waits for it |
| `RpcReplies.DueIffPassed` | rpc/rpc.cc:232-242 | in every run, the kept request is due to be resent exactly if a call that carried a later acknowledgement was recorded |
| `RpcReplies.KeptRequestIsResent` | rpc/rpc.cc:300-309 | the first answered call to end in lossy mode is kept, and is resent and answered with a failure once an answered call that acknowledges it has ended |
| `Views.Members` | config.cc:127-137 | the stream loop returns the words of the text |
| `Views.WordsSplit` | config.cc:127-137 | white space separates words wherever it stands |
| `Views.SpaceIs` | config.cc:127-137 | the white space of a stream is exactly six characters |
| `Views.Value` | config.cc:139-148 | the loop writes each name and a space |
| `Views.MembersOfValue` | config.cc:127-148 | a view is read back from its text if and only if every name is non-empty and free of white space |
| `Views.RemoveWo` | config.cc:227-237 | the loop returns the view without the name |
| `Views.Suspect` | config.cc:272-306 | in a view that is still current after the pings, the node proposed for removal is another member that did not answer, and the proposer or the node has the smallest name; the member with the smallest name proposes the first in the list that did not answer; none is proposed only if all those pinged answered; the removal leaves a member |
| `Views.JoinRequest` | rsm.cc:364-375 | a join leads to a proposal exactly if the node is not a member and the primary's view is current, and then adds a new member |
| `Views.ProposalsAreFilled` | config.cc:202-248 | no proposal of the configuration is the empty string |
| `Views.ViewChain` | config.cc:202-248 | every view is what its proposer wrote: non-empty, without repeats, one member away from the view before |
| `Views.NextView` | config.cc:202-248 | a view is the one before with the new member at the end, or with one member left out where it stood |
| `Views.Seniority` | config.cc:202-248 | in every chain, a view lists its members strictly in the order in which they joined last |
| `Views.RsmNode.SetPrimary` | rsm.cc:406-430 | keeps a primary that is still a member, else takes the first old member in the new view, else fails |
| `Views.RsmNode.CommitChange` | rsm.cc:277-290 | a newer view is taken up with its primary, an older one ignored |
| `Views.PrimaryIsOldest` | rsm.cc:406-430 | nodes that apply every view agree: the primary is the first member of the view, belongs to both views, and the final assertion is unreachable |
| `Views.PrimaryIsSenior` | rsm.cc:406-430 | such a primary joined before every other present member |
| `Views.LateJoinerAgrees` | rsm.cc:148-152 | a node that jumps to the newest view ends up with the common primary if and only if its own is not in the view or is the right one |
| `Views.ReturningFounderDisagrees` | rsm.cc:148-152 | a founder that was removed and joins again takes itself for the primary while all others have another |
| `Codec.RoundTrip` | rpc/marshall.h:211-260 | decoding the encoding of any nested value followed by anything returns the value and leaves the rest |
| `Codec.CutIsNoticed` | rpc/marshall.h:128-260 | decoding any proper prefix of an encoding leaves `ok` false |
| `Codec.ScalarsOnTheWire` | rpc/rpc.cc:802-871 | an integer of each width is written most significant byte first, in two's complement; a bool is one byte, and any but zero reads as true |
| `Codec.StringOnTheWire` | rpc/rpc.cc:857-863 | a string is its length in four bytes and its characters |
| `Codec.VectorOnTheWire` | rpc/marshall.h:211-218 | a vector is its length and its elements one after the other |
| `Codec.MapOnTheWire` | rpc/marshall.h:234-244 | a map is its size and its pairs one after the other, the key first |
| `Codec.LastPairWins` | rpc/marshall.h:246-260 | of several pairs read with one key the last value counts |
| `Codec.StringCutShort` | rpc/rpc.cc:991-1012 | a string with fewer characters than its length is not read at all, and `ok` is lost |
| `Codec.NumberOfNothing` | rpc/rpc.cc:911-990 | past the end every number reads as zero, and `ok` is lost |
| `Buffers.Marshall.constructor` | rpc/marshall.h:53-58 | a new buffer has its initial capacity and an empty body after the header |
| `Buffers.Marshall.RawByte` | rpc/rpc.cc:777-787 | appends one byte, doubling the capacity exactly when full; all else is kept |
| `Buffers.Marshall.RawBytes` | rpc/rpc.cc:789-800 | appends a string; the capacity stays, doubles or grows by the length, exactly by the code's test, and always suffices |
| `Buffers.Marshall.WriteNum` | rpc/rpc.cc:809-871 | appends the big-endian bytes of an integer of each width |
| `Buffers.Marshall.Write` | rpc/marshall.h:211-244 | appends the encoding of a nested value |
| `Buffers.Marshall.PackReqHeader` | rpc/marshall.h:83-96 | fills the header in front of a finished body and leaves body, position and first word alone |
| `Buffers.Marshall.PackReplyHeader` | rpc/marshall.h:98-108 | the same for the shorter reply header |
| `Buffers.ReplyFields` | rpc/marshall.h:98-108 | a packed reply header has the transaction id in its second word and the result in its third |
| `Buffers.Unmarshall.TakeIn` | rpc/rpc.cc:891-900 | takes over a message, which is sound only if it has room for a header |
| `Buffers.Unmarshall.OkDone` | rpc/rpc.cc:902-910 | true exactly when all went well and nothing is left |
| `Buffers.Unmarshall.ReadBytes` | rpc/rpc.cc:1001-1012 | reads so many bytes, or none and loses `ok` if there are fewer, or if the position is past the end |
| `Buffers.Unmarshall.ReadNum` | rpc/rpc.cc:911-990 | reads an integer as specified; past the end it reads zeros and `ok` is lost |
| `Buffers.Unmarshall.Read` | rpc/marshall.h:220-260 | reads a nested value as the decoder specifies |
| `Buffers.Unmarshall.UnpackReqHeader` | rpc/marshall.h:175-187 | reads back a packed header; a message too short for one is noticed |
| `Buffers.Unmarshall.UnpackReplyHeader` | rpc/marshall.h:189-198 | the same for the reply header, which needs twelve bytes only |
| `Splitting.Split` | split.h:21-63 | the loop ends and returns the tokens, for any delimiter, empty or not, and both flags |
| `Splitting.JoinInvertsSplit` | split.h:21-63 | joining the tokens of any string with the delimiter gives the string again |
| `Splitting.SplitInvertsJoin` | split.h:21-63 | splitting a joined list gives the list if and only if the delimiters can be told from the tokens |
| `Splitting.SplitAtAny` | split.h:21-63 | split at any of several characters, the tokens contain none of them, and woven with the characters found give the string again |
| `Splitting.NoDelimiter` | split.h:21-63 | an empty delimiter leaves the string as its only token |
| `Splitting.NonEmptyAppend` | split.h:21-63 | removing empty tokens keeps the others in their order |
| `Directory.YfsClient.Lookup` | yfs_client.cc:113-154 | finds the first entry with the name, or reports a missing directory |
| `Directory.YfsClient.AddDirent` | yfs_client.cc:156-178 | appends the line of the entry and puts an empty extent for the file; all other extents stay |
| `Directory.YfsClient.Unlink` | yfs_client.cc:180-214 | keeps the text of exactly the entries with other names and removes the extent of the file; all other extents stay |
| `Directory.YfsClient.ReadDir` | yfs_client.cc:216-249 | lists the entries of the text in order |
| `Directory.YfsClient.CreateFile` | fuse.cc:252-278 | creates exactly a name that is not found, in a directory that exists |
| `Directory.YfsClient.RemoveFile` | fuse.cc:535-560 | removes exactly a name that is found and is not a directory |
| `Directory.FileBit` | yfs_client.cc:46-52 | exactly the numbers with bit 31 set are files |
| `Directory.RemovableIffFile` | fuse.cc:535-560 | after any run, a new name can be created, and is removed again without trace if bit 31 of its number is set, and otherwise refused |
| `Directory.ParseDecimal` | yfs_client.cc:29-44 | reading a number back from its decimal text |
| `Directory.DigitsOf` | yfs_client.cc:38-44 | each digit of the decimal text stands for its power of ten, without leading zeros |
| `Directory.ParseStops` | yfs_client.cc:29-36 | reading a number stops at the first character that is not a digit |
| `Directory.TwoFieldsAreAnEntry` | yfs_client.cc:134-148 | a piece of a directory's text is an entry exactly if it has two fields |
| `Directory.FirstIsFound` | yfs_client.cc:113-154 | of several entries with one name the first is found |
| `Directory.UnlinkAnyText` | yfs_client.cc:180-214 | whatever the text, unlinking leaves exactly the entries with other names, and drops what is no entry |
| `Directory.AddedIsListed` | yfs_client.cc:156-178 | a new entry is listed after the others if and only if its name is non-empty and has no delimiter |
| `Directory.CreateKeepsFiles` | fuse.cc:262-278 | a new file leaves every entry its own extent if and only if its number is neither the directory's nor in use there; all other extents stay |
| `Directory.RemoveKeepsFiles` | yfs_client.cc:180-214 | removing a file takes its entry and its extent away and leaves every other entry its own extent |
| `Directory.RunKeepsFiles` | fuse.cc:252-278 | after any run of creates and unlinks with fresh numbers, every entry has an extent of its own |
| `Directory.RunRefinesMap` | fuse.cc:252-278 | after any run of checked creates and unlinks, the text lists exactly the map's entries in insertion order without repeats, lookups agree with the map, and so did every answer |

## Left out

- Leader election (`config.cc` from line 350 on) and the parts of `rsm.cc` that are stubs: state transfer, synchronisation, invocation.
- Paxos across instances: one instance at a time; that views follow each other as agreed is the hypothesis of the view chain.
- Fairness in Paxos: that a decision can always be reached is proved, but proposers may keep outbidding each other.
- Integer widths of ballot counters, transaction ids, inode numbers and extent sizes: all unbounded, so wrap-around does not occur.
- The text layer of the Paxos log: the log is a sequence of records.
- Sockets, connections, thread pools, timeouts, clocks and random numbers: any event may happen at any time, and values from outside are parameters.
- RPC across server incarnations, binding, cancelling, and clients with nonce zero, for which the server keeps no memory.
- Failing revoke, retry and release calls in the lock protocol: the lock code has no recovery for them, and the model's calls always return.
- Access, modification and change times of extents: of the attributes only the size is modelled.
- The order of keys inside an encoded map: a map is the list of its pairs as it is iterated.
- File contents: reading, writing at an offset and truncating; they add no new protocol.
- Lifetime of raw buffers, and handing a buffer over to the transport.
- Buffers.Unmarshall.ReadBytes: the bounds check adds in unbounded integers, where the code adds 32-bit unsigned ones; they differ only for a length field near 2^32, which no encoding of a message that fits in memory contains.
- Buffers.Marshall.RawBytes: positions and capacities are unbounded, where the code has 32-bit signed ones.
- Directory.YfsClient.CreateFile: the random choice of the inode number is a parameter; locks are not part of it, and `get` and `put` always reach the extents.
- Views.Suspect: heartbeat calls are a predicate on names, fixed during one round.
