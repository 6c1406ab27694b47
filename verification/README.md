# Verification of the threshold-signature coordination layer

This project models how the nodes of the TSS service coordinate key generation and key signing, and
proves what the coordination guarantees whatever is delayed, lost, refused or interleaved. The
cryptography of tss-lib is not modelled: it is an oracle that puts out messages, a result or an error.

Verify everything with `dafny verify dfyconfig.toml`; the project is written for Dafny 4.11.

## The files

| files | what they hold |
|---|---|
| `Wrappers.dfy`, `TssTypes.dfy`, `SeqLemmas.dfy`, `Routing.dfy`, `StreamLog.dfy`, `Mailing.dfy` | shared values: messages, key data, distinct sequences, addressees, the order of messages on a control stream, what handlers put out, post and get |
| `ByteOrder.dfy`, `Storage.dfy` | the LevelDB table as an ordered sequence in a class, and the map it refines |
| `KeyStore.dfy`, `Manager.dfy` | that map with its three guarded changes and their invariant, and the manager's methods on the storage object |
| `Framing.dfy` | length-prefixed messages on a byte stream, with the stream object |
| `KeyGenModel.dfy`, `KeyGenInvariant.dfy`, `KeyGenTheorems.dfy`, `KeyGenMail.dfy`, `KeyGenFailure.dfy`, `KeyGenPossible.dfy`, `KeyGenLookup.dfy` | key generation: one machine for all nodes, calls, goroutines, handlers, streams and stores; its inductive invariant; what follows; its session messages; why it fails; exactly which calls can succeed, and which can displace a key in look-ups |
| `KeySignModel.dfy`, `KeySignInvariant.dfy`, `KeySignTheorems.dfy`, `KeySignStreams.dfy`, `KeySignClosing.dfy`, `KeySignFailure.dfy` | the signing coordinator: goroutines over bounded channels, against arbitrary participants; what it closes and why it fails |
| `KeyGenCoordinator.dfy` | the two select loops of `KeyGen` as loops |
| `Streams.dfy`, `KeyGenHandler.dfy`, `KeySignHandler.dfy` | the two participants as classes whose methods run on the storage object, a control stream and a session network |
| `KeySignSystem.dfy`, `KeySignSystemInvariant.dfy`, `KeySignSystemTheorems.dfy`, `KeySignMail.dfy`, `KeySignPossible.dfy` | a whole signing session: that coordinator, a handler at the far end of every stream, and stores that key generation goes on changing; its session messages; exactly when it can return a signature |

The layers meet: the manager's methods refine the map operations of `KeyStore` over the storage
object; both protocol machines change and read stores by those operations only, and each storage call
of the key generation handler is the step of its machine for the same Prepare (`StoresLike`); the session of
`KeySignSystem` contains the coordinator of `KeySignModel`, so all that is proved of the coordinator
holds in it; and `SigningRunAfterKeyGen` starts a session on the stores that a finished key generation left.

Code that runs by itself is a method: storage, the manager, framing, the participants' handlers and
the coordinators' loops. What depends on interleaving is proved of the three protocol machines, whose
steps are the sends, receives, channel operations and storage calls of those methods.

In the three protocol machines `Run` is any finite sequence of steps, `Leg` is one listed party's
goroutine (in key generation with its stream and handler), and the theorems quantify over every run,
state, party and, for key generation, any number of nodes and of calls running at once.

## What is assumed

- Session ids are fresh for every call and, being UUID texts, hold no colon.
- All nodes run this code. `KeySignTheorems` and `KeySignStreams` do not need this.
- Streams are first-in first-out, authenticated, and belong to the party that was dialled. Any dial,
  send or receive may fail at any time; a failed send may yet have delivered its message, and a
  session message that was sent may reach nobody. Which sends and receives of a handler method fail is
  a free function of their number.
- The manager's lock makes each storage call one atomic step. Storage calls do not fail, writes are
  durable, and every store starts empty.
- Marshalling and unmarshalling are an inverse pair, and parsing an empty JSON text fails; a committed
  public key and save data are never empty.
- tss-lib, the validator, dev mode and the contexts decide freely; a context that is done stays done.
- A party list has at most 2^31 - 1 members; one that travels in a message is far smaller.

## What the proofs turned up

- A key id that continues another one with a colon is met by scans for the shorter one. The scan is
  exact exactly when no such key id is stored (`ScanExactIff`). A later key `k:x` replaces `k` in
  look-ups of `k`: calls for another key id can do that exactly when it continues the first one with a
  colon (`SearchStableIff` for one store, `LookupStableIff` for the whole system, with the runs).
- Composite database keys are injective for colon-free session ids and collide without that
  (`DbKeyInjective`, `DbKeyCollides`).
- The sender does not bound a message, the receiver refuses above 20 MiB (`RecvFrameIff`,
  `RecvRefusesLong`). A stream that is cut right after a length field reads as a clean end (`StreamCut`).
- The selection loop of `KeySign` can wait for nothing but its context exactly when the key names fewer
  distinct parties than it needs (`SelectionNeverStuckIff`). A negative threshold needs one.
- A party list that repeats an id can never pass the ready barrier of `KeyGen`, although nothing
  checks for that (`Barrier`, `SuccessPossibleIff`). `KeyGen` never looks at the threshold.
- If `KeySign` leaves its selection loop with an error, the streams that had become ready are left
  open: the deferred closing is registered only after the selection (`LeavesReadyOpen` is such a run).
  With the context alive every dialled stream is sure to be closed exactly when the key has one party
  at most (`ClosesEverythingIff`); `AllClosedIff` says for every outcome which streams stay open.
- `handleKeySign0` never looks at the status of the key data; that a participant is ready only for a
  ready key rests on the store invariant (`StatusGuard`).

## Model

| member | source | states |
|---|---|---|
| ByteOrder.LessMeaning | tss/tss_storage.go:46-58 | the order of database keys: a proper prefix first, else by the byte where two keys first differ |
| Storage.DbKeyInjective | tss/tss_storage.go:78-87 | a database key determines key id and session id when session ids hold no colon |
| Storage.DbKeyCollides | tss/tss_storage.go:64-65 | without that, two entries can share a database key |
| Storage.PrefixSelects | tss/tss_storage.go:44-53 | the scan prefix selects the keys of the key id and of key ids continuing it with a colon, and no others |
| Storage.Seek | tss/tss_storage.go:46 | the iterator starts at the first key that is not below the prefix |
| Storage.PutKeepsOrder | tss/tss_storage.go:78-87 | a write keeps the table ordered and filed by its data |
| Storage.GetAfterPut | tss/tss_storage.go:64-87 | a read returns the last write of its key and is unaffected by writes of other keys |
| Storage.PutRefines | tss/tss_storage.go:78-87 | a write to the table is the update of one entry of the map |
| Storage.ScanOrdered | tss/tss_storage.go:50-61 | the scanned list is in key order and repeats nothing |
| Storage.ScanMeaning | tss/tss_storage.go:44-62 | the scanned list is exactly what the map holds under the key id and those that extend it |
| Storage.ScanExactIff | tss/tss_storage.go:44-62 | the list holds only the key id's own entries if and only if no stored key id extends it |
| Storage.LevelDBStorage.GetKeyDataListByKeyId | tss/tss_storage.go:44-62 | seeking and stopping at the first other key finds every entry with the prefix in the whole table |
| Storage.LevelDBStorage.GetKeyDataByKeyIdAndKeySessionId | tss/tss_storage.go:64-76 | a point read is a look-up in the map |
| Storage.LevelDBStorage.SetKeyData | tss/tss_storage.go:78-87 | a write updates one entry of the map and keeps the table valid |
| KeyStore.OpKeepsInv | tss/tss_manager.go:95-131 | every storage call keeps: one pending or ready session per key id, payload exactly in ready entries; ready entries are frozen, an error can only become pending again; threshold, parties and creation time are fixed from pending on |
| KeyStore.RunKeepsInv | tss/tss_manager.go:200-230 | that invariant holds over every run of the storage calls |
| KeyStore.OpTouchesOneEntry | tss/tss_manager.go:212-226 | a storage call changes no other session's entry |
| KeyStore.ReadyIsFrozen | tss/tss_manager.go:219-226 | over every run entries are never removed and a ready entry never changes again |
| KeyStore.OthersAreErrors | tss/tss_manager.go:110-116 | beside a pending or ready entry of a key id there are only failed ones |
| KeyStore.LookupFindsTheReadyEntry | tss/tss_manager.go:169-189 | with a ready entry and no extending key id, every search for the newest ready entry finds it |
| KeyStore.LookupFindsItIff | tss/tss_manager.go:169-189 | what a search returns, in other words: it is sure to find a given ready entry if and only if the other ready entries it meets are older |
| KeyStore.SearchStableIff | tss/tss_manager.go:169-189 | over all runs of the storage calls with two key ids, searches for the first go on finding its ready entry if and only if the second does not continue it with a colon |
| KeyStore.SearchDisplaced | tss/tss_manager.go:169-189 | the run in which they do not: the key is generated, then one that continues its id |
| Manager.RefusalMeaning | tss/tss_manager.go:105-116 | the scan refuses a generation exactly when the map holds a pending or ready entry it meets |
| Manager.FirstLiveDecides | tss/tss_manager.go:110-116 | the first pending or ready entry met decides which error refuses a generation |
| Manager.NewestMeaning | tss/tss_manager.go:179-187 | the newest ready entry of the scanned list is the newest ready one that the map holds for the scan |
| Manager.Manager.CheckAndSetKeyGenStorage | tss/tss_manager.go:95-131 | sets the entry pending unless a pending or ready one is met, with the error of the first such |
| Manager.Manager.GetLatestReadyKeyDataByKeyIdFromStorage | tss/tss_manager.go:169-189 | returns the first newest ready entry, or none if and only if there is none |
| Manager.Manager.GetKeyDataByKeyIdAndKeySessionIdFromStorage | tss/tss_manager.go:191-198 | returns the named entry of the map |
| Manager.Manager.CompareAndSetKeyStatusStorage | tss/tss_manager.go:200-230 | updates the entry if and only if it has the expected status, and otherwise changes nothing |
| Framing.LengthRoundTrip | tss/tss_p2p.go:241-243 | the four little-endian bytes of a length give the length back |
| Framing.FrameBytes | tss/tss_p2p.go:241-252 | the wire format: the four bytes of the length from the lowest on, each by its place, then the payload |
| Framing.RecvFrameIff | tss/tss_p2p.go:263-286 | a frame is received as what was sent, with exact consumption, if and only if its payload has at most 20,971,520 bytes |
| Framing.RecvRefusesLong | tss/tss_p2p.go:270-273 | a message of 20,971,521 bytes or more, up to the width of the length field, is refused by its receiver |
| Framing.StreamRoundTrip | tss/tss_p2p.go:236-286 | any list of messages within the bound comes out as it went in, then a clean end |
| Framing.RecvTruncated | tss/tss_p2p.go:274-279 | a truncated frame is an error, never a message |
| Framing.StreamCut | tss/tss_p2p.go:263-286 | cutting the stream anywhere yields exactly the whole frames before the cut, then an error |
| Framing.LibP2PStream.SendMsg | tss/tss_p2p.go:236-261 | a successful send puts one frame on the stream, a failed one a proper part of it |
| Framing.LibP2PStream.RecvMsg | tss/tss_p2p.go:263-286 | filling the two buffers from the stream is the receive function of the theorems |
| Framing.NetworkStream.Fill | tss/tss_p2p.go:265 | a buffer is filled entirely from the stream, or the stream's end is reported |
| Routing.OthersExact | tss/tss_keygen.go:418-425 | the addressees of a broadcast are every other member once, for distinct ids, and never the sender |
| Routing.CollectOthers | tss/tss_keysign.go:738-745 | the loop over the party list collects exactly those addressees |
| KeyGenInvariant.NextKeepsInv | tss/tss_keygen.go:19-482 | every step of the system keeps the invariant over coordinators, streams, handlers and stores |
| KeyGenInvariant.RunInv | tss/tss_keygen.go:19-482 | the invariant holds in every state of every run |
| KeyGenTheorems.Barrier | tss/tss_keygen.go:85-130 | once Start is sent to anyone, every listed party has stored the request, passed validation unless in dev mode, and sent Ready; the list is then not empty and repeats no id |
| KeyGenTheorems.CommitAgreement | tss/tss_keygen.go:133-153 | after success, for ever, every listed party holds a ready entry as requested, and the returned key is one that a listed party stored |
| KeyGenTheorems.OneKeyAgreement | tss/tss_keygen.go:463-477 | if tss-lib gave the session one key, the returned one is what every listed party stored |
| KeyGenTheorems.SuccessIsForever | tss/tss_keygen.go:145-152 | a call that returned success stays returned, with its request |
| KeyGenTheorems.Exclusive | tss/tss_keygen.go:95-153 | two calls for one key whose party lists share a member never both return success, whenever they run |
| KeyGenTheorems.StableLookup | tss/tss_manager.go:169-189 | after success, looking the key up at any listed party finds that session, for ever, while no request continues the key id with a colon |
| KeyGenTheorems.StableLookupIff | tss/tss_manager.go:169-189 | in any later state the session's entry is still there, and the look-up is sure to find it if and only if the other ready entries it meets are older |
| KeyGenLookup.LookupStableIff | tss/tss_manager.go:169-189 | with calls for one other key id beside it, a successful call's session goes on being found at every listed party in every run if and only if that key id does not continue the first with a colon |
| KeyGenLookup.Displaced | tss/tss_keygen.go:283-289 | a run of two successful calls, after which the look-up finds the second key's entry for the first key |
| KeyGenPossible.CallSucceeds | tss/tss_keygen.go:85-153 | from any reachable state a new call for a servable request whose parties hold nothing in its way can succeed, with everything else unchanged |
| KeyGenTheorems.Decided | tss/tss_keygen.go:203-262 | unless a handler of the session at the node has yet to settle it, its entry there is absent, ready or failed, not pending |
| KeyGenTheorems.TruthfulSuccess | tss/tss_keygen.go:463-477 | a success that was sent is backed, for ever, by a ready entry with the same public key |
| KeyGenTheorems.TruthfulFailure | tss/tss_keygen.go:203-253 | with one handler per node, a failure that was sent means that the entry is absent or failed, for ever |
| KeyGenTheorems.StepTouchesOwnEntry | tss/tss_keygen.go:209-221 | no step changes an entry of another session than the one that acts |
| KeyGenTheorems.Conformance | tss/tss_keygen.go:53-81 | every control stream keeps to Prepare, Ready, Start, Finish, up to a crossing failure; no end reads an unexpected kind, no event loop meets an unknown sender or misses itself |
| KeyGenMail.Integrity | tss/tss_keygen.go:431-451 | a session message that arrives was put out by the member that it names, with these bytes and this flag and for its reader; an error that arrives is the one that its sender raised the alarm for |
| KeyGenMail.AtMostOnce | tss/tss_keygen.go:222-243 | a message arrives no more often than it was sent there; for distinct ids a broadcast no more often than it was put out, and an error once |
| KeyGenMail.SendsWhatIsPutOut | tss/tss_keygen.go:412-451 | what a handler sends is what its loop put out, in order, cut off in the last message at most; when it is done with a failure it has told every other member |
| KeyGenMail.BroadcastExactlyOnce | tss/tss_keygen.go:418-451 | a broadcast after which the loop went on was sent, with its bytes, to every other member once and not to the sender |
| KeyGenFailure.FailureProvenance | tss/tss_keygen.go:100-143 | with the context alive, the error that KeyGen returns is that of a goroutine which read no Finish, or the reason of a failed Finish that one read |
| KeyGenFailure.FailureHasAlarm | tss/tss_keygen.go:203-253 | a failed Finish sent after a Prepare gives the reason for which its sender, or a member that told it so, raised the alarm |
| KeyGenPossible.SuccessPossibleIff | tss/tss_keygen.go:85-153 | a call can return success if and only if its party list is not empty, repeats no id and names nodes only |
| KeyGenCoordinator.WaitForReady | tss/tss_keygen.go:95-108 | the loop passes exactly at the first arrival that makes the map as large as the list, and then everyone was heard ready and no id is listed twice; it fails exactly at the first context end or error before that, and otherwise waits |
| KeyGenCoordinator.FullMap | tss/tss_keygen.go:103-106 | as many listed ids as the list is long are all of them, and then the list repeats none |
| KeyGenCoordinator.WaitForFinish | tss/tss_keygen.go:132-154 | the loop succeeds with the last public key exactly after as many successes as parties with no failure before, and ends with the reason of the first failure |
| Streams.SessionNetwork.SendAll | tss/tss_keygen.go:431-451 | the addressees are sent to in order, up to the first failure, and it succeeds if and only if none fails |
| Streams.LoopStopsAt | tss/tss_keygen.go:361-481 | if nothing fails to be sent, the loop takes exactly the events up to the first that does not pass, and sends what those before it say |
| Streams.OutboxIsPosted | tss/tss_keygen.go:412-451 | the letters of the handler methods are those that the handlers of the machines post |
| KeyGenHandler.KeyGenHandler.SetPending | tss/tss_keygen.go:281-291 | unless refused, the entry is pending with the key id, session id, threshold and party list of the Prepare and the creation time; the call is a step of the machine |
| KeyGenHandler.KeyGenHandler.CommitEntry | tss/tss_keygen.go:463-471 | a pending entry becomes ready with both the public key and the save data put out, and keeps the rest; the call is a step of the machine |
| KeyGenHandler.KeyGenHandler.FailEntry | tss/tss_keygen.go:209-216 | a pending entry becomes failed with both emptied, and keeps the rest; the call is a step of the machine |
| KeyGenHandler.StoresLike | tss/tss_keygen.go:281-471 | wherever the machine's handler of the same Prepare may make one of these three calls, it has the same effect there |
| KeyGenHandler.KeyGenHandler.HandleKeyGen0 | tss/tss_keygen.go:265-482 | the entry is set as the Prepare says and then made ready with the produced output, failed on another's error, or left pending; nothing else changes; Ready is sent exactly after storing and validation; whether a run starts and what is returned is fixed by the events |
| KeyGenHandler.KeyGenHandler.EventLoop | tss/tss_keygen.go:361-481 | the loop stops at the first event that does not pass or whose letters fail, sends exactly what the events before it say, and stores and returns what the last says |
| KeyGenHandler.KeyGenHandler.HandleKeyGen | tss/tss_keygen.go:157-263 | one Finish is sent last and says how the run ended: produced output is a success with its public key, an error of another member its reason, else the error's text; unless refused, the entry ends as the Prepare says, ready with that output or failed; a failure of its own is told to every other member once |
| KeyGenHandler.SettledKeepsInv | tss/tss_keygen.go:157-263 | what a handler leaves in the store keeps the invariant of the store |
| KeySignHandler.KeySignHandler.FindKey | tss/tss_keysign.go:527-579 | the key data is found if and only if the entry is ready, the validator agrees unless in dev mode, and the save data parses; otherwise the first of these to be missing is the error |
| KeySignHandler.KeySignHandler.HandleKeySign0 | tss/tss_keysign.go:505-784 | Ready is sent exactly with the session ready, parsed and agreed to; a run is started exactly on a Start that names the node, with its signers, the message and the entry's save data and threshold, and what is returned is the verdict on the event that ended it |
| KeySignHandler.KeySignHandler.EventLoop | tss/tss_keysign.go:695-783 | the loop stops at the first event that does not pass or whose letters fail, sends exactly what the events before it say, and returns what the last says |
| KeySignHandler.KeySignHandler.HandleKeySign | tss/tss_keysign.go:383-503 | one Finish is sent last, after at most one Ready, which only a ready key session allows; a produced signature is sent as a success, an error of another signer with its reason, a Cancel with its text, every other end with the error's text |
| KeySignInvariant.StepKeepsInv | tss/tss_keysign.go:51-380 | every step of the coordinator, its goroutines and its canceller keeps the invariant |
| KeySignInvariant.ReachableInv | tss/tss_keysign.go:51-380 | the invariant holds in every reachable state |
| KeySignTheorems.SendsNeverBlock | tss/tss_keysign.go:51-197 | every goroutine about to send finds its channel open and with room |
| KeySignTheorems.AtMostOneItemEach | tss/tss_keysign.go:253-330 | a goroutine puts at most one item on a channel in each phase, and no error is dropped |
| KeySignTheorems.ChannelsConserve | tss/tss_keysign.go:188-218 | what is on the channels is what goroutines put there less what was taken |
| KeySignTheorems.FinishLoopNeverStuck | tss/tss_keysign.go:353-380 | every reachable state of the finish loop has an enabled case |
| KeySignTheorems.SelectionNeverStuckIff | tss/tss_keysign.go:199-218 | the selection loop has an enabled case in every reachable state if and only if the key names enough distinct parties |
| KeySignTheorems.QuorumSelected | tss/tss_keysign.go:202-251 | past the selection the map holds threshold + 1 distinct parties that were heard ready, and the signers are those |
| KeySignTheorems.SignersAreSubsequence | tss/tss_keysign.go:246-251 | the signers are a subsequence of the key's party list, exactly its selected members |
| KeySignTheorems.SignersDistinctIff | tss/tss_keysign.go:246-251 | no signer repeats if and only if no selected id is listed twice |
| KeySignTheorems.SignerCountIff | tss/tss_keysign.go:246-251 | there are exactly threshold + 1 signers if and only if no selected id is listed twice |
| KeySignTheorems.CollectSigners | tss/tss_keysign.go:246-251 | the loop over the party list collects exactly the selected members in order |
| KeySignStreams.StreamPartition | tss/tss_keysign.go:220-273 | Start goes only to streams in the map, with the signers; Cancel only to ready streams outside; never both; one close at most and nothing after it |
| KeySignStreams.EveryReadyStreamServed | tss/tss_keysign.go:220-244 | once the canceller ended with the context alive, every ready stream was selected, or cancelled and closed; one gave way in the map only if an id is listed twice |
| KeySignClosing.LeftOpenIff | tss/tss_keysign.go:332-353 | after the return, a dialled stream is open if and only if its party was ready and it was given up for the context, not taken, pushed out of the map, or in the map of a selection that did not pass |
| KeySignClosing.AllClosedIff | tss/tss_keysign.go:188-218 | with the context alive, everything is closed in the end if and only if no stream was pushed out of the map of a passed selection, or nobody had become ready before a failed one |
| KeySignClosing.SelectedClosesAll | tss/tss_keysign.go:332-353 | for distinct ids a passed selection closes everything |
| KeySignClosing.LeavesReadyOpen | tss/tss_keysign.go:202-208 | a run that returns another party's error and leaves a ready stream open |
| KeySignClosing.ClosesEverythingIff | tss/tss_keysign.go:188-218 | KeySign is sure to close every stream it dialled if and only if the key has one party at most |
| KeySignStreams.DrainCancelled | tss/tss_keysign.go:222-243 | the canceller, run after the channel was closed, ends and leaves nothing queued |
| KeySignStreams.WaitForReady | tss/tss_keysign.go:202-218 | the selection loop ends with a full quorum and its signers, with the first error queued or the end of the context, or starved for lack of distinct parties |
| KeySignStreams.WaitForFinish | tss/tss_keysign.go:355-380 | the finish loop always ends, with the first success received; with the context alive it fails with the first error queued, or if everyone failed, with the last reason |
| KeySignStreams.SignatureWasReceived | tss/tss_keysign.go:363-374 | a returned signature came in verbatim on a selected party's stream |
| KeySignFailure.FailureProvenance | tss/tss_keysign.go:202-218 | with the context alive, the error that KeySign returns was put on the error channel by a goroutine, as the reason of the Finish it had received if any, or every selected stream received a failed Finish and it is the reason of the last one queued |
| KeySignFailure.AllHaveFailed | tss/tss_keysign.go:369-378 | when the count of failures reaches the map's size, every stream in the map received a failed Finish and the message at hand is the last |
| KeySignSystemInvariant.NextKeepsInv | tss/tss_keysign.go:23-784 | every step of a session keeps the invariant over both ends of every stream and the stores |
| KeySignSystemInvariant.RunInvariant | tss/tss_keysign.go:23-784 | the invariant holds in every state of every run of a session |
| KeySignSystemTheorems.CoordinatorReachable | tss/tss_keysign.go:23-381 | the coordinator of a session only reaches states that KeySignModel reaches |
| KeySignSystemTheorems.StatusGuard | tss/tss_keysign.go:527-594 | whoever sent Ready holds the named session ready, and passed validation unless in dev mode |
| KeySignSystemTheorems.QuorumIsPrepared | tss/tss_keysign.go:199-251 | past the selection exactly threshold + 1 parties are in the map, and each had sent Ready and satisfies that guard |
| KeySignSystemTheorems.SignatureProvenance | tss/tss_keysign.go:654-686 | a returned signature is verbatim the output of a local run at a selected signer, started with the signers, the request's message and that node's ready save data of the chosen session |
| KeySignSystemTheorems.Conformance | tss/tss_keysign.go:603-633 | every control stream keeps to Prepare, Ready, Start or Cancel, Finish, up to a crossing failure; only started participants succeed; no end reads an unexpected kind or meets an unknown party |
| KeySignPossible.SigningPossibleIff | tss/tss_keysign.go:188-380 | with the stores as they stand a session can return a signature if and only if threshold + 1 distinct listed parties hold the named session ready |
| KeySignMail.Integrity | tss/tss_keysign.go:751-771 | a session message that arrives was put out by the signer that it names, with these bytes and this flag, for addressees among the selected signers that its reader is one of |
| KeySignMail.AtMostOnce | tss/tss_keysign.go:732-771 | it arrives no more often than it was sent there, and for distinct ids a broadcast no more often than it was put out |
| KeySignMail.SendsWhatIsPutOut | tss/tss_keysign.go:732-771 | what a handler sends is what its loop put out, in order, cut off in the last message at most, and entirely before a success |
| KeySignMail.BroadcastExactlyOnce | tss/tss_keysign.go:738-771 | a broadcast after which the loop went on was sent, with its bytes, to every other signer once and not to the sender |
| KeySignSystemTheorems.ReadyStays | tss/tss_manager.go:219-226 | over a signing session a node's ready entries never change |
| KeySignSystemTheorems.SigningRunAfterKeyGen | tss/tss_keysign.go:527-547 | in every state of a session started on the stores that a successful KeyGen left, every listed party holds its entry ready and every handler's look-up finds it |
| KeySignSystemTheorems.SigningAfterKeyGen | tss/tss_keysign.go:36-43 | after a successful KeyGen every signing requested at a listed party sends a Prepare for that session and the request's message, to its parties and with its threshold, and every listed party holds it ready then; its selection can never be stuck if and only if the threshold is below the party count |

## Left out

- The protocol machines are step relations on values: their goroutines interleave at every channel,
  stream and storage operation, which a sequential method cannot express. They do not show aliasing of
  stream objects or of the ready map between goroutines.
- The methods of the handlers and loops run alone, with what the channels hand them as a list. Their
  storage calls and letters are those of the machines (`StoresLike`, `OutboxIsPosted`); that their
  receives and channel operations are steps of the machines too is by construction, not a theorem.
- Texts that are put around an error, such as the one before the last reason when every signer failed.
- KeyGenMail.AtMostOnce: does not claim that a message arrives, since one that was sent may be lost.
- KeySignTheorems.SelectionNeverStuckIff: speaks of having an enabled case; that threshold + 1 ready
  parties always lead to a signature is not claimed, since select may take an error first.
- KeyGenTheorems.StableLookup: needs that no request continues the key id with a colon; that this is the
  exact condition on requests is LookupStableIff. StableLookupIff is about whatever order a scan meets
  entries of equal creation time in.
- KeySignPossible.SigningPossibleIff: fixes the stores; a key session that is not ready may become so
  while a session waits, which the other theorems allow for.
- KeyGenPossible.SuccessPossibleIff: tss-lib may refuse a threshold or a duplicate key on its own, which
  the oracle does not model.
- All-or-nothing on a failed KeyGen: some nodes may end ready while others end failed.
- Closing of streams and leftover goroutines of `KeyGen`, and the lifetime of the channel on which
  handlers take session messages, including sends on it after the handler has gone.
- The stream to the node itself: its two channels are covered as a first-in first-out stream that never
  fills; closing its channel twice is not.
- Resharing and deletion of keys, which no handler reaches; `ParseSignature`; party id conversion.
- Cryptography, generation of pre-parameters, signature verification, JSON and protobuf encodings.
- The validator's own comparisons; libp2p host, discovery and reconnection; the gRPC server; logging.
- Clocks and deadlines, node crashes, storage errors, and liveness under failures.
