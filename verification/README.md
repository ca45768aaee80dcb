# Starling relay: a verified model

This project models the parts of the Starling relay whose correctness is hardest to see from the code, and proves what
they promise. Every file is Dafny 4.11; `dafny verify dfyconfig.toml` checks all of it.

**Voice.** The selective forwarding unit is one event loop that owns sessions, calls, rosters, re-offer queues and
forwarding slots. `VoiceTypes` and `VoiceSpec` give each handler as a function from state to state; `VoiceInvariant`
says what holds between inputs; `VoiceClose` to `VoiceLoop` prove that every handler keeps it, although a failed send
can close a session in the middle of any loop; `VoiceStill`, `VoiceDealt` and `VoiceHistory` say what each input changes
and that nothing else does; `VoiceTheorems`, `VoiceArrivals`, `VoiceAudio`, `VoiceRooms`, `VoiceDrop`, `VoiceFrames` and
`VoiceSignals` read off what clients rely on. `VoiceServer` is the server as the object the source has, with its loops,
each method proved to do what its function says. `VoiceWitness` holds two concrete runs. What comes from outside
(whether a channel takes a frame, the clock, what polling an `Rtc` yields) is a `World` of arbitrary functions indexed
by the number of questions asked; hash-map iteration orders are inputs. An `expect` or an index that fails is a crash of
the loop.

**Store.** `Keyset` proves keyset paging in general, over a table that may be different at every request; `EventPages`
instantiates it for events, manifest and media manifest. `MediaStore` is a state machine of the media handlers with a
crash possible between any two steps, `MediaLoss` shows that its premise is needed, `MediaSizes` says when recorded
sizes are right, and `MediaHandlers` has the handlers as methods. `GcTree`, `GcSpec` and `Gc` are the boot sweep.
`Ledger`, `Accounting` and `RelayStore` are the storage caps, and `Served` follows an item from its push to the pages
that serve it.

**Protocols and codecs.** `Pairing` (tokens under races), `RateLimit` (token bucket), `Framing` (length-delimited
frames), `StreamReads` (bounded reads of them and the caller that doubles its buffer), `Bits` and `Base32`,
`SignedRequest`.

Where the code and what it says about itself differ, the model follows the code:

- The join handler indexes the session map after sending the acknowledgement, which may have closed that session
  (`VoiceTheorems.PanicsOnlyOnLostAck`, `VoiceWitness.LostAckPanics`).
- The ceiling on concurrent calls is only checked for calls that do not exist yet (`VoiceTheorems.CeilingExactly`,
  `VoiceTheorems.CeilingFromStart`, `VoiceWitness.CeilingCanBreak`).
- A delete promises never to leave a row pointing at nothing; a push of the same hash between its commit and its unlink
  does (`MediaLoss.OverlapLoses`, `MediaLoss.OverlapCanLose`).
- An unpair serialises against pairing the same owner again, but only while its request lives: a dropped one gives the
  lock back while the directory is still being removed (`MediaLoss.ClearingLoses`, `MediaLoss.ClearingCanLose`).
- A row's size is meant to track the bytes on disk; a replacement cut off before its commit leaves the old size
  (`MediaSizes.SizesKeptExactly`, `MediaSizes.CrashLeavesOldSize`).
- The sweep takes a directory at a blob's path for the blob (`GcSpec.SweepMatches`, `GcSpec.DirectoryPassesForBlob`).
- A repeated event batch is charged again although nothing is added (`Accounting.RepushExactly`,
  `Accounting.RepushRefused`).
- A limiter with no burst or no rate announces waits after which no retry succeeds (`RateLimit.NeverAgain`,
  `RateLimit.SixtySecondsForNothing`).
- A frame too long for the caller's buffer is to be had again with a bigger one; the second buffer that is too small
  makes the read wait for a lock it holds itself, so a caller that doubles from 64 KiB gets no frame above 128 KiB
  (`StreamReads.HangsExactly`, `StreamReads.FetchExactly`, `StreamReads.SecondRetryHangs`).

## Model
| member | source | states |
|---|---|---|
| VoiceTheorems.FullMesh | relay/crates/starling-relay-voice/src/server.rs:247-465 | In every reachable state a Steady session's slots and queued sources are free of repetition, disjoint, and together exactly the other participants of its call; with no offer in flight the queue is empty and every slot declared. |
| VoiceTheorems.RosterAgreement | relay/crates/starling-relay-voice/src/server.rs:578-613 | A session is on a roster exactly when it names that call, and then once; rosters stay within their cap; sessions that wait to join have neither `Rtc` nor call, all others have both. |
| VoiceTheorems.Forwarding | relay/crates/starling-relay-voice/src/server.rs:532-574 | Everything ever written to an outbound stream is an unbroken, in-order, unmodified stretch of one source's packets from the declaration on; it reaches to the last packet while the target is here and has an Opus payload type; source and target were admitted to the same call. |
| VoiceHistory.StreamsOnlyGrow | relay/crates/starling-relay-voice/src/server.rs:371-402 | Along every run from a sound state a stream once opened keeps its source and start, and what it carried stays carried. |
| VoiceTheorems.SlotHasStream | relay/crates/starling-relay-voice/src/server.rs:385-399 | A declared slot has its own stream, which carries that slot's source; no other declared slot of the session shares it. |
| VoiceTheorems.PacketsConserved | relay/crates/starling-relay-voice/src/server.rs:477-527 | What reached a session's `Rtc` is what was handed on, in order, plus what still waits there; closing loses only what waits. |
| VoiceTheorems.NegotiationHistory | relay/crates/starling-relay-voice/src/server.rs:371-465 | Offers delivered minus answers accepted is nought or one along every run and one exactly while an offer is in flight; undeclared slots exist only then; each peer is announced at most once per target, after the offer that carries its m-line (section 4 of RFC 3264). |
| VoiceTheorems.CallLifetime | relay/crates/starling-relay-voice/src/server.rs:197-229 | The idle clock runs exactly while the roster is empty; a call that is empty when the timers are dealt with goes exactly when it has been so for `idle_reap`, and of those there after draining exactly such ones go while every other call stays as it is; nothing is dirty then and every `Rtc` has a timer. |
| VoiceTheorems.PanicsOnlyOnLostAck | relay/crates/starling-relay-voice/src/server.rs:305-317 | From every reachable state, an input takes the loop down exactly when it is an admitted join whose acknowledgement is not delivered; every other `expect` and index is safe. |
| VoiceWitness.LostAckPanics | relay/crates/starling-relay-voice/src/server.rs:305-317 | A run that does it: the first member of a room joins while its channel refuses the acknowledgement. |
| VoiceTheorems.CeilingExactly | relay/crates/starling-relay-voice/src/server.rs:264-279 | A join that starts within the ceiling on live calls ends above it exactly when it is admitted to a call that is empty but not reaped yet while the relay is at the ceiling. |
| VoiceTheorems.CeilingOverRuns | relay/crates/starling-relay-voice/src/server.rs:137-279 | A possible run that starts within the ceiling is above it after some handler exactly when some join revives an empty call at the ceiling; without one it ends within it. |
| VoiceTheorems.CeilingFromStart | relay/crates/starling-relay-voice/src/server.rs:44-70 | The same for every run from start-up. |
| VoiceTheorems.SeatLive | relay/crates/starling-relay-voice/src/server.rs:281-324 | An admitted join adds the joined call to the live ones and takes none away, whatever sends fail on the way. |
| VoiceWitness.CeilingCanBreak | relay/crates/starling-relay-voice/src/server.rs:266-270 | A run with a ceiling of one that ends with two live calls: join, leave, join another room, join the first again. |
| VoiceTheorems.RegisterReplaces | relay/crates/starling-relay-voice/src/registry.rs:22-31 | A slot push replaces the whole set of its owner, the last well-formed entry for a hash winning, and leaves every other owner's slots alone. |
| VoiceSpec.EffectiveCap | relay/crates/starling-relay-voice/src/server.rs:271-271 | The cap of a new call is the slot's wish whenever that lies between two and the relay's maximum, the maximum for no wish or a larger one, and two for a smaller one or a maximum below two. |
| VoiceFrames.CloseTells | relay/crates/starling-relay-voice/src/server.rs:594-613 | Whichever channels take their frames: the closing session is offered the final frame, then everybody left in its call, in roster order and once each, the news that it left; nobody else hears anything. |
| VoiceFrames.SeatTells | relay/crates/starling-relay-voice/src/server.rs:281-324 | An admitted newcomer whose acknowledgement is taken has an unused name, the cap and the names of those there, in roster order. Whichever other channels fail: each idle participant still there afterwards was offered the newcomer's m-line and then told whose it is, one that is gone heard a beginning of that, participants otherwise hear only who left, and the rest nothing; if nobody was lost the logs are exactly that. |
| VoiceFrames.RefusalTells | relay/crates/starling-relay-voice/src/server.rs:247-279 | A join is let in exactly when there is no reason against it: out of order, a token of the wrong length, an unknown room, a full one, or too many live calls; one that is not is gone, and the one thing put on its channel is the first of those reasons. |
| VoiceLoop.RunKeeps | relay/crates/starling-relay-voice/src/server.rs:44-70 | Along every possible run from start-up the whole invariant holds as long as the loop is up. |
| VoiceLoop.StepKeeps | relay/crates/starling-relay-voice/src/server.rs:137-245 | Every command, packet and timer keeps it, and panics exactly on a lost acknowledgement. |
| VoiceGone.CloseKeeps | relay/crates/starling-relay-voice/src/server.rs:594-613 | Closing a session keeps it, also in the middle of another handler's loop. |
| VoiceNegotiate.MaybeNegotiateKeeps | relay/crates/starling-relay-voice/src/server.rs:420-465 | So does the next re-offer, whether or not its frames are delivered. |
| VoiceJoin.HandleJoinKeeps | relay/crates/starling-relay-voice/src/server.rs:247-324 | So does a join; it panics exactly when admitted and unacknowledged, and otherwise seats the newcomer. |
| VoiceAnswer.HandleOfferKeeps | relay/crates/starling-relay-voice/src/server.rs:326-369 | So does a client's one offer, which replaces the queue by everybody else in the call. |
| VoiceAnswer.HandleAnswerKeeps | relay/crates/starling-relay-voice/src/server.rs:371-402 | So does a client's answer, which declares every slot still undeclared. |
| VoiceAnswer.HandleIceKeeps | relay/crates/starling-relay-voice/src/server.rs:404-416 | So does a remote candidate. |
| VoiceMedia.ForwardKeeps | relay/crates/starling-relay-voice/src/server.rs:532-574 | So does fanning a packet out. |
| VoiceMedia.DrainSessionKeeps | relay/crates/starling-relay-voice/src/server.rs:477-527 | So does polling a session, also when the poll closes it. |
| VoiceMedia.DrainProgress | relay/crates/starling-relay-voice/src/server.rs:471-475 | Draining one dirty session hands out waiting packets or leaves the backlog and shortens the work list: the drain loop ends for every roster and every backlog. |
| VoiceMedia.DrainReadyKeeps | relay/crates/starling-relay-voice/src/server.rs:471-475 | It ends with an empty work list and the invariant. |
| VoiceLoop.OpenKeeps | relay/crates/starling-relay-voice/src/server.rs:143-153 | Opening a session keeps the invariant, whether or not the caller is still there. |
| VoiceLoop.DropKeeps | relay/crates/starling-relay-voice/src/server.rs:578-590 | Dropping an owner closes every session of theirs first, so the calls it then discards are empty; none of either is left. |
| VoiceLoop.TimeKeeps | relay/crates/starling-relay-voice/src/server.rs:197-229 | So does the timer pass; it reaps exactly the calls that are empty and overdue, and nothing is left to drain or without a timer. |
| VoiceArrivals.RunArrivals | relay/crates/starling-relay-voice/src/server.rs:168-195 | Along every run, what arrived for a session is what was handed on plus what waits in its `Rtc`. |
| VoiceArrivals.ArrivedIsFed | relay/crates/starling-relay-voice/src/server.rs:168-195 | What has arrived at a session along a run is exactly what the datagrams of that run brought for it. |
| VoiceArrivals.RunMarked | relay/crates/starling-relay-voice/src/server.rs:470-475 | Along every run packets wait only at sessions on the work list, so none waits once it is drained. |
| VoiceHistory.StepAfter | relay/crates/starling-relay-voice/src/server.rs:137-245 | One input, any input: sessions keep owner, name, call, phase, `Rtc` and payload type except by their own admitted join or good offer; those the input dismisses are gone, and nobody else is unless a frame is refused or a poll says the connection is over; calls keep their caps, a new one has the cap of its slot, one nobody is in is untouched; streams only grow. |
| VoiceHistory.StepRest | relay/crates/starling-relay-voice/src/server.rs:137-195 | Slots change only by a push or a drop, session ids are handed out in turn, and packets come only from datagrams. |
| VoiceHistory.DrainDrains | relay/crates/starling-relay-voice/src/server.rs:477-527 | Polling one session hands out everything that waits there, moves nobody else's packets, puts those written to on the work list, and ends with the session gone exactly when the poll says its connection is over. |
| VoiceHistory.DueArePolled | relay/crates/starling-relay-voice/src/server.rs:197-214 | In a timer pass every session whose timer was due is polled or gone, and gone if the library rejects the timeout. |
| VoiceHistory.EmptyCallGoes | relay/crates/starling-relay-voice/src/server.rs:216-229 | A call that is empty when the pass begins goes exactly when its time is up, and is untouched otherwise. |
| VoiceHistory.CapStays | relay/crates/starling-relay-voice/src/server.rs:271-274 | A call keeps its cap for as long as it is there, along every run. |
| VoiceHistory.GoneForGood | relay/crates/starling-relay-voice/src/server.rs:141-151 | A session that has gone does not come back under the same id. |
| VoiceDealt.DispatchDealt | relay/crates/starling-relay-voice/src/server.rs:233-245 | What a client's frame comes to before draining: the same as above, and an `Rtc` that was given something to do is on the work list. |
| VoiceStill.CloseStill | relay/crates/starling-relay-voice/src/server.rs:594-613 | Closing takes away the session and nobody else; the call's idle clock starts with a moment read then, and no other call, record or stream changes. |
| VoiceStill.NegotiateWakes | relay/crates/starling-relay-voice/src/server.rs:451-464 | A session that is made a new offer is on the work list. |
| VoiceAudio.OfferIsTaken | relay/crates/starling-relay-voice/src/server.rs:326-346 | After a good offer from a session that was to make one it is Steady with the payload type it offered, unless it is gone; nobody else's payload type changes. |
| VoiceAudio.PtWasOffered | relay/crates/starling-relay-voice/src/server.rs:342-345 | In every reachable state a session's payload type is that of the offer it made on the way there. |
| VoiceAudio.AudioArrives | relay/crates/starling-relay-voice/src/server.rs:477-574 | From a state in which a session listens to another, over any inputs, its stream for that source gets what was waiting and then exactly the packets the datagrams brought, in order, once the work list is drained. |
| VoiceAudio.OfferedHear | relay/crates/starling-relay-voice/src/server.rs:326-402 | So a client that offered Opus and has answered for a source is written every packet that reaches that source from then on. |
| VoiceRooms.FirstJoinSetsCap | relay/crates/starling-relay-voice/src/server.rs:262-274 | The first join to a room makes its call with the slot's own limit between two and the relay's maximum, the maximum for no wish or a larger one, and two otherwise. |
| VoiceRooms.FullExactly | relay/crates/starling-relay-voice/src/server.rs:262-279 | After that, for as long as the call stays, a join to the room is let in exactly when fewer than that many are seated. |
| VoiceDrop.DropExactly | relay/crates/starling-relay-voice/src/server.rs:578-590 | Dropping an owner takes away exactly that owner's sessions, calls and slots; each of those sessions is offered the goodbye; sessions, calls, slots and logs of everybody else are exactly as they were. |
| VoiceSignals.FaultTells | relay/crates/starling-relay-voice/src/server.rs:326-416 | A faulty offer, answer or candidate ends its session, which is told which error it was. |
| VoiceSignals.ByeTells | relay/crates/starling-relay-voice/src/server.rs:242-242 | A goodbye is returned to the session that says it, and the session is gone. |
| VoiceSignals.OthersAreHushed | relay/crates/starling-relay-voice/src/server.rs:137-229 | Slot pushes, new and closed sessions, datagrams and the timer pass make nobody hear anything but who left. |
| VoiceSignals.FrameThenHushed | relay/crates/starling-relay-voice/src/server.rs:233-245 | Nor does the draining after a client's frame: all it hears comes from the frame's handler. |
| VoiceSignals.OfferTells | relay/crates/starling-relay-voice/src/server.rs:347-369 | A good offer is answered and followed by one re-offer with an m-line for each of the others in the call, in roster order, each announced with the m-line of its slot. |
| VoiceSignals.AnswerTells | relay/crates/starling-relay-voice/src/server.rs:371-402 | A good answer declares every slot it was about, with the announced SSRC where there is one, and is followed by the re-offer for those who came meanwhile. |
| VoiceSignals.NegotiateTells | relay/crates/starling-relay-voice/src/server.rs:420-465 | A re-offer gives the queued sources the next m-lines in order and says whose each is; a client that does not take all of it is gone. |
| VoiceServer.Server.constructor | relay/crates/starling-relay-voice/src/server.rs:118-132 | A new server is the start state, and valid: the whole invariant holds and the loop is up. |
| VoiceServer.Server.CloseSession | relay/crates/starling-relay-voice/src/server.rs:594-613 | The method on fields, with its loop over the remaining roster, does what the specification of closing says. |
| VoiceServer.Server.Send | relay/crates/starling-relay-voice/src/server.rs:624-629 | The same for sending, which closes a session whose channel is full or gone. |
| VoiceServer.Server.MaybeNegotiate | relay/crates/starling-relay-voice/src/server.rs:420-465 | The same for the next re-offer. |
| VoiceServer.Server.HandleJoin | relay/crates/starling-relay-voice/src/server.rs:247-324 | The same for a join. |
| VoiceServer.Server.HandleOffer | relay/crates/starling-relay-voice/src/server.rs:326-369 | The same for a client's offer. |
| VoiceServer.Server.HandleAnswer | relay/crates/starling-relay-voice/src/server.rs:371-402 | The same for a client's answer. |
| VoiceServer.Server.HandleIce | relay/crates/starling-relay-voice/src/server.rs:404-416 | The same for a candidate. |
| VoiceServer.Server.HandleFrame | relay/crates/starling-relay-voice/src/server.rs:233-245 | Dispatching a frame and draining does what its specification says; it leaves a valid object valid, except that an admitted join without acknowledgement takes the loop down. |
| VoiceServer.Server.ForwardRtp | relay/crates/starling-relay-voice/src/server.rs:532-574 | The same for fanning out. |
| VoiceServer.Server.DrainSession | relay/crates/starling-relay-voice/src/server.rs:477-527 | The same for polling. |
| VoiceServer.Server.DrainReady | relay/crates/starling-relay-voice/src/server.rs:471-475 | The same for the drain loop, which terminates. |
| VoiceServer.Server.RegisterSlots | relay/crates/starling-relay-voice/src/registry.rs:22-31 | A slot push does what its specification says and leaves a valid object valid. |
| VoiceServer.Server.OpenSession | relay/crates/starling-relay-voice/src/server.rs:143-153 | The same for opening a session; ids are handed out in order. |
| VoiceServer.Server.SessionClosed | relay/crates/starling-relay-voice/src/server.rs:155-155 | The same for a channel that is gone. |
| VoiceServer.Server.DropOwner | relay/crates/starling-relay-voice/src/server.rs:578-590 | The same for dropping an owner, over the owner's sessions in some order. |
| VoiceServer.Server.HandlePacket | relay/crates/starling-relay-voice/src/server.rs:168-195 | The same for a datagram. |
| VoiceServer.Server.HandleTime | relay/crates/starling-relay-voice/src/server.rs:197-229 | The same for the timer pass, over the due sessions in some order; afterwards nothing is dirty, every `Rtc` has a timer and every call still empty is due in the future. |
| VoiceServer.Server.NextDeadline | relay/crates/starling-relay-voice/src/server.rs:640-656 | The earliest session timer or reap time, and none exactly when there is none. |
| Keyset.WalkAscends | relay/crates/starling-relay-storage/src/events.rs:158-165 | For any keyset paging over any sequence of lists: the rows received ascend strictly, match, and were there when served. |
| Keyset.WalkComplete | relay/crates/starling-relay-storage/src/events.rs:158-165 | A finished walk has every matching row that was there at each of its requests. |
| Keyset.StillFinishes | relay/crates/starling-relay-storage/src/events.rs:158-165 | On a list that stays put a walk finishes within one request per matching row plus one. |
| Keyset.StillIsWhole | relay/crates/starling-relay-storage/src/events.rs:158-165 | And then it has received exactly the matching rows, in order. |
| EventPages.Listed | relay/crates/starling-relay-storage/src/events.rs:174-182 | Every table has exactly one listing in `(created_at, id)` order. |
| EventPages.Grow | relay/crates/starling-relay-storage/src/events.rs:190-204 | The page is the longest prefix within row limit and byte budget, and never empty when there are rows. |
| EventPages.PayloadsPage | relay/crates/starling-relay-storage/src/events.rs:166-209 | The loop over the cursor serves that prefix and names its last row exactly when rows are left. |
| EventPages.PageBounds | relay/crates/starling-relay-storage/src/events.rs:158-165 | A page of a non-empty range is not empty; its bytes are within the budget or those of the first row alone, its rows within the limit or one. |
| EventPages.GetEvents | relay/crates/starling-relay-http/src/routes/events.rs:45-70 | One request serves at most 500 items and at most 4 MiB unless a single row is larger, a prefix of what matches; it stops short only at one of these limits and then names its last row. |
| EventPages.EventsUnderChange | relay/crates/starling-relay-storage/src/events.rs:166-209 | However the table changes between requests, a client that echoes the cursor gets strictly increasing keys and stored rows only, and in the end every row that was stored, unchanged, at each request; for any row limit and budget. |
| EventPages.EventsAreTheList | relay/crates/starling-relay-storage/src/events.rs:166-209 | On a table that stays put the pages join to the sorted, filtered list, for any limit, budget and starting cursor. |
| EventPages.EventsAsked | relay/crates/starling-relay-storage/src/events.rs:155-182 | Without parameters a client gets everything; with a time alone everything from that time on, inclusive; with a time and an id everything after that row. |
| EventPages.IdLtExactly | relay/crates/starling-relay-storage/src/events.rs:166-183 | Ids compare byte by byte: one is smaller when it ends, or has the smaller byte, at the first place where they differ. |
| EventPages.PageFlag | relay/crates/starling-relay-http/src/routes/manifest.rs:26-61 | A page is the first thousand rows or all of them, and the flag is set exactly when there are more. |
| EventPages.ManifestUnderChange | relay/crates/starling-relay-storage/src/events.rs:110-139 | The same as for events under change, newest first, with the lower bound kept. |
| EventPages.ManifestIsTheListReversed | relay/crates/starling-relay-http/src/routes/manifest.rs:26-61 | On a table that stays put the manifest pages join to the filtered list in reverse. |
| EventPages.ManifestAsked | relay/crates/starling-relay-storage/src/events.rs:104-128 | Both bounds of a manifest request include their time when they come alone; an id with the upper one leaves that row and everything newer out. |
| EventPages.HashesUnderChange | relay/crates/starling-relay-http/src/routes/media.rs:249-277 | The owner's reconcile sees hashes once each, in order, only ones that were stored when read, and every hash stored throughout. |
| MediaPaths.HexInjective | relay/crates/starling-relay-http/src/routes/media.rs:32-34 | Different owners have different directory names. |
| MediaPaths.HexSpells | relay/crates/starling-relay-http/src/routes/media.rs:32-34 | The directory name spells the owner's key, two digits a byte, the high one first. |
| MediaPaths.PathParts | relay/crates/starling-relay-http/src/routes/media.rs:24-34 | A blob lies below its owner's directory, below two and then four digits of its hash, under its hash; its temporary file beside it. |
| MediaPaths.PathsDiffer | relay/crates/starling-relay-http/src/routes/media.rs:24-34 | No two blobs share a path, whoever owns them, and the first component names the owner. |
| MediaPaths.TmpIsNoBlob | relay/crates/starling-relay-http/src/routes/media.rs:144-149 | A temporary file is never where a blob belongs. |
| MediaStore.StepKeeps | relay/crates/starling-relay-http/src/routes/media.rs:102-160 | Every step of push, delete, unpair, dropped request, crash and sweep keeps the invariant, given that no push begins while an unlink of its path is to do and nobody is paired whose directory is still being cleared. |
| MediaStore.CrashSafe | relay/crates/starling-relay-http/src/routes/media.rs:102-160 | Along every such run with crashes anywhere, every row's file exists and is the complete body of some push of that hash by that owner; every acknowledged, undeleted blob has its row. |
| MediaStore.AckedSurvive | relay/crates/starling-relay/src/gc.rs:35-94 | A crash at any point and any sweep after it leave every acknowledged, undeleted blob's row and bytes as they were. |
| MediaStore.RowsExactly | relay/crates/starling-relay-http/src/routes/media.rs:102-160 | A row comes exactly with the commit of its push and goes exactly when its owner deletes it or is unpaired; in between its size stays and its file changes only by a push of the same blob. |
| MediaStore.AckedStays | relay/crates/starling-relay-http/src/routes/media.rs:102-160 | An acknowledged blob keeps its row and a complete file through every further run, crashes and sweeps included, until its owner deletes it or is unpaired. |
| MediaStore.SweepKeeps | relay/crates/starling-relay/src/gc.rs:35-94 | A boot sweep, complete or not, removes no row of a store in order. |
| MediaStore.PathsOfDoomed | relay/crates/starling-relay-http/src/routes/media.rs:213-218 | What a delete unlinks are exactly the paths of the rows it removes, once each. |
| MediaLoss.PushLands | relay/crates/starling-relay-http/src/routes/media.rs:141-160 | An undisturbed push within the caps ends acknowledged, its row sized, its bytes in place, no temporary file left. |
| MediaLoss.OverlapLoses | relay/crates/starling-relay-http/src/routes/media.rs:219-226 | Whenever a push of a paired owner's blob begins with an unlink of its path still to do, some way on acknowledges it and then removes its file. |
| MediaLoss.OverlapCanLose | relay/crates/starling-relay-http/src/routes/media.rs:219-226 | For every owner, hash and body there is a run from first boot that does. |
| MediaLoss.ClearingLoses | relay/crates/starling-relay/src/supervisor.rs:398-424 | Whenever an owner's directory is still being cleared and the pairing lock is free, some way on pairs the owner again, acknowledges a push and then removes its file. |
| MediaLoss.ClearingCanLose | relay/crates/starling-relay/src/supervisor.rs:398-424 | For every owner, hash and body there is a run from first boot that does: an unpair whose request is dropped gives its lock back while the removal goes on. |
| MediaSizes.SizesKeptExactly | relay/crates/starling-relay-http/src/routes/media.rs:144-159 | A step of a store whose rows record their files' lengths leaves it so exactly when it does not cut off, between rename and commit, a replacement of another length. |
| MediaSizes.SizesMatch | relay/crates/starling-relay-http/src/routes/media.rs:144-159 | Along every run from first boot without such a cut, every row records the length of its file, unless its push is between those two steps. |
| MediaSizes.CrashLeavesOldSize | relay/crates/starling-relay-http/src/routes/media.rs:144-159 | For every blob and two bodies of different lengths, a run from first boot whose row records the one and whose file is the other. |
| MediaHandlers.Handlers.Push | relay/crates/starling-relay-http/src/routes/media.rs:102-160 | Uninterrupted: row, caps and outcome are those of the accounting; a stored push leaves row and file both of the body's length; the file is replaced whole by the body exactly when the push passed the caps and was no intact repeat, also when it then fails at the row. |
| MediaHandlers.Handlers.DeleteRows | relay/crates/starling-relay-http/src/routes/media.rs:209-219 | The delete transaction removes exactly the named rows of the owner from the tables and collects exactly their paths. |
| MediaHandlers.Handlers.UnlinkAll | relay/crates/starling-relay-http/src/routes/media.rs:220-226 | The unlinks after it remove exactly the files whose unlink does not fail. |
| Gc.Sweeper.ReadDir | relay/crates/starling-relay/src/gc.rs:98-103 | An unreadable or missing directory is empty; otherwise all entries in some order. |
| Gc.Sweeper.WalkFiles | relay/crates/starling-relay/src/gc.rs:106-120 | The stack walk finds exactly the files below a directory, once each, and ends; with read errors it finds some of them. |
| Gc.Sweeper.ClearUnknown | relay/crates/starling-relay/src/gc.rs:42-55 | The first leg removes only files below top-level directories of nobody paired; without errors all of them. |
| Gc.Sweeper.DropOrphans | relay/crates/starling-relay/src/gc.rs:63-73 | The second leg removes only files of the owner that no row names; without errors all of them. |
| Gc.Sweeper.DropPhantoms | relay/crates/starling-relay/src/gc.rs:75-82 | The third leg removes exactly the owner's rows with nothing at their path. |
| Gc.Sweeper.Sweep | relay/crates/starling-relay/src/gc.rs:35-94 | Whatever fails, no file with a row and no row with a file is removed; without errors files, directories, rows and counts are exactly determined. |
| Gc.RunOrderly | relay/crates/starling-relay-http/src/routes/media.rs:102-160 | Along every run, overlapping or cut off as may be, rows name valid hashes of paired owners, so that a sweep can always start. |
| Gc.SweepAtBoot | relay/crates/starling-relay/src/gc.rs:35-94 | After any run that ends in a boot the sweep applies, and what it leaves is what the store's sweep step allows: everything without errors, a part of it with them. |
| GcSpec.SweepMatches | relay/crates/starling-relay/src/gc.rs:35-94 | After a sweep without errors no unknown owner directory is left and deep files have rows; files and rows match one to one exactly when no directory sits at a row's path. |
| GcSpec.DirectoryPassesForBlob | relay/crates/starling-relay/src/gc.rs:75-82 | A row, no file, and a directory where the file should be: the sweep reports nothing and keeps the row. |
| GcSpec.SweepTwice | relay/crates/starling-relay/src/gc.rs:35-94 | A second sweep finds nothing and changes nothing. |
| Ledger.SumSizes | relay/crates/starling-relay-storage/src/accounting.rs:22-35 | The sum over a table, in whatever order its rows come. |
| Ledger.SharesMakeTotal | relay/crates/starling-relay-storage/src/accounting.rs:17-35 | The whole is the sum of the owners' shares. |
| Accounting.CapsHold | relay/crates/starling-relay-storage/src/accounting.rs:37-53 | Along every run of pushes, replacements, deletes, unpairs and sweeps from an empty store, each owner stays within a positive cap and the host within its own, and the host's usage is the sum of its owners'. |
| Accounting.InsertAllCharges | relay/crates/starling-relay-http/src/routes/events.rs:107-166 | A batch adds at most its bytes to its owner and the host, with duplicates and rejections, and nothing to anybody else. |
| Accounting.ReplaceCharges | relay/crates/starling-relay-http/src/routes/media.rs:122-131 | A replacement adds at most the growth it was charged for. |
| Accounting.PushAnswers | relay/crates/starling-relay-http/src/routes/events.rs:96-172 | What a push of events answers in every case: the owner's own limit or else the default, then the host's, each against all payload bytes; nothing for somebody unpaired; otherwise how many items were acceptable. |
| Accounting.PushBlobAnswers | relay/crates/starling-relay-http/src/routes/media.rs:102-160 | What a push of a blob answers in every case, and the recorded size afterwards; it is charged for growth only, and an intact repeat for nothing. |
| Accounting.PushStores | relay/crates/starling-relay-http/src/routes/events.rs:118-166 | A stored batch leaves under each id the row that was there, or that of the first acceptable item: payload and type as they came, time, sequence number and nonce from the header of an event, and the time of the push otherwise; nothing of anybody else changes. |
| Served.PushedIsServed | relay/crates/starling-relay-http/src/routes/events.rs:39-70 | An item stored under a new id is served with its type and payload to every client that then reads the whole of `/events`, at the place its header's time gives it. |
| Served.PushServesOthers | relay/crates/starling-relay-http/src/routes/events.rs:76-179 | A push changes nothing for any other owner. |
| Served.DeleteServes | relay/crates/starling-relay-storage/src/events.rs:74-83 | A delete takes exactly the named events of its owner away. |
| Served.UnpairServes | relay/crates/starling-relay/src/supervisor.rs:398-420 | An unpair leaves no event and no blob of its owner, and everything of everybody else. |
| Served.PairServes | relay/crates/starling-relay-storage/src/owners.rs:27-40 | A pairing sets the limit of a new owner and touches no table. |
| Accounting.PushTwice | relay/crates/starling-relay-http/src/routes/events.rs:161-165 | Repeating a batch at any time leaves the store as the first push left it. |
| Accounting.RepushExactly | relay/crates/starling-relay-http/src/routes/events.rs:102-116 | The repeat is stored again exactly when there is room for the whole batch once more. |
| Accounting.RepushRefused | relay/crates/starling-relay-http/src/routes/events.rs:102-116 | An input for which it is refused, though everything in it is stored. |
| RelayStore.Tables.CheckCapacity | relay/crates/starling-relay-storage/src/accounting.rs:39-53 | The check by summing the tables is the check on usage. |
| RelayStore.Tables.PushBatch | relay/crates/starling-relay-http/src/routes/events.rs:94-169 | The transaction stores a batch whole or not at all and counts every item once; what it answers and stores is `PushAnswers` and `PushStores`. |
| RelayStore.Tables.DeleteBatch | relay/crates/starling-relay-storage/src/events.rs:74-83 | Deletes exactly the named rows of the owner and counts each once. |
| Pairing.OneLiveToken | relay/crates/starling-relay-admin/src/lib.rs:110-128 | In every committed state at most one token can be claimed, and it is the one minted last. |
| Pairing.SingleUse | relay/crates/starling-relay-admin/src/lib.rs:579-592 | Over all interleavings a token lets at most as many claims through as it was minted times: one, for a token minted once. |
| Pairing.OnlyTheLatest | relay/crates/starling-relay-admin/src/lib.rs:586-592 | A claim that goes ahead on a token does so on the one minted last; none does once a later mint has committed. |
| Pairing.StaysDead | relay/crates/starling-relay-storage/src/pairings.rs:67-79 | A token that cannot be claimed stays so, whatever is minted, pruned or claimed, until it is minted again. |
| Pairing.MintExactly | relay/crates/starling-relay-admin/src/lib.rs:103-128 | A mint fails exactly for a token that is there and not pruned; otherwise that token can be claimed for `ttl` seconds, and every other one left is used up. |
| Pairing.WorksUntilExpiry | relay/crates/starling-relay-admin/src/lib.rs:567-599 | After a mint, a claim by somebody unpaired, with anything but another mint or use of the token between its statements, goes ahead exactly when its expiry is checked within `ttl` of the mint, and is refused otherwise. |
| Pairing.PairedNeedsNone | relay/crates/starling-relay-admin/src/lib.rs:567-599 | Somebody already paired goes ahead without a token and uses none up. |
| Pairing.Tokens.MintToken | relay/crates/starling-relay-admin/src/lib.rs:110-128 | One transaction: afterwards the new token is the only live one, or nothing has changed. |
| Pairing.Tokens.ClaimToken | relay/crates/starling-relay-admin/src/lib.rs:567-599 | Which claims go ahead, and with which status the others are refused; the table changes only for a claim that uses a token. |
| RateLimit.WindowBound | relay/crates/starling-relay-http/src/rate_limit.rs:45-56 | In any run from a full bucket, calls at times that do not decrease within `span` seconds are admitted at most `burst + rate * span` times. |
| RateLimit.StretchBound | relay/crates/starling-relay-http/src/rate_limit.rs:45-56 | For any times at all the same holds with the time that passed forwards between calls. |
| RateLimit.BurstExactly | relay/crates/starling-relay-http/src/rate_limit.rs:45-56 | Of `n` calls at one moment exactly as many are admitted as there are whole tokens, left over or earned since, up to the burst. |
| RateLimit.WaitIsLeast | relay/crates/starling-relay-http/src/rate_limit.rs:50-55 | With room for a token and a rate, an undisturbed retry succeeds exactly from the announced wait on (section 4 of RFC 6585, section 10.2.3 of RFC 9110). |
| RateLimit.NeverAgain | relay/crates/starling-relay-http/src/rate_limit.rs:45-56 | Without room for a token, or without a rate, no later call is ever admitted. |
| RateLimit.NoBurstRefusesAgain | relay/crates/starling-relay-http/src/rate_limit.rs:29-38 | A limiter built with no burst announces at most a minute and never admits anything. |
| RateLimit.SixtySecondsForNothing | relay/crates/starling-relay-http/src/rate_limit.rs:45-56 | One request a minute and no burst: refused at nought with a wait of sixty, and refused at sixty. |
| RateLimit.NoRateAdmitsOnce | relay/crates/starling-relay-http/src/rate_limit.rs:29-38 | A burst of one and no rate admits one request and none after it. |
| RateLimit.WithinAMinute | relay/crates/starling-relay-http/src/rate_limit.rs:29-38 | As configured per minute, the announced wait is between one and sixty seconds. |
| RateLimit.RateLimiter.TryAcquireAt | relay/crates/starling-relay-http/src/rate_limit.rs:45-56 | The method on the shared fields takes a token or computes the wait. |
| Framing.FramesOfEncoded | app/starling/native/starling_bridge/src/p2p/inner.rs:671-681 | Parsing what was written gives the frames back, whatever follows. |
| Framing.BytesAreFrames | app/starling/native/starling_bridge/src/p2p/inner.rs:657-668 | Every byte string is its frames written out again and a remainder that holds none. |
| Framing.LengthIsBigEndian | app/starling/native/starling_bridge/src/p2p/inner.rs:657-657 | The prefix is the length in four bytes, most significant first. |
| Framing.WriteOneFrame | app/starling/native/starling_bridge/src/p2p/inner.rs:671-681 | A frame whose length does not fit the prefix is refused before anything is written. |
| Framing.Reader.ReadOneFrame | app/starling/native/starling_bridge/src/p2p/inner.rs:644-669 | However the bytes are cut up, the next frame is handed on and the rest kept, or there is none. |
| Framing.Reader.Pump | app/starling/native/starling_bridge/src/p2p/inner.rs:585-606 | The reader task emits exactly the frames of the stream in order, then one closing event. |
| StreamReads.ReadTakesNext | app/starling/native/starling_bridge/src/p2p/mod.rs:387-443 | A read hands over the next frame whole or loses nothing; it delivers exactly when the frame is there and fits, never returns exactly when the stash holds a frame longer than its buffer or an earlier read has not returned, reports the end exactly when nothing is left, and a timeout exactly when it is late with nothing stashed. |
| StreamReads.StuckForGood | app/starling/native/starling_bridge/src/p2p/mod.rs:391-401 | After a read that hangs no read returns and nothing changes. |
| StreamReads.ReadsConserve | app/starling/native/starling_bridge/src/p2p/mod.rs:387-443 | Over any buffer sizes and timeouts, hanging or not, what was read and what was not handed over are the frames in order. |
| StreamReads.HangsExactly | app/starling/native/starling_bridge/src/p2p/mod.rs:387-443 | A sequence of reads hangs exactly when two in a row, the first in time, both lack the room for the frame that is next. |
| StreamReads.SafeCallsExactly | app/starling/native/starling_bridge/src/p2p/mod.rs:387-443 | A sequence of reads hangs on no stream of frames up to a size exactly when each read in time with less room than that is the last or followed by one with that much. |
| StreamReads.EndToEnd | app/starling/native/starling_bridge/src/p2p/inner.rs:585-681 | Frames written, cut up in any way, and read with any buffers and timeouts come out once each, in order and unchanged; what has not come out is still there, and a read hangs exactly when two in a row are too small for the frame at hand. |
| StreamReads.EnoughReads | app/starling/native/starling_bridge/src/p2p/mod.rs:387-443 | When no read hangs, as many with room and in time as there are frames to come, among whatever others, collect every one. |
| StreamReads.EveryFrameArrives | app/starling/native/starling_bridge/src/p2p/inner.rs:585-681 | So a reader with enough such reads, and never two in a row too small for the frame at hand, gets exactly the frames sent, in order. |
| StreamReads.Stream.ReadInto | app/starling/native/starling_bridge/src/p2p/mod.rs:387-443 | The stash before the queue, under a lock that is not reentrant and is held while the stash is served; a queued frame that does not fit goes into it, a stashed one cannot go back. |
| StreamReads.FetchExactly | app/starling/lib/services/libp2p/libp2p_bridge_isolate.dart:280-310 | The caller that starts at 64 KiB and doubles gets a frame exactly when it is in time and has at most 128 KiB; a longer one is never answered, and the refusal above 16 MiB never reached. |
| StreamReads.FetchedExactly | app/starling/lib/services/libp2p/libp2p_bridge_isolate.dart:280-310 | Any number of such fetches gives one frame for each that is in time up to the first frame above 128 KiB, where they stop for good. |
| StreamReads.AllFetchedExactly | app/starling/lib/services/libp2p/libp2p_bridge_isolate.dart:280-310 | With a fetch in time for each frame sent, all arrive exactly when none is longer than 128 KiB. |
| StreamReads.SecondRetryHangs | app/starling/native/starling_bridge/src/p2p/mod.rs:391-401 | A frame of 131073 bytes, read with 65536 and then 131072 bytes of room: the second read does not return. |
| StreamReads.FetchFrame | app/starling/lib/services/libp2p/libp2p_bridge_isolate.dart:280-310 | The doubling loop does what the function of those lemmas says. |
| Base32.Encode | relay/crates/starling-wire/src/base32.rs:12-34 | The loop over a wrapping 32-bit buffer spells the message's bits in groups of five, filled up with zeros, in `(8n + 4) / 5` characters. |
| Base32.Decode | relay/crates/starling-wire/src/base32.rs:38-56 | The loop gathers the characters' bits into bytes, dropping fewer than eight left over; none exactly when a character is illegal. |
| Base32.RoundTrip | relay/crates/starling-wire/src/base32.rs:12-56 | Decoding gives back every message that was encoded. |
| Base32.EncodedValue | relay/crates/starling-wire/src/base32.rs:12-34 | Read in base 32 the text is the number that the message is in base 256, shifted to fill the last character. |
| Base32.EncodedDiffer | relay/crates/starling-wire/src/base32.rs:12-34 | No two messages are spelled alike. |
| Base32.CharRoundTrip | relay/crates/starling-wire/src/base32.rs:58-82 | Each letter of the alphabet has the value it stands for. |
| Base32.AlphabetSpelled | relay/crates/starling-wire/src/base32.rs:9-9 | The letters are those of Crockford's alphabet, in its order. |
| Base32.LookAlikes | relay/crates/starling-wire/src/base32.rs:58-82 | Either case is read alike, i and l as 1, o as 0; u and everything that is no digit and no letter is illegal. |
| Base32.DecodesExactly | relay/crates/starling-wire/src/base32.rs:58-82 | A text decodes exactly when each character folds into the alphabet. |
| Base32.FoldedDecodesAlike | relay/crates/starling-wire/src/base32.rs:58-82 | Decoding does not see case, nor the difference between i, l and 1, nor between o and 0. |
| SignedRequest.RequestBytes | relay/crates/starling-wire/src/sig.rs:63-73 | The bytes that are hashed, field by field: domain, method, path, timestamp in eight bytes most significant first, digest of the body. |
| SignedRequest.CoversExactly | relay/crates/starling-wire/src/sig.rs:54-73 | For any fields: equal bytes mean equal timestamp, equal digest, and equal method and path run together. |
| SignedRequest.Unambiguous | relay/crates/starling-wire/src/sig.rs:54-73 | For methods without a slash and paths that begin with one, equal bytes mean equal fields. |

## Left out
- str0m, SDP, ICE, DTLS and SRTP: an `Rtc` is a queue of inbound packets and a counter of m-lines; parsing is an input.
- VoiceSpec.MaybeNegotiate: assumes that applying a change that added m-lines yields an offer; the early return without one is not modelled.
- VoiceSpec.Adopt: SSRCs announced by the library and SSRCs from the session's allocator are taken to differ, and streams to be found by SSRC once declared.
- VoiceSpec.ForwardTo: the outgoing payload type is the target's, and write times are not recorded.
- VoiceSpec.AddSlots: the 32-bit SSRC counter of a session does not wrap.
- VoiceTypes.SfuId: a minted name is the counter it is hashed from, so names are distinct by construction.
- The overview command and the candidate strings in the acknowledgement.
- How slot pushes reach the live registry: the update is spawned without ordering.
- VoiceSpec.DeclareBelow: slots are declared in the order of their sources instead of hash-map order; the visits touch different slots.
- Database errors, full disks and fsync durability: a transaction commits or is rolled back, and what was renamed stays.
- Accounting.CapsHold: caps are fixed for a run and sizes do not overflow 64 bits.
- MediaStore.CrashSafe: caps are an arbitrary refusal there; `Accounting` and `MediaHandlers` model them.
- Reading blobs and events over HTTP, CBOR, authentication headers and the routers.
- Gc.Sweeper.RemoveDirAll: a failed recursive removal may leave any files but keeps every directory; symbolic links are not modelled.
- Supervisor launch and teardown, Tor, the admin pages and configuration: easy facts or unseen libraries.
- RateLimit.RateLimiter.TryAcquireAt: exact reals in place of `f64`; the time is whatever the caller read before the lock.
- Framing.Reader.Pump: the receiver of the events stays alive.
- Framing.Reader.ReadOneFrame: lengths are unbounded; where `usize` has 32 bits the source's `4 + len` overflows for a prefix above 2^32 - 5.
- StreamReads.StreamRead: reads of a stream come one at a time, as the one worker that makes them does; an unknown stream id, a null handle and closing are not modelled.
- Ed25519, BLAKE2b and argon2: a digest is any function to 32 bytes.
- Base32: texts are byte strings, as the decoder reads them.
