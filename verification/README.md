# Models of bedrocktool

A Dafny model of the stateful cores of bedrocktool, a proxy for Minecraft: Bedrock Edition, and proofs about them.
`dafny verify dfyconfig.toml` checks everything.

The code works by changing objects step by step, and so do the models: each core has a class whose methods follow the
code branch by branch. Every method is proved against a function on values, and what the code is for is proved about
these functions, over all inputs, all runs and all reachable states.

| core | object | specification | theorems |
|---|---|---|---|
| blob cache | `Blobcache.dfy` | `BlobPackets.dfy`, `BlobSpec.dfy` | `BlobInvariant.dfy`, `BlobReachable.dfy`, `BlobRecords.dfy`, `BlobTheorems.dfy`, `BlobReadiness.dfy`, `BlobDefects.dfy`, `BlobDrops.dfy`, `BlobForwarding.dfy`, `BlobFlight.dfy`, `BlobReports.dfy`, `BlobWrites.dfy`, `BlobClients.dfy`, `BlobStarvation.dfy` |
| chunk store of a world | `World.dfy` | `WorldStore.dfy` | `WorldStoreTheorems.dfy` |
| captures | `CaptureFile.dfy`, `Pcap2Reader.dfy` | `CaptureFile.dfy`, `CaptureReader.dfy` | `CaptureReader.dfy`, `CaptureRoundTrip.dfy` |
| resource packs in chunks | `Resourcepacks.dfy` | `PackTransfer.dfy` | `PackTransfer.dfy` |
| CFB8 decryption | `Cfb8.dfy` | `Cfb8.dfy` | `Cfb8.dfy` |
| NBT as JSON | `NbtJson.dfy` | `NbtJson.dfy` | `NbtJson.dfy` |
| names of skins | `Skins.dfy` | `SkinNames.dfy`, `FileNames.dfy` | `SkinNames.dfy`, `FileNames.dfy`, `SkinTextures.dfy` |
| map tiles | `TileCanvas.dfy` | `TileCanvas.dfy` | `TileCanvas.dfy` |

`Occurrences.dfy` counts how often an id occurs in the lists of a map; `LittleEndian.dfy` has bytes and integers;
`Common.dfy` has what several models share.

## The blob cache

A server that uses the cache sends chunk packets that name blobs by hash. The cache answers which blobs it has, parks
packets on reference-counted waits, fills them in when blobs arrive, keeps sub chunks behind the level chunks of their
columns, and serves a client that uses the cache itself. One mutex makes every handler one step, so a run is a sequence
of handler calls with any packets, any blobs (asked for or not, repeated or not) and any reports of the client.

In the class, waits are heap objects that several lists share, counters are decremented on the shared objects, and the
entries of a sub chunk packet are a slice that the wait shares with the packet that is forwarded. In the specification a
wait is an index. Four places of the code do not do what is meant, and are modelled as they are:

* Line 359 resolves `wait` again where the counter that reached zero is that of `sub`. The parameter `repaired` of the
  specification selects the code as written (`false`, which is what the class does) or what is meant (`true`). Both keep
  the same invariant. `BlobDefects` gives a run that drops a sub chunk for good. `BlobDrops` says before each call, from
  the state and the input, whether it drops one (`HandleDropsIff`), and that every packet is processed exactly once in
  exactly the runs without such a call (`ExactlyOnceIff`). `BlobReadiness` says which packets are ready from what went
  in and came out alone, and states the same for them (`ReadyIff`, `ExactlyOnceByHistory`).
* Line 162 shares the entries of a sub chunk with the packet that is forwarded. `BlobForwarding` says exactly when a
  client that uses the cache receives a packet whose hashes were cleared (`ForwardedUnchangedIff`, `ForwardedFilled`).
* A packet that is complete at once is written to a client without a cache at line 346, and the return at line 243 makes
  the session write a second one: line 603 of `utils/proxy/session.go` only asks whether a packet was returned, and line
  634 writes the packet as it was received, with its cache flag set and, for a level chunk, with hashes in place of
  blobs (`PlainClientGetsSubTwice`, `PlainClientGetsLevelTwice`).
* Line 408 lets a reported hash forget an earlier wait for it. `BlobClients` says exactly which reports do harm to the
  counters. `BlobStarvation` shows that no later call mends it, and that with nothing in flight every reported hash has
  been sent as often as it was reported if and only if every report was clean when it was made (`AllServedIff`);
  `DoubleReportStarves` is a run with one that was not.

What the cache hands on is told from the inputs as well: what goes to the capture and to the server (`RunReports`), and
what is written to the client (`PlainClientGetsAll`, `SentBlobsAreRight`).

## Findings in the other cores

* World store: a chunk that was flushed and then stored again empty stays on the provider with its old contents
  (`StaleChunk`, `SavedExactlyIff`); a chunk that StoreColumn fails for is deleted from memory all the same
  (`FailingFlushLosesIff`); merging a block entity into one that is not there, or is a nil map, panics (`NbtPanicsIff`,
  `MergePanics`).
* Capture reader: `ReadBack` leaves the file one packet ahead, `Seek` to the current packet does not mend it, and
  reading on at the end of the index files a wrong offset (`ReadBackKeepsTrackIff`, `AheadReadIff`), which can be done
  with every capture of two packets (`SpoilsEveryCapture`). With lengths up to 2^32 - 5 nothing else spoils the index
  (`MixedRunsKeepTrackIff`). A length of 2^32 - 4 or more wraps around when it is read, but not when it is skipped
  (`ReadKeepsTrackIff`, `FrameReadsBackIff`).
* Resource packs: the upload of a pack whose length is a multiple of 131072 is not over after the chunks that the
  download counts: it takes one more request, which nobody makes who counts like that (`TransferMeetsIff`,
  `ClientIsReleasedIff`). A chunk that could not be read is never sent, because the offset has moved on already
  (`ReadErrorSkips`). The comment above `packChunkSize` says 512 kB; the constant is 131072 bytes, and the model follows
  the constant.
* CFB8: `CfbDecrypt` overwrites the array of the key behind its first 16 bytes when the capacity of the key has room for
  the data there (`KeySurvivesIff`, `ShortKeyOverwritten`).
* NBT: what survives the way through JSON is stated exactly (`RoundTripIff`), and what was decoded cannot be encoded
  again if it has a list (`EncodesAgainIff`, `ListOnlyOnce`).
* Skins, when only textures are saved: distinct names are not enough for distinct files. The texture of one player may
  be a later texture or a cape of another (`FlatNamesCollideIff`, `CapeOverwritten`). The writer removes `../` and
  cleans the path, and names may have slashes: the players `a` and `./a`, or `a` and `../a`, write the same texture
  (`DotsOverwritten`). `FilesCollideIff` is the exact condition for all names.

## Model

| member | source | states |
|---|---|---|
| BlobPackets.AssembleIsConcat | utils/proxy/blobcache/blobcache.go:308-317 | with every blob stored under the hash that names it, a level chunk's payload is the named blobs in the order of the hashes |
| BlobPackets.FillIsPlain | utils/proxy/blobcache/blobcache.go:303-336 | filling a packet gives the packet of a server without the cache if and only if no unsuccessful entry names a blob; successful entries are right in any case |
| BlobPackets.EntriesFilled | utils/proxy/blobcache/blobcache.go:322-334 | every entry that names a blob gets it, failed ones too, or an empty payload if there is none, and names none afterwards; nothing else of it changes |
| BlobPackets.TouchesIff | utils/proxy/blobcache/blobcache.go:173-178 | a packet touches exactly the columns whose x and z are, in int32 arithmetic, those of its position plus those of the offset of a successful entry |
| BlobPackets.FillIdempotent | utils/proxy/blobcache/blobcache.go:303-336 | a packet that is filled in a second time, from whatever database, stays as it is |
| BlobInvariant.CountDown | utils/proxy/blobcache/blobcache.go:274-276 | taking one reference off a wait keeps the invariant, the wait being open if it was the last |
| BlobInvariant.ProcessKeeps | utils/proxy/blobcache/blobcache.go:302-355 | processing a wait and taking the sub chunks off its column keeps every part of the invariant |
| BlobInvariant.ResolveKeeps | utils/proxy/blobcache/blobcache.go:302-369 | resolving an open wait, with all that it wakes recursively, restores the invariant, in the middle of any caller's list of waiters |
| BlobInvariant.WakeKeeps | utils/proxy/blobcache/blobcache.go:353-366 | so does the loop over the sub chunks that waited for a column, whatever is left of it |
| BlobReachable.RegisterKeeps | utils/proxy/blobcache/blobcache.go:105-113 | filing a wait under a hash and counting it keeps the invariant of a wait that is being built, duplicate hashes included |
| BlobReachable.LevelLoopKeeps | utils/proxy/blobcache/blobcache.go:134-146 | after the loop over the hashes of a level chunk every hash is stored or waited for, and the column is marked if anything is missing |
| BlobReachable.SubLoopKeeps | utils/proxy/blobcache/blobcache.go:168-190 | after the loop over the entries of a sub chunk the blob of every successful entry is stored or waited for |
| BlobReachable.AddSubsKeeps | utils/proxy/blobcache/blobcache.go:192-198 | one reference for each waiting column the packet touches keeps the invariant |
| BlobReachable.FinishKeeps | utils/proxy/blobcache/blobcache.go:203-233 | finishing a wait leaves a quiet state: every invariant holds with nothing open |
| BlobReachable.HandleLevelChunkKeeps | utils/proxy/blobcache/blobcache.go:117-149 | a level chunk leads from a quiet state to a quiet state |
| BlobReachable.HandleSubChunkKeeps | utils/proxy/blobcache/blobcache.go:151-201 | a sub chunk packet leads from a quiet state to a quiet state |
| BlobReachable.WaitersKeep | utils/proxy/blobcache/blobcache.go:274-281 | the loop over the waits for a blob keeps the invariant although a resolve fires in the middle of it |
| BlobReachable.BlobStepKeeps | utils/proxy/blobcache/blobcache.go:253-288 | one blob of a miss response leads from a quiet state to a quiet state |
| BlobReachable.ClientStatusKeeps | utils/proxy/blobcache/blobcache.go:393-422 | a report of the client leads from a quiet state to a quiet state |
| BlobReachable.RunKeeps | utils/proxy/blobcache/blobcache.go:117-422 | every state that any run reaches is quiet, for the code as written and as meant |
| BlobRecords.CompleteHasAll | utils/proxy/blobcache/blobcache.go:227-233 | a wait without references has all its blobs in the database, so that loading one while it is resolved never misses |
| BlobRecords.FilledFaithfully | utils/proxy/blobcache/blobcache.go:302-338 | what is handed to processPacket is the received packet filled from a database that has every blob it names |
| BlobTheorems.CountsAreRegistrations | utils/proxy/blobcache/blobcache.go:105-113 | in every reachable state a wait's counter is the number of times it is filed under hashes and columns together, and what is filed has a positive counter |
| BlobTheorems.NothingStranded | utils/proxy/blobcache/blobcache.go:192-198 | in every reachable state sub chunks wait only for waiting columns, each waiting column has an unprocessed level chunk filed under an outstanding hash, and with no hash outstanding nothing waits |
| BlobTheorems.DoneIffReady | utils/proxy/blobcache/blobcache.go:227-233 | a wait that was not dropped has been processed if and only if all its blobs are stored and no column keeps it waiting |
| BlobTheorems.ProcessedExactlyOnce | utils/proxy/blobcache/blobcache.go:353-366 | every packet reaches processPacket exactly once when it is ready and not before, in all runs as meant; as written, in exactly the runs in which the test at line 358 never succeeds |
| BlobTheorems.CacheIsTransparent | utils/proxy/blobcache/blobcache.go:302-338 | when blobs are the ones their hashes name, every processed packet of every run is the one of the uncached stream |
| BlobTheorems.LevelChunksFirst | utils/proxy/blobcache/blobcache.go:192-198 | a sub chunk is never processed before a level chunk of each column that a successful entry of it lies in, by its absolute coordinates, if one was received before it, which the check at lines 146-148 of handlers/worlds/chunk.go relies on |
| BlobTheorems.HistoryIsInputs | utils/proxy/blobcache/blobcache.go:117-201 | the history these theorems speak of is the list of packets the cache was given, with the columns received before each |
| BlobReadiness.WaitingIff | utils/proxy/blobcache/blobcache.go:134-146 | a column waits if and only if a level chunk for it came in with a blob missing, and no level chunk of the column has been processed since that call began |
| BlobReadiness.KeptIff | utils/proxy/blobcache/blobcache.go:192-198 | a sub chunk is kept back by a column if and only if a successful entry of it lies in the column by its absolute coordinates, the column waited when it came in, and no level chunk of the column has been processed since |
| BlobReadiness.ReadyIff | utils/proxy/blobcache/blobcache.go:227-233 | a packet is ready if and only if its blobs were stored at the start or have come in and no column keeps it back, all told from what went in and came out |
| BlobReadiness.ExactlyOnceByHistory | utils/proxy/blobcache/blobcache.go:353-366 | every packet reaches processPacket exactly once when it is ready in that sense and not before, if and only if the code is as meant or no call meets the condition of BlobDrops |
| BlobDefects.ResolveAgreesIff | utils/proxy/blobcache/blobcache.go:353-366 | before the call: resolving as written does what is meant if and only if no sub chunk that waits for the column has its last reference there |
| BlobDefects.RunAgreesIff | utils/proxy/blobcache/blobcache.go:353-366 | a whole run as written ends in the state that is meant if and only if the test at line 358 never succeeded |
| BlobDefects.SubChunkDropped | utils/proxy/blobcache/blobcache.go:356-360 | a run of three packets in which a level chunk is processed twice and a sub chunk that is ready never |
| BlobDrops.ResolveWakesIff | utils/proxy/blobcache/blobcache.go:353-366 | before the call: resolving a level chunk drops a sub chunk if and only if one that waits for its column has its last reference there |
| BlobDrops.BlobsDropIff | utils/proxy/blobcache/blobcache.go:253-288 | before the call: the blobs of a response drop a sub chunk if and only if for one that waits nothing else is outstanding, the response completes a level chunk at each of its columns, and its own last hash is answered before the first level chunk of one of its columns is complete |
| BlobDrops.LevelDropsIff | utils/proxy/blobcache/blobcache.go:117-149 | before the call: a level chunk drops a sub chunk if and only if all its blobs are stored and one that waits for its column has a single reference |
| BlobDrops.SubDropsNone | utils/proxy/blobcache/blobcache.go:151-201 | a sub chunk packet drops none |
| BlobDrops.HandleDropsIff | utils/proxy/blobcache/blobcache.go:117-422 | before any call: whether it drops a sub chunk, from the state and the input |
| BlobDrops.RunDropsIff | utils/proxy/blobcache/blobcache.go:356-360 | the test at line 358 never succeeds in a run if and only if none of its calls meets that condition |
| BlobDrops.ExactlyOnceIff | utils/proxy/blobcache/blobcache.go:353-366 | as written, every packet reaches processPacket exactly once when it is ready and not before in exactly the runs in which no call meets it |
| BlobForwarding.ImmediateIsComplete | utils/proxy/blobcache/blobcache.go:227-233 | a sub chunk is complete in its own handler if and only if all its blobs are stored and none of its columns waits |
| BlobForwarding.SubFills | utils/proxy/blobcache/blobcache.go:158-201 | exactly then its handler fills it in |
| BlobForwarding.ForwardedUnchangedIff | utils/proxy/blobcache/blobcache.go:158-163 | a client that uses the cache gets the packet as it was received unless the packet was complete at once and named a blob; then it gets the filled entries |
| BlobForwarding.PlainClientGetsSubTwice | utils/proxy/session.go:603-634 | a client without a cache is written a sub chunk packet that is complete at once twice, first filled in and then as received, with the filled entries and still marked as cached; a packet that waits is not written at all |
| BlobForwarding.PlainClientGetsLevelTwice | utils/proxy/session.go:603-634 | and so is a level chunk whose blobs are all stored: filled in, and then with its hashes in place of blobs |
| BlobForwarding.ForwardedFilled | utils/proxy/blobcache/blobcache.go:158-163 | a run of one packet after which a client that uses the cache is forwarded a packet without its hash, still marked as cached |
| BlobForwarding.SubForwardsIff | utils/proxy/blobcache/blobcache.go:235-247 | something is forwarded if and only if there is a client, and it uses the cache or the sub chunk packet is complete at once |
| BlobForwarding.LevelForwardsIff | utils/proxy/blobcache/blobcache.go:235-247 | the same for a level chunk, which a client that uses the cache gets as it was received |
| BlobFlight.ReplyIsComplete | utils/proxy/blobcache/blobcache.go:134-146 | the status for a packet names exactly the stored hashes it needs, in order, with their blobs for the capture, and exactly the others that are not waited for yet |
| BlobFlight.OneFlightPerBlob | utils/proxy/blobcache/blobcache.go:105-113 | in every run the keys of serverWait are the hashes asked for and not answered, no message asks for a hash in flight or twice for one, in flight and stored exclude each other, and reported hits are stored |
| BlobReports.PacketReports | utils/proxy/blobcache/blobcache.go:203-225 | a packet sends its stored blobs, in order, to the capture, and to the server one status with their hashes and those that were not asked for before, in order; nothing if there are none |
| BlobReports.NewMissesIff | utils/proxy/blobcache/blobcache.go:105-109 | those are the hashes that are neither stored nor asked for, each once |
| BlobReports.ColumnNotes | utils/proxy/blobcache/blobcache.go:143-144 | a level chunk adds the hashes it misses to its column, in order, and leaves the other columns alone |
| BlobReports.PutLast | utils/proxy/blobcache/blobcache.go:255 | of several blobs with one hash the last is stored |
| BlobReports.RunReports | utils/proxy/blobcache/blobcache.go:117-288 | after every run the database, everything that went to the capture and everything said between cache and server, told from the inputs alone |
| BlobWrites.PacketWrites | utils/proxy/blobcache/blobcache.go:341-351 | a packet writes a client without a cache what it completes, in order, and any other client nothing |
| BlobWrites.BlobStepWrites | utils/proxy/blobcache/blobcache.go:253-288 | a blob writes the client all blobs of a wait that it was the last missing one of, with their stored payloads, and then what it completes |
| BlobWrites.StatusWrites | utils/proxy/blobcache/blobcache.go:398-421 | a report is answered at once with what is stored of it, in order, with the stored payloads |
| BlobWrites.PlainClientGetsAll | utils/proxy/blobcache/blobcache.go:341-351 | in every run with a client without a cache the waits write it exactly the packets that were processed, in order, and in every run without one nothing |
| BlobWrites.SentBlobsAreRight | utils/proxy/blobcache/blobcache.go:371-389 | when blobs are the ones their hashes name, so is every blob that any run writes to the client |
| BlobClients.CountsKeptIff | utils/proxy/blobcache/blobcache.go:400-410 | before the call: a report keeps the counters of client waits right if and only if it neither repeats a missing hash nor names one the client waits for already |
| BlobClients.UncleanStarves | utils/proxy/blobcache/blobcache.go:400-410 | any other report leaves a wait with more references than hashes that lead to it |
| BlobClients.StarvedForever | utils/proxy/blobcache/blobcache.go:261-267 | no blob completes such a wait and no later report mends it |
| BlobStarvation.HandleStarves | utils/proxy/blobcache/blobcache.go:117-422 | no call of any handler mends it |
| BlobStarvation.RunStarves | utils/proxy/blobcache/blobcache.go:400-410 | a wait that is starved somewhere in a run is starved at its end |
| BlobStarvation.StarvedIsUnsent | utils/proxy/blobcache/blobcache.go:371-389 | each hash of a starved wait has been sent less often than it was reported, however the run goes on |
| BlobStarvation.RunHeld | utils/proxy/blobcache/blobcache.go:249-422 | after every run, clean or not, each wait of the client is starved or has a right counter, and what was reported is what was sent and what unanswered waits owe |
| BlobStarvation.CleanOrStarved | utils/proxy/blobcache/blobcache.go:400-410 | after every run the counters are right if every report was clean when it was made, and otherwise a wait is starved |
| BlobStarvation.AllSentIff | utils/proxy/blobcache/blobcache.go:261-267 | every hash has been sent as often as it was reported if and only if the client waits for none and every report was clean |
| BlobStarvation.KnownIsAsked | utils/proxy/blobcache/blobcache.go:393-422 | with reports of known hashes, what the client waits for is in flight |
| BlobStarvation.AllServedIff | utils/proxy/blobcache/blobcache.go:249-422 | with reports of known hashes and nothing in flight: every hash has been sent as often as it was reported if and only if every report was clean when it was made |
| BlobStarvation.DoubleReportStarves | utils/proxy/blobcache/blobcache.go:408 | a run in which a hash is reported in two packets, its blob arrives, and it is sent once |
| BlobClients.ClientMissesAreServed | utils/proxy/blobcache/blobcache.go:261-267 | with clean reports of known hashes, every run keeps the client's waits within the hashes in flight, and each hash has been sent as often as it was reported, less what unanswered waits still owe: once nothing is in flight, exactly as often |
| BlobcacheObject.Blobcache.constructor | utils/proxy/blobcache/blobcache.go:69-82 | a new cache stands for the initial state over its database |
| BlobcacheObject.Blobcache.Count | utils/proxy/blobcache/blobcache.go:275 | changing the counter of a shared wait changes that one counter of the state |
| BlobcacheObject.Blobcache.FillLevelChunk | utils/proxy/blobcache/blobcache.go:308-320 | the loop over the hashes puts the stored blobs in order before the payload |
| BlobcacheObject.Blobcache.FillSlice | utils/proxy/blobcache/blobcache.go:322-334 | the loop fills every entry of the slice in place that names a blob, and no other |
| BlobcacheObject.Blobcache.FillIn | utils/proxy/blobcache/blobcache.go:303-336 | the packet of a wait becomes the filled packet, in the slice it shares |
| BlobcacheObject.Blobcache.FillWait | utils/proxy/blobcache/blobcache.go:303-336 | filling one wait changes the packet of no other |
| BlobcacheObject.Blobcache.ProcessWait | utils/proxy/blobcache/blobcache.go:302-351 | the heap goes through the state's processing of the wait |
| BlobcacheObject.Blobcache.ServerResolve | utils/proxy/blobcache/blobcache.go:302-369 | the recursion over shared waits ends, and ends in the state that the specification says |
| BlobcacheObject.Blobcache.WakeOne | utils/proxy/blobcache/blobcache.go:357-363 | one turn of the loop over woken sub chunks, resolving the level chunk again as written |
| BlobcacheObject.Blobcache.AllocateWait | utils/proxy/blobcache/blobcache.go:122-131 | a new wait is a new object and adds one wait without references |
| BlobcacheObject.Blobcache.AddServerWait | utils/proxy/blobcache/blobcache.go:105-113 | a hash goes into the reply only if nothing waited for it, and the wait is filed and counted |
| BlobcacheObject.Blobcache.LevelHashes | utils/proxy/blobcache/blobcache.go:134-146 | reply, hit blobs and state after the loop over a level chunk's hashes |
| BlobcacheObject.Blobcache.SubHashes | utils/proxy/blobcache/blobcache.go:168-190 | reply, hit blobs, state and touched columns after the loop over the entries, in int32 coordinates |
| BlobcacheObject.Blobcache.WaitForLevelChunks | utils/proxy/blobcache/blobcache.go:192-198 | the columns may be visited in any order: one reference for each that waits |
| BlobcacheObject.Blobcache.Announce | utils/proxy/blobcache/blobcache.go:203-225 | hits go to the capture and a reply that is not empty to the server |
| BlobcacheObject.Blobcache.FinishWait | utils/proxy/blobcache/blobcache.go:203-247 | a complete wait is resolved at once, and what is forwarded depends on the client and the counter afterwards |
| BlobcacheObject.Blobcache.HandleLevelChunk | utils/proxy/blobcache/blobcache.go:117-149 | the heap stands for the state after the packet, and the returned packet is the one the specification forwards |
| BlobcacheObject.Blobcache.HandleSubChunk | utils/proxy/blobcache/blobcache.go:151-201 | the same for a sub chunk packet whose slice is shared with the wait: the forwarded packet shows what was filled in |
| BlobcacheObject.Blobcache.ServeClient | utils/proxy/blobcache/blobcache.go:260-267 | a blob the client waits for counts down its wait, and the last one sends all its blobs |
| BlobcacheObject.Blobcache.ClientResolve | utils/proxy/blobcache/blobcache.go:371-389 | the client is sent the stored blobs of the wait in order |
| BlobcacheObject.Blobcache.AnswerOne | utils/proxy/blobcache/blobcache.go:274-281 | one turn of the loop over the waits for a blob |
| BlobcacheObject.Blobcache.HandleBlob | utils/proxy/blobcache/blobcache.go:253-288 | one blob is stored, handed on and resolves what waited for it |
| BlobcacheObject.Blobcache.HandleClientCacheMissResponse | utils/proxy/blobcache/blobcache.go:249-288 | the heap stands for the state after all blobs of the response |
| BlobcacheObject.Blobcache.WaitForClient | utils/proxy/blobcache/blobcache.go:405-409 | a missing hash is counted and leads to this wait from now on, whatever it led to before |
| BlobcacheObject.Blobcache.HandleClientCacheBlobStatus | utils/proxy/blobcache/blobcache.go:393-422 | the heap stands for the state after the report, with what is stored sent back at once |
| WorldStore.CoordinateRecovers | handlers/worlds/worldstate/world.go:411-413 | x >> 4 and the low four bits of uint8(x % 16), with Go's remainder, recover every x, negative ones included |
| WorldStore.BlockIsRecovered | handlers/worlds/worldstate/world.go:290-295 | the chunk and the cell of an update name its block; its height survives if and only if it is an int16 |
| WorldStoreTheorems.QueueByChunk | handlers/worlds/worldstate/world.go:427-452 | applying a queue in order of arrival does to each chunk what its own updates do, and adds or removes no chunk |
| WorldStoreTheorems.UpdatesByChunk | handlers/worlds/worldstate/world.go:427-452 | flushing the updates grouped by chunk gives the chunks that the whole queue in order of arrival gives |
| WorldStoreTheorems.LastUpdateWins | handlers/worlds/worldstate/world.go:442-445 | afterwards every block of a chunk that is there is what the last update that reaches it says, and unchanged without one |
| WorldStoreTheorems.ReachesOne | handlers/worlds/worldstate/world.go:290-295 | of the blocks whose height is an int16 an update reaches the one it names and no other |
| WorldStoreTheorems.UpdatesKeepEntities | handlers/worlds/worldstate/world.go:442-445 | block updates leave the block entities alone |
| WorldStoreTheorems.LoadKeepsView | handlers/worlds/worldstate/world.go:261-288 | loading changes nothing that can be seen, finds just what memory and provider hold together, and keeps it in memory |
| WorldStoreTheorems.FlushKeepsView | handlers/worlds/worldstate/world.go:128-189 | writing chunks back changes nothing that can be seen |
| WorldStoreTheorems.FailingFlushLosesIff | handlers/worlds/worldstate/world.go:179-186 | before the flush: it keeps what the store holds if and only if StoreColumn fails for no chunk that the provider does not have as it is |
| WorldStoreTheorems.StoreSetsView | handlers/worlds/worldstate/world.go:222-253 | storing a chunk changes that chunk only |
| WorldStoreTheorems.DoIsSimple | handlers/worlds/worldstate/world.go:128-317 | every operation does to memory, provider and grouped updates what it does to one map and one queue |
| WorldStoreTheorems.EveryRunIsSimple | handlers/worlds/worldstate/world.go:128-317 | so does every run: the two-level store is one simple map |
| WorldStoreTheorems.NbtPanicsIff | handlers/worlds/worldstate/world.go:310-314 | setting a block entity panics if and only if something is merged into an entry that is not there or is a nil map, in a chunk that is there |
| WorldStoreTheorems.MergePanics | handlers/worlds/worldstate/world.go:310-314 | runs of one and two operations after which merging panics, once although there is an entry |
| WorldStoreTheorems.NbtSets | handlers/worlds/worldstate/world.go:297-317 | otherwise the entry is replaced, or merged field by field with the new fields winning, and no other entry, no terrain and no other chunk changes |
| WorldStoreTheorems.EveryRunIsSound | handlers/worlds/worldstate/world.go:222-253 | in every run the provider holds no empty chunk, chunks that are not empty are in StoredChunks, and StoredChunks means there is something to save |
| WorldStoreTheorems.StoredIsEverFull | handlers/worlds/worldstate/world.go:230-232 | StoredChunks are exactly the positions at which a chunk was ever anything but empty, by a store, a merge or a block update |
| WorldStoreTheorems.NothingIsLost | handlers/worlds/worldstate/world.go:596-600 | after the last flush of any run every chunk that is not empty is on the provider unchanged, and with StoredChunks not empty, as SaveAndReset demands, there is a provider |
| WorldStoreTheorems.SavedWasHeld | handlers/worlds/worldstate/world.go:158-187 | every chunk on the provider is not empty, and was in the store like that at some time: where every chunk was empty nothing is saved |
| WorldStoreTheorems.ProviderOpenedIff | handlers/worlds/worldstate/world.go:128-151 | there is a provider if and only if there was a chunk when the ticker came |
| WorldStoreTheorems.SavedExactlyIff | handlers/worlds/worldstate/world.go:158-187 | before the flush: the provider will hold exactly the chunks that are not empty if and only if no chunk that was written before is empty in memory now |
| WorldStoreTheorems.StaleChunk | handlers/worlds/worldstate/world.go:158-169 | a chunk that is stored, flushed and stored again empty is saved with its first contents |
| WorldObject.World.StoreMemToProvider | handlers/worlds/worldstate/world.go:128-189 | the loop that deletes from the map it ranges over, in any order, leaves the empty chunks in memory and puts the others on the provider, but for those that StoreColumn fails for, which are deleted, too |
| WorldObject.World.StoreChunkLocked | handlers/worlds/worldstate/world.go:222-253 | the chunk is in memory, and noted as stored if it is not empty |
| WorldObject.World.LoadChunkLocked | handlers/worlds/worldstate/world.go:261-288 | memory first, then the provider, whose chunk is kept in memory |
| WorldObject.World.QueueBlockUpdate | handlers/worlds/worldstate/world.go:290-295 | the update is the last of its chunk's |
| WorldObject.World.ApplyToChunk | handlers/worlds/worldstate/world.go:432-450 | one group is applied in order, or dropped with the chunk missing |
| WorldObject.World.ApplyBlockUpdates | handlers/worlds/worldstate/world.go:427-452 | the groups, visited in any order and deleted on the way, give the one result |
| WorldObject.AppliedOne | handlers/worlds/worldstate/world.go:430-451 | whichever groups were applied before, the next chunk is as it was |
| WorldObject.World.SetBlockNbt | handlers/worlds/worldstate/world.go:297-317 | the entry is set, merged or left alone, or the call panics |
| WorldObject.World.SaveChunks | handlers/worlds/worldstate/world.go:242-245 | updates first, then the flush, also one that fails |
| LittleEndian.LeRoundTrip | handlers/capture.go:29 | an integer that fits its bytes is read back from them |
| LittleEndian.Int64RoundTrip | handlers/capture.go:35 | a time survives the way through uint64 if and only if it is an int64 |
| CaptureFile.PatchedHeader | handlers/capture.go:101-105 | writing the size at offset 8 turns the head with 0 into the head with the size, and touches no byte of the zip |
| CaptureFile.FrameBytes | handlers/capture.go:27-37 | at their places in a frame stand 0xAAAAAAAA, the length, the direction, the time, the payload and 0xBBBBBBBB, little-endian |
| CaptureFile.HeaderBytes | handlers/capture.go:68-70 | a file begins with "BTCP", version 5 and the size |
| CaptureFile.NoFrameIsLost | handlers/capture.go:23-116 | for every interleaving of dumped packets with the steps of OnServerConnect: all frames are in the buffer, or the file is head, zip and all frames in the order of the lock |
| CaptureFile.PacketCapturer.DumpPacket | handlers/capture.go:23-40 | one encoded frame is added to whatever is written to at the moment |
| CaptureFile.PacketCapturer.CreateFile | handlers/capture.go:62-70 | the first step of OnServerConnect, whatever was dumped before it |
| CaptureFile.PacketCapturer.WriteZip | handlers/capture.go:72-99 | its second one, of which there may be many |
| CaptureFile.PacketCapturer.PatchSize | handlers/capture.go:101-105 | its third one |
| CaptureFile.PacketCapturer.FlushBuffer | handlers/capture.go:107-114 | its last one, under the lock; with DumpPacket in between, any interleaving of these methods is one that NoFrameIsLost speaks of |
| CaptureFile.PacketCapturer.OnServerConnect | handlers/capture.go:59-116 | header, zip, size and flush, one after the other |
| CaptureReader.TakenIff | utils/proxy/pcap2/pcap2reader.go:118-131 | a read ends where the packet ends if and only if it skips or the length plus 4 does not wrap around as a uint32 |
| CaptureReader.ReadsIff | utils/proxy/pcap2/pcap2reader.go:97-150 | which bytes lead to which outcome of a read or a skip: a magic number or an end that differs, a file that ends, a length that wraps around, a payload that cannot be decoded, and otherwise direction, time and payload |
| CaptureReader.ReadKeepsTrackIff | utils/proxy/pcap2/pcap2reader.go:89-173 | before the call: a read keeps the position at the start of packet CurrentPacket and the index right if and only if it skips, or no whole packet follows, or its length does not wrap around |
| CaptureReader.SkipKeepsTrack | utils/proxy/pcap2/pcap2reader.go:183-189 | skipping n packets keeps track and succeeds if and only if there are n |
| CaptureReader.SeekLands | utils/proxy/pcap2/pcap2reader.go:176-200 | Seek lands on every packet of the capture, forwards and backwards, also after a read that failed; from within the capture it fails for every other |
| CaptureReader.EveryRunKeepsTrack | utils/proxy/pcap2/pcap2reader.go:89-200 | in every run of reads, skips and seeks, failing ones included, position and index are right as far as there are packets, for lengths up to 2^32 - 5 |
| CaptureReader.BackGoesAhead | utils/proxy/pcap2/pcap2reader.go:202-215 | ReadBack leaves the file one packet ahead, wherever it was before |
| CaptureReader.AheadReadIff | utils/proxy/pcap2/pcap2reader.go:91-94 | before the call: reading or skipping while the file is one packet ahead keeps the index right if and only if the packet is in the index already or nothing is left in the file at its start; and then the file stays one packet ahead |
| CaptureReader.AheadSkipIff | utils/proxy/pcap2/pcap2reader.go:183-189 | before the call: the same for n skips, which Seek makes forwards, from the length of the index and of the file |
| CaptureReader.MixedRunsKeepTrackIff | utils/proxy/pcap2/pcap2reader.go:89-215 | for lengths up to 2^32 - 5: after a run of reads, skips, seeks and ReadBacks the index is right if and only if no call read a packet behind the index while the file was one packet ahead; and then the position is that of CurrentPacket, or one packet ahead after a ReadBack until a seek backwards |
| CaptureReader.ReadBackReturns | utils/proxy/pcap2/pcap2reader.go:202-215 | ReadBack returns the packet before the current one, whatever the position of the file |
| CaptureReader.ReadBacksDescend | utils/proxy/pcap2/pcap2reader.go:202-215 | consecutive ReadBacks return the packets in strictly descending order down to the first, and then io.EOF |
| CaptureReader.AllBefore | utils/proxy/pcap2/pcap2reader.go:202-215 | none of them is missing: there are as many as CurrentPacket says |
| CaptureReader.ReadBackKeepsTrackIff | utils/proxy/pcap2/pcap2reader.go:212-213 | ReadBack keeps track if and only if it was called at the first packet; otherwise the file is one packet ahead |
| CaptureReader.ReadBackSpoilsIndex | utils/proxy/pcap2/pcap2reader.go:91-94 | reading on after it at the end of the index files the start of the next packet but one, even after a Seek to the current packet |
| CaptureRoundTrip.SpoilsEveryCapture | utils/proxy/pcap2/pcap2reader.go:202-215 | with every capture of two packets or more: a run of five operations after which the index has a wrong start of the second packet |
| PcapReader.Pcap2Reader.ReadPacket | utils/proxy/pcap2/pcap2reader.go:89-173 | outcome, position, index and CurrentPacket of a read, failing ones included |
| PcapReader.Pcap2Reader.ReadRest | utils/proxy/pcap2/pcap2reader.go:118-173 | what follows a header is skipped with an int64 and read with a uint32 |
| PcapReader.Pcap2Reader.Seek | utils/proxy/pcap2/pcap2reader.go:176-200 | the loop of skips, or the jump to an offset of the index |
| PcapReader.Pcap2Reader.ReadBack | utils/proxy/pcap2/pcap2reader.go:202-215 | CurrentPacket is decremented before and after the read |
| CaptureRoundTrip.HeadReadsBack | utils/proxy/pcap2/pcap2reader.go:38-49 | a reader finds version 5 and the size of the zip in every capture, right if and only if the size is an int64 |
| CaptureRoundTrip.FrameReadsBackIff | utils/proxy/pcap2/pcap2reader.go:97-171 | a frame whose size fits a uint32 is read back with direction, time and payload, or as undecodable if its payload cannot be decoded, if and only if the size is at most 2^32 - 5 |
| CaptureRoundTrip.CutFrameFails | utils/proxy/pcap2/pcap2reader.go:98-128 | a frame that is cut off anywhere is an error and no packet |
| CaptureRoundTrip.StartsAreOffsets | utils/proxy/pcap2/pcap2reader.go:89-131 | the starts a reader finds are the offsets at which the frames were written, as far as the file goes |
| CaptureRoundTrip.CaptureReadsBack | utils/proxy/pcap2/pcap2reader.go:89-173 | the capture of any interleaving, cut anywhere behind its head, gives exactly the frames it holds wholly, in order, an undecodable one as such, and then an error |
| PackTransfer.AcceptedInOrder | utils/proxy/resourcepacks/resourcepacks.go:496-513 | whatever the server sends, the fragments that reach the download are numbered without a gap |
| PackTransfer.AcceptedIff | utils/proxy/resourcepacks/resourcepacks.go:508-512 | a fragment reaches the download if and only if its index is the next one after those of all that reached it before |
| PackTransfer.ServedIsAccepted | utils/proxy/resourcepacks/resourcepacks.go:496-513 | what an upload sends passes the check of the indices unchanged, also when they wrap around as a uint32 |
| PackTransfer.LoopTakesAll | utils/proxy/resourcepacks/resourcepacks.go:382-428 | from any chunk on, a download that succeeds takes exactly what is missing |
| PackTransfer.SuccessfulDownload | utils/proxy/resourcepacks/resourcepacks.go:368-428 | a download that succeeds has requested the chunks 0 to ceil(size / chunk) - 1 once each, in order, and written the fragments one after the other: as many bytes as the pack has |
| PackTransfer.FragmentsAnswerRequests | utils/proxy/resourcepacks/resourcepacks.go:368-428 | the fragments of a download that succeeds are those the server numbered 0, 1, 2, ..., each in answer to the request with its number, whatever else the server sends |
| PackTransfer.DownloadSucceedsIff | utils/proxy/resourcepacks/resourcepacks.go:368-428 | for every chunk size: a download succeeds if and only if an int32 can count the chunks and the first events are the chunks of a pack of that size, each at its offset, full but for the last, in order |
| PackTransfer.DownloadFails | utils/proxy/resourcepacks/resourcepacks.go:388-428 | when chunk k is the first that does not come like that, it was the last one asked for, and what came instead decides the error |
| PackTransfer.CountTurnsNegative | utils/proxy/resourcepacks/resourcepacks.go:370-383 | with 2^31 chunks or more, but less than 2^32, nothing is asked for and the size is wrong |
| PackTransfer.DownloadGetsPackIff | utils/proxy/resourcepacks/resourcepacks.go:368-428 | for every chunk size: sent the pieces of a pack in order, the download writes the pack and asks once for each, if and only if an int32 can count them |
| PackTransfer.ServedUntil | utils/proxy/resourcepacks/resourcepacks.go:557-613 | requests in order are answered with the chunks of the pack, and the entry is removed with request floor(L / 131072) |
| PackTransfer.ClientIsReleasedIff | utils/proxy/resourcepacks/resourcepacks.go:598-611 | after as many requests as the client counts it is expected to make another one if and only if the last chunk is a full one, and otherwise is released if and only if no other pack is being uploaded |
| PackTransfer.ReadErrorSkips | utils/proxy/resourcepacks/resourcepacks.go:581-594 | a chunk that could not be read cannot be asked for again |
| PackTransfer.OnlyNextIsServed | utils/proxy/resourcepacks/resourcepacks.go:573-575 | of all int32 indices only the next one is answered with a chunk, and any other request is refused and changes nothing |
| PackTransfer.RequestTouchesOne | utils/proxy/resourcepacks/resourcepacks.go:557-613 | a request changes nothing unless it reads a chunk, and then only the upload of its own pack; which requests are malformed or name an unknown pack |
| PackTransfer.TransferMeetsIff | utils/proxy/resourcepacks/resourcepacks.go:496-613 | against the upload, through the check of the indices, the download gets the pack with ceil(L / 131072) requests if and only if that is an int32, and the entry is removed by them if and only if 131072 does not divide L |
| ResourcepacksObject.DownloadHandler.OnResourcePackChunkData | utils/proxy/resourcepacks/resourcepacks.go:496-514 | a fragment is handed to the download if and only if a pack is awaited, it is not a replay and the fragment is the next one; what was handed over and the counter then stand for the whole stream |
| ResourcepacksObject.DownloadingPack.Download | utils/proxy/resourcepacks/resourcepacks.go:368-428 | outcome, requests and file of the loop, every error included, also when the connection closes while a fragment is ready |
| ResourcepacksObject.DownloadingPack.Take | utils/proxy/resourcepacks/resourcepacks.go:392-424 | one turn of the loop |
| ResourcepacksObject.UploadHandler.OnResourcePackChunkRequest | utils/proxy/resourcepacks/resourcepacks.go:557-613 | answer, expected packets and uploads after a request, malformed and unreadable ones included |
| Cfb8.DecryptsIff | utils/utils.go:84-96 | decrypting gives a plaintext if and only if the ciphertext is its 8-bit CFB encryption as section 6.3 of NIST SP 800-38A defines it, with the register as initialization vector |
| Cfb8.DecryptEncrypt | utils/utils.go:84-96 | decrypting what the mode encrypted gives it back |
| Cfb8.EncryptIsCfb8 | utils/utils.go:84-96 | what that encrypts is the mode of the standard |
| Cfb8.DecryptSplit | utils/utils.go:118-134 | data may be split anywhere, if the second part starts with the last 16 bytes before it |
| Cfb8.AnySplit | utils/utils.go:118-134 | for every split of the ciphertext over reads the bytes are those of CfbDecrypt on the whole |
| Cfb8.RegisterIsWindow | utils/cfb8_test.go:56-67 | the register always holds the last 16 bytes of the key's first 16 and the ciphertext so far, the sliding window of the older reader |
| Cfb8.KeySurvivesIff | utils/utils.go:87 | CfbDecrypt leaves the key alone if and only if its capacity has no room for the data behind its first 16 bytes or what would be written within its length stands there already; and the whole array if and only if there is no room or the data stands there |
| Cfb8.ShortKeyOverwritten | utils/utils.go:87 | a key of 24 bytes in an array of 64 is overwritten by 20 bytes of data |
| Cfb8.CfbDecrypt | utils/utils.go:84-96 | what stood in the array is the CFB8 encryption, as the standard defines it, of what stands there afterwards, with the key's first 16 bytes as initialization vector; and what becomes of the array of the key |
| Cfb8.Reader.Read | utils/utils.go:118-134 | what the underlying reader gave is the CFB8 encryption of the bytes that are read, with the register as initialization vector; the others are untouched, and the register moves on |
| NbtJson.EncodesIff | subcommands/dump-actors/jsonnbt.go:76-127 | a value has an encoding if and only if its leaves are of the known types, its floats finite and its lists []any, at every depth |
| NbtJson.RoundTripIff | subcommands/dump-actors/jsonnbt.go:26-138 | decoding the encoding gives the value with its lists retyped if and only if no map or list in it is empty and the elements of each list have one type |
| NbtJson.EncodesAgainIff | subcommands/dump-actors/jsonnbt.go:79-124 | what was decoded can be encoded again if and only if it has no list |
| NbtJson.ListOnlyOnce | subcommands/dump-actors/jsonnbt.go:79-124 | a list of one byte that survives once and cannot be encoded again |
| NbtJson.FirstFieldCounts | subcommands/dump-actors/jsonnbt.go:26-74 | of several fields that are set the first in the order of the struct decides, whatever the others are |
| NbtJson.SliceDecodesIff | subcommands/dump-actors/jsonnbt.go:51-70 | a slice decodes to a list of an element type if and only if all its elements decode to values of that type, and panics otherwise |
| NbtJson.Marshal | subcommands/dump-actors/jsonnbt.go:76-127 | the loops over maps and lists give the encoding, or the error of any element |
| NbtJson.ValueOf | subcommands/dump-actors/jsonnbt.go:26-74 | the first field that is set decides, and a map is decoded field by field |
| NbtJson.SliceOf | subcommands/dump-actors/jsonnbt.go:51-70 | the type of the first element is the type of the slice, and any other one panics |
| NbtJson.JsonNbtValue.UnmarshalJSON | subcommands/dump-actors/jsonnbt.go:129-138 | the value is assigned unless the text is malformed, which is an error, or decoding panics |
| SkinNames.DecimalReadsBack | handlers/skins.go:116 | a number is read back from its digits, and has no leading zero |
| SkinNames.CandidatesDiffer | handlers/skins.go:113-117 | the names that are tried are all different |
| SkinNames.FirstFree | handlers/skins.go:113-122 | the search ends within as many suffixes as there are names, with the first name that is free |
| SkinNames.DoKeeps | handlers/skins.go:88-125 | every operation keeps playersByName the inverse of the final names, and takes no final name back |
| SkinNames.FinalNames | handlers/skins.go:88-125 | in every run final names are pairwise distinct, never change, and lead back to their players |
| SkinNames.FinalNameIs | handlers/skins.go:88-125 | in every run the name that becomes final is the first one of the player list, cleaned up, or else the last one of spawning, or else the UUID, as it is or with the first of _1, _2, ... that makes it free |
| SkinNames.NamesMeet | handlers/skins.go:240-242 | any two names, which need not survive cleaning up, become final in one run |
| FileNames.CleanIsNormal | utils/fswriter.go:66 | a cleaned path has no empty element and no ".", and ".." only in front of a path that is not rooted |
| FileNames.NormalIsClean | utils/fswriter.go:66 | a path like that is left as it is |
| FileNames.CleanRules | utils/fswriter.go:66 | path.Clean makes several slashes one, drops ".", and drops an element together with the ".." behind it |
| FileNames.RootRule | utils/fswriter.go:66 | and ".." in front of a path that is rooted |
| FileNames.StripFirst | utils/fswriter.go:65 | strings.ReplaceAll removes the first "../" and goes on behind it |
| FileNames.OpenedInFolder | utils/fswriter.go:63-71 | the path that is opened for a name with a suffix: the folder that the base and all of the name but its last element lead to, and that element with the suffix |
| FileNames.OpenedSameIff | utils/fswriter.go:63-71 | two names with suffixes open one file if and only if their folders are one and their last elements with the suffixes are the same |
| SkinTextures.FilesCollideIff | handlers/skins.go:149-165 | when only textures are saved: skins of any two names share a file if and only if the names lead to one folder and the last element of one, with the number of its skin, is that of the other, or is it with "_cape" behind it where the other has a cape |
| SkinTextures.FlatNamesCollideIff | handlers/skins.go:149-165 | for different names without slashes: if and only if one name is what a later skin of the other or, with "_cape" behind it, a cape of it is saved as |
| SkinTextures.OwnFilesDiffer | handlers/skins.go:149-165 | different skins of one name share no file |
| SkinTextures.CapeOverwritten | utils/skinconverter/skinpack.go:86-96 | a run with final names "a" and "a_cape", of which the cape of the first is the texture of the second |
| SkinTextures.DotsOverwritten | utils/fswriter.go:63-71 | runs with final names "a" and "./a", or "a" and "../a", whose textures are one file |
| SkinsObject.SkinSaver.AddOrGetPlayer | handlers/skins.go:88-98 | the player is the old object or a new one, and gets a name only if he has none |
| SkinsObject.SkinSaver.FindName | handlers/skins.go:113-122 | the loop ends, with the first candidate that is free |
| SkinsObject.SkinSaver.EnsureFinalName | handlers/skins.go:100-125 | a name is made final once and filed |
| TileCanvas.TileCoord | ui/gui/pages/worlds/map2.go:133-149 | tile * 256 + offset is the chunk's coordinate in blocks with 0 <= offset <= 240, for negative chunks too |
| TileCanvas.SquareIsChunk | ui/gui/pages/worlds/map2.go:133-165 | a pixel of a tile is in the square drawn for a chunk if and only if it belongs to the chunk |
| TileCanvas.TileOfChunk | ui/gui/pages/worlds/map2.go:133-152 | the tile of a chunk is the tile of all its pixels |
| TileCanvas.ShownStep | ui/gui/pages/worlds/map2.go:163-165 | one more chunk changes the canvas in its own square of its own tile and nowhere else |
| TileCanvas.LastImageShown | ui/gui/pages/worlds/map2.go:154-174 | each pixel shows the last image that was added for its chunk |
| TileCanvas.NeverDrawn | ui/gui/pages/worlds/map2.go:158-162 | and is transparent if there was none |
| TileCanvas.Map2.Draw | ui/gui/pages/worlds/map2.go:163-165 | the blit stays in its tile and writes its square only |
| TileCanvas.Map2.AddTile | ui/gui/pages/worlds/map2.go:156-167 | the tiles show the unbounded canvas with one more chunk |
| TileCanvas.Map2.AddTiles | ui/gui/pages/worlds/map2.go:154-174 | the tiles show the unbounded canvas with all the chunks, and every tile has an op of its own image |
| TileCanvas.Map2.Reset | ui/gui/pages/worlds/map2.go:176-181 | the canvas is empty |

## Left out

- LevelDB, the zip body, s2, AES, the chunk, packet and NBT codecs: parameters, with their inverse laws where a theorem needs one.
- Errors of writing, reading and callbacks (a full disk, a closed connection): not modelled, except that a download may lose its connection, an uploaded pack may not be readable, and StoreColumn may fail.
- Blob cache: `queued` and the limit on blobs in flight (lines 210-215 and 290-297), dead because of `&& false`; the warning about unexpected blobs (lines 283-287); the client does not change while a handler runs.
- Blob cache: the handlers that see a packet in `utils/proxy/session.go` between its return and line 634, which may replace it.
- BlobcacheObject.Blobcache.ClientResolve: without a client it stands for sending blobs to nobody, where the code calls a method of nil at line 386 and panics.
- BlobcacheObject.Blobcache.HandleClientCacheBlobStatus: neither does it panic without a client when it sends back what is stored, as line 416 does.
- Blob cache: how deep the recursion of line 359 goes; that it ends is proved.
- BlobcacheObject.Blobcache.HandleSubChunk: asks that the slice of the packet is none of a packet it was given before, waiting or processed; every packet is decoded into a new slice.
- BlobClients.ClientMissesAreServed: speaks of runs with clean reports; AllSentIff and AllServedIff of BlobStarvation speak of all runs.
- BlobPackets.FillIsPlain: takes a blob for what its hash names; hashes of blobs that arrive are not checked by the code either.
- World store: entities, links, maps, players, dimensions, renaming, and what finalizeProvider does after the flush; the ticker is an operation that may come at any time.
- World store: chunks are values, so the model does not capture a caller who goes on writing to the chunk object that LoadChunk gave him after the chunk was flushed.
- World store: `IgnoredChunks`, hashed runtime ids, and the callback that draws a stored chunk.
- World store: what the library does with a height outside the chunk, and what StoreColumn does with a block entity that is a nil map; the provider gives back what it was given.
- Captures: version 4, which is read through a decompressor and cannot seek; the decoder of packets, other than for which payloads it fails; a negative packet number or an index that is too short, both of which panic in Seek.
- Captures: which resource packs go into the zip and under which names.
- PcapReader.Pcap2Reader.Seek: refuses captures before version 5, which the class does not read.
- CaptureReader.EveryRunKeepsTrack: covers ReadPacket and Seek; MixedRunsKeepTrackIff covers ReadBack, too.
- ResourcepacksObject.DownloadHandler.OnResourcePackChunkData: hands fragments over in a queue, where `newFrag` is an unbuffered channel (line 278) and line 512 blocks until the loop takes the fragment; a handler that waits there for a loop that has ended is not modelled.
- Resource packs: the handshake over the other channels, downloads by URL, several versions of a pack, the hash and the cache file, uploads that are added while others run, and sizes of uploads of 2^63 bytes or more.
- CFB8: a reader that uses the rest of the buffer as scratch space.
- Cfb8.CfbDecrypt: asks that the data lies in another array than the key.
- NBT: the text of the JSON, other than that it may be malformed; numbers out of range and strings that are not UTF-8.
- Skins: CleanupName and the printing of a UUID are parameters; skins, and what else is done with players.
- SkinTextures.FilesCollideIff: speaks of the mode that saves textures only, not of skin packs; of paths as path.Clean writes them, so not of links, file systems that ignore case, backslashes that separate, or names that cannot be opened because a folder is in the way.
- Map tiles: layout, input and painting; an image op refers to the image it was made of.
- Entity properties and culling, authentication and other network clients, the user interface, pack generation, scripting: not part of this model.
