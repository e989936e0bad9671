# Transferly: a verified model of the file-offer engine

Transferly lets two peers offer each other files and folders over a verified session. This project models the engine
behind an offer, in `internal/terminal`, and the framing it rides on, in `internal/session`, and proves what the two
peers, their wires and the receiving disk do over every input, every schedule and every run.

## How it is organised

The path of an offer, from a selection on one computer to files on the other:

- `Names`: paths as lists of components, folded keys, and the rules of `internal/terminal/safety.go`.
- `Tokenizer`: the typed arguments of `send`, with the language they may be written in.
- `Manifest`: the walk of a source tree into a manifest, as an object that appends, against a recursive function.
- `Tree`: what a built manifest says of the selected trees, stated of the trees themselves.
- `Validation`: the receiver's checks on a manifest, as loops, against one predicate. `Agreement` joins the two sides.
- `Announcement`: the frames as JSON text, with its escapes, and the frame limit they must keep. `Reading`: a reader of
  that text, and what each frame says. `Wire`: the text as bytes, sent frame by frame and read back as the same offer.
- `ConflictNames` and `Destinations`: final names free of conflicts, and where each entry goes.
- `Disk` and `Staging`: the disk beneath the destination; making an offer's folders, or none of them.
- `Receiver`: the receiving state machine as a function. `IncomingOffer`: the same as the object the program has, every
  handler proved equal to the function. `Outcomes`, `Publication` and `Sessions`: what every sequence of frames, with
  every answer of the operating system, does to the books and to the disk. `Refusals`: which frames are taken at all.
- `Framing`: newline-ended frames mixed with raw payload, through partial writes and a reused buffer.
- `Sender`: the loop over one file. `Transfer`: two peers, workers, two first-in first-out wires. `Summaries` is its
  invariant and `Deliveries` holds the results: both peers agree, nothing is refused, every run ends.
  `Arrivals` says which files arrive.
- `Pipeline`: all stages in a row, from the selection to the files at their destinations. `Example`: one run of it all.
- `Barrier`: how the workers start. `Fence`: the cancel flag, two locks, and what may still follow a cancel frame.
  `Cancellation`: what the receiving session makes of it.
- `Coordinator`: the slots and queues of one peer. `ConnectingPeer`: what they promise on the peer that connected.
- `OneOffer`: both peers, all their offers, both wires. `Steps` gives its actions one shape. `Standstill`: where runs
  come to rest. `Progress`: that rest is reached. `Deadlock`: which offers then never end. `Overtaking` and
  `Overtaken`: how that comes about, and that it does not where nobody overtakes. `Standoff`: a run that gets stuck.
- `Stopping` and `CancelCommands`: what a cancel command does to the offer it picks. `DroppedCancel` and `EarlyCancel`:
  two runs in which it does nothing.
- `Idle`: the idle monitor, its wake token, its warning and its expiry.

Methods and their classes follow the program's own loops and fields. Each is proved against a function, and the results
are lemmas about those functions. Schedules are sequences of steps, and "for every run" means for all such sequences.

## Where the code falls short of its promises

Some promises do not hold of the code. For each of them the project keeps the code as it is, gives a run that fails,
and proves for all inputs or all runs exactly when the promise is kept. "The program's README" below is the file of that
name at the root of the repository.

- The program's README, line 91, says that omitted entries are disclosed and the rest is offered, and
  `internal/terminal/safety.go:17` that a path of 3000 bytes leaves room for the rest of its frame. An offer the sender
  builds goes out whole and is accepted exactly when no selected root was itself omitted and every entry and omission
  fits its frame (`Wire.OfferArrivesIff`). A root that is a link, and a path of ampersands, which become six
  bytes each, fail (`Agreement.OmittedRootIsRefused`, `Announcement.AmpersandsDoNotFit`); paths of characters that stand
  for themselves fit (`Announcement.PlainPathsFit`).
- Line 95 says a cancel does not end the session. Failure frames and the batch frame are sent without the cancel check.
  The session survives a cancel frame exactly when none of them is sent behind it
  (`Cancellation.SessionSurvivesCancelIff`), and one still can be exactly when, with the cancel frame on the wire, a
  worker is past its last check or the result loop past its count (`Fence.UncheckedCanFollowIff`,
  `Fence.FailureCanFollowCancel`).
- Line 95 says `cancel` stops the active offer on either peer. On either peer the command picks the offer being
  transferred exactly when no other offer has ended since the transfer began and it is not the peer's while an own offer
  has the other slot (`Coordinator.CancelPicksTheTransferIff`); on the accepting peer this is always so
  (`Coordinator.CoordinatorCancelsTheTransfer`), on the other it is not (`ConnectingPeer.CancelCanPickAWaitingOffer`,
  `ConnectingPeer.CancelCanPickNothing`).
- Nor is the picked offer always canceled, that is, ended by its cancel frame or with its batch already sent when the
  frame is. For an offer of the other peer the command sends a request. In every run that comes to rest the request is
  delivered, and the offer is canceled if it is then in its owner's slot. If it is not, its owner never hears of the
  cancel, later commands send nothing, and unless the owner's user cancels too the offer completes or stays blocked
  (`CancelCommands.RequestCancelsIff`, `CancelCommands.LaterCommandsAreSilent`,
  `DroppedCancel.CanceledTransfersCanComplete`).
- For an own offer the command sends the cancel frame itself. The offer ends by it if the frame finds it active and
  accepted at the other peer, and if that peer's user does not cancel too, exactly then
  (`CancelCommands.OwnCancelStopsIff`). A command that comes before the acceptance leaves the offer in progress or lets
  it complete (`EarlyCancel.EarlyCancelsHappen`, `EarlyCancel.CanceledOffersCanComplete`).
- Line 99 says offers are taken in session order. That holds on the accepting peer (`Coordinator.OffersAreSerialised`).
  On the other, own offers start in the order in which they were sent exactly when none was sent into a free slot while
  others waited (`ConnectingPeer.SessionOrderIff`, `ConnectingPeer.WaitingOffersCanBeOvertaken`).
- That overtaking can block both peers for good. An accepted offer that has not ended at rest either is in progress
  with a flag raised before its acceptance or waits behind an offer that waits for it, and then no action within the
  session ever ends it (`Deadlock.AcceptedOffersEndOrBlock`, `Standoff.DeadlocksHappen`). It is blocked exactly when
  the offer in its owner's slot was sent over it and the accepting peer has admitted that offer
  (`Overtaken.BlockedIffSentOver`). Without overtaking there is no such offer (`Overtaking.AcceptedOffersEndInOrder`),
  and without early cancels every accepted offer ends (`Overtaking.AcceptedOffersEnd`,
  `Progress.AcceptedOfferGoesOn`).
- Line 101 says an inactive session is warned before it ends. It has been exactly when the monitor looked, with no
  transfer active, after the warning was due and before the expiry was (`Idle.ExpiryIsWarnedIff`,
  `Idle.LateMonitorSkipsTheWarning`); a punctual monitor always does (`Idle.PunctualMonitorWarnsFirst`).
- The start barrier opens exactly when there are at least as many jobs as workers, which the chosen number of workers
  ensures (`Barrier.BarrierOpensIff`, `Barrier.ChosenConcurrencyNeverStuck`).

"At rest" means that no step is due: only a user can act, or a file fail. The steps that are due always lead there or to
the session's end, however they are scheduled (`Progress.RestIsReached`, `Progress.DueRunsAreBounded`).

## Assumptions

- Name folding and the digest are arbitrary functions. Candidate names need only that folding keeps the ASCII " (n)"
  part distinguishable (`ConflictNames.KeepsSuffix`), which ASCII lower-casing does
  (`ConflictNames.AsciiFoldKeepsSuffix`).
- In `Framing` messages have an arbitrary codec whose output has no newline (section 7 of RFC 8259 escapes control
  characters) and which decodes what it encoded. For lines of UTF-8 text `Wire.TextCodecIsFaithful` proves this.
- Where a result names a file's digest exactly, the digest function yields lower-case hexadecimal digests of 64 digits
  (`Publication.YieldsDigests`), as the program's does.
- No other program writes beneath the destination, removals of what may be removed succeed, no root is named like the
  staging folder, and the destination itself exists. All other answers of the operating system are inputs.
- Failure reasons made by the sender are not the text reserved for cancellation.

## Model

| member | source | states |
|---|---|---|
| `Names.UnsafeNamesAreRefused` | internal/terminal/safety.go:34-96 | No path is valid with a component that is empty, a dot or two, ends with a dot or a blank, or holds a slash, a backslash, a colon or a line break |
| `Names.DeviceNamesAreRefused` | internal/terminal/safety.go:90-113 | Nor with one that names a device, CON, PRN, AUX, NUL, CLOCK$ or a numbered port, in whatever case and with whatever extension |
| `Tokenizer.ParsePathArguments` | internal/terminal/manifest.go:154-192 | The nested loops accept exactly what the grammar of arguments accepts, and yield its paths |
| `Tokenizer.RoundTrip` | internal/terminal/manifest.go:154-192 | Any way of writing a list of paths, quoted or bare, with any blanks, is parsed back to that list |
| `Tokenizer.AcceptedIsWritten` | internal/terminal/manifest.go:154-192 | Every accepted argument is some way of writing its list |
| `Tokenizer.ParsesIffWritten` | internal/terminal/manifest.go:154-192 | Parsing to a list and being a way to write that list are the same |
| `Tokenizer.AcceptedPathsArePlain` | internal/terminal/manifest.go:163-189 | Accepted paths are non-empty and free of quotes, carriage returns and line feeds |
| `Tokenizer.FindClosingQuote` | internal/terminal/manifest.go:163-174 | The quoted scan stops at the first quote, and fails exactly when a line break or the end comes first |
| `Manifest.ManifestBuilder.WalkManifestRoot` | internal/terminal/manifest.go:78-144 | The recursive walk changes the shared manifest exactly as the specified walk says, with its failure |
| `Manifest.ManifestBuilder.VisitChildren` | internal/terminal/manifest.go:128-139 | The loop over a folder's listing is the specified walk of all its children; `Tree.ManifestIsTheTrees` says what that lists and `Tree.AliasesAreRefused` what it refuses |
| `Manifest.ManifestBuilder.BuildManifest` | internal/terminal/manifest.go:46-76 | Building a selection yields the specified manifest or the specified failure; `Tree.ManifestIsTheTrees` and `Tree.BuildSucceedsIff` say of the trees which |
| `Manifest.ManifestBuilder.AddManifestOmission` | internal/terminal/manifest.go:146-152 | One more omission, up to the limit |
| `Tree.ManifestIsTheTrees` | internal/terminal/manifest.go:46-144 | A built manifest has one entry for every file and folder of the selected trees, at its path with its size and digest, one omission for every node skipped and every folder that cannot be listed, at its path with its reason, and nothing else |
| `Tree.BuildSucceedsIff` | internal/terminal/manifest.go:46-144 | A selection can be built exactly when every root can be inspected, every path is safe, no place has two names with one key, every limit is kept and something can be read |
| `Tree.AliasesAreRefused` | internal/terminal/manifest.go:130-136 | A folder anywhere in the selection with two children of equal key fails the build |
| `Tree.ReasonsAreTold` | internal/terminal/manifest.go:86-143 | The text of an omission tells its reason |
| `Validation.AncestorsAreFolders` | internal/terminal/offer_intake.go:133-144 | The walk up one entry succeeds exactly when every ancestor is an entry and a folder |
| `Validation.HierarchyIsSound` | internal/terminal/offer_intake.go:133-145 | The hierarchy pass succeeds exactly when this holds of all entries |
| `Validation.CollectEntries` | internal/terminal/offer_intake.go:104-132 | The first pass succeeds exactly on safe paths, unique keys and a byte total within the header's, without overflow, and then its counts are exact |
| `Validation.ValidateReceivedManifest` | internal/terminal/offer_intake.go:103-150 | The whole check succeeds exactly on consistent manifests |
| `Validation.ReceiveOffer` | internal/terminal/offer_intake.go:14-71 | Identifier, header, entries and omissions in turn: accepted exactly when the identifier is well formed and not pending, and every frame check and the final check accept |
| `Validation.PendingOffer.HandleEntry` | internal/terminal/offer_intake.go:45-58 | An entry is kept, with its digest in lower case, exactly when it is acceptable and there is room |
| `Validation.PendingOffer.HandleOmission` | internal/terminal/offer_intake.go:59-69 | The same for an omission |
| `Agreement.WalkBuildsSubtree` | internal/terminal/manifest.go:78-144 | A walk adds the entries of one closed subtree: unique keys, every ancestor a folder before it |
| `Agreement.SelectionBuildsListing` | internal/terminal/manifest.go:46-76 | A selection yields such subtrees with distinct root keys, and one listed root each unless omitted |
| `Agreement.SenderReceiverAgreement` | internal/terminal/manifest.go:46-144 | A manifest the sender builds passes the receiver's checks, once it has arrived, exactly when no selected root was omitted |
| `Agreement.OmittedRootIsRefused` | internal/terminal/offer_intake.go:146-148 | A selection of a file and a link is built by the sender and refused by every receiver |
| `Wire.OfferArrivesIff` | internal/terminal/send.go:107-123 | From selection to acceptance: the built offer's frames all fit, and the offer decoded from their bytes is accepted, exactly when no root was omitted and every entry and omission fits its frame; what is decoded is the built offer |
| `Announcement.OfferFitsIff` | internal/session/session.go:445-452 | The same of the offer before it is sent: it fits and is acceptable exactly then |
| `Wire.OfferIsReadBack` | internal/terminal/send.go:107-123 | The bytes of an offer's frames, taken apart into lines, decoded and parsed, say its identifier, header, entries, omissions and end, in order |
| `Wire.FramesAreUnderstood` | internal/terminal/send.go:109-122 | Each frame's text says its message |
| `Reading.ObjectIsRead` | internal/session/session.go:445-485 | A frame of strings, integers and flags is parsed back field by field, with its escapes undone |
| `Reading.HeaderIsRead` | internal/terminal/send.go:109 | The header frame says the identifier and the four totals, each under its own name |
| `Reading.EntryIsRead` | internal/terminal/send.go:113 | The entry frame says path, kind, size, digest and attributes |
| `Reading.OmissionIsRead` | internal/terminal/send.go:118 | The omission frame says path and reason |
| `Reading.ContentIsRead` | internal/terminal/send.go:309-317 | The chunk header says path, size and offset |
| `Reading.CompletionIsRead` | internal/terminal/send.go:328-340 | The completion of an unchanged source says path, size and digest |
| `Reading.FrameExamples` | internal/session/session.go:83-102 | A header and an end as they look on the wire |
| `Reading.PathIsSplit` | internal/terminal/manifest.go:82-96 | A path joined with slashes splits into its components |
| `Wire.TextCodecIsFaithful` | internal/session/session.go:445-485 | Lines of UTF-8 text meet what the framing assumes of its codec |
| `Announcement.AmpersandsDoNotFit` | internal/session/session.go:445-452 | A selection with three valid nested names that is built, would be accepted, and cannot be announced |
| `Announcement.PlainPathsFit` | internal/terminal/safety.go:17 | A valid path of characters that stand for themselves leaves room for the rest of its frame |
| `Announcement.AnnouncedFileFits` | internal/terminal/send.go:291-335 | The chunk headers and the completion of a file that could be announced fit as well |
| `Wire.FramesAreLines` | internal/session/session.go:445-465 | No announcing frame contains the character that ends it |
| `Wire.SendManifest` | internal/terminal/send.go:107-123 | Header, entries, omissions and end, one after another: the whole offer goes out only if each frame fits, over a wire that takes what it is given exactly then, and what went out reads back as the offer |
| `ConflictNames.ResolveFinalPath` | internal/terminal/cleanup.go:146-171 | The suffix loop ends; it succeeds exactly when some candidate comes free before an unusable one, takes the first such, and reserves its key; the name taken is the root's own or has its number in brackets before the extension |
| `ConflictNames.CandidateReads` | internal/terminal/cleanup.go:153-169 | The n-th candidate of a name: with no dot the number in brackets comes last, else before the last dot |
| `ConflictNames.DecimalWrites` | internal/terminal/cleanup.go:169 | A suffix number printed and read in base ten is the number, without leading zeros |
| `ConflictNames.FirstFreeIsUnique` | internal/terminal/cleanup.go:156-170 | That first candidate is the only one |
| `ConflictNames.DecimalIsInjective` | internal/terminal/cleanup.go:169 | Different suffix numbers print differently, so candidates do not run out |
| `ConflictNames.CandidateIsSafe` | internal/terminal/cleanup.go:153-169 | Every candidate of a valid name is one safe component |
| `ConflictNames.ResolveIncomingPaths` | internal/terminal/offer_intake.go:226-245 | Succeeds exactly when every root in turn has a free candidate under the names reserved so far, and that candidate is its final name, the root's own or numbered; keys are distinct and none was listed at the destination |
| `ConflictNames.AsciiFoldKeepsSuffix` | internal/terminal/cleanup.go:153-169 | The assumption made of folding is met by ASCII lower-casing |
| `Destinations.RootKeysAreDistinct` | internal/terminal/offer_intake.go:112-131 | Validation leaves the roots with distinct keys |
| `Destinations.ValidatedAndResolvedIsApproved` | internal/terminal/offer_intake.go:103-245 | Validation followed by resolution is all that the later stages need |
| `Destinations.DestinationsAreInjective` | internal/terminal/staging.go:103-110 | Distinct entries get distinct folded paths, across roots and depths |
| `Destinations.InjectiveConfinedDestinations` | internal/terminal/staging.go:103-110 | Every entry has a destination, strictly beneath the chosen folder, shared with no other entry, under a name not listed there before |
| `Disk.RemovalKeepsExactlyTheUsed` | internal/terminal/cleanup.go:66-71 | Removing created folders in reverse order leaves the old disk, the published files, and exactly those folders that hold one |
| `Disk.RemovalUndoesCreation` | internal/terminal/cleanup.go:66-71 | With nothing published the removal restores the disk |
| `Staging.Acceptance.HasStaleStaging` | internal/terminal/cleanup.go:77-101 | Leftovers are reported exactly when the staging place cannot be inspected or holds anything but an empty folder, which is removed |
| `Staging.Acceptance.CreateRoots` | internal/terminal/staging.go:37-65 | Root folders are made exactly when every root is ready on the disk as it was |
| `Staging.Acceptance.CreateNested` | internal/terminal/staging.go:66-86 | In depth order no nested folder meets a missing parent or a taken place |
| `Staging.NestedFolderCanBeMade` | internal/terminal/staging.go:72-85 | The depth sort puts every parent first, and injectivity keeps the place free |
| `Staging.Acceptance.PrepareIncoming` | internal/terminal/staging.go:12-101 | All or nothing: success exactly when the destination is ready, the offer fits and all can be made, then exactly the offer's folders and the staging folder; on any failure the disk is restored |
| `IncomingOffer.RecoverableWriter.Write` | internal/terminal/receive.go:173-193 | A failure is recorded exactly when there was one before, the write fails or it is short; without one the content grows by all bytes, after one by none; a full write is always reported |
| `IncomingOffer.Incoming.RemoveIncomingStaging` | internal/terminal/cleanup.go:35-48 | Every open stream's temporary file goes, and the staging folder once empty |
| `IncomingOffer.Incoming.ReceiveContentFrame` | internal/terminal/receive.go:16-65 | The content handler is one step of the specified session, keeps its books and its disk, and on success the stream ends where the chunk ends |
| `IncomingOffer.Incoming.CompleteIncomingFile` | internal/terminal/receive.go:103-165 | The completion handler: the same, and on success the file has its outcome, no stream, and one result |
| `IncomingOffer.Incoming.ReceiveFailure` | internal/terminal/receive.go:215-248 | The failure handler: the same, with a failed result |
| `IncomingOffer.Incoming.CompleteIncomingBatch` | internal/terminal/receive.go:250-282 | The batch handler: the same, and on success every file has its outcome, no stream is open and the verdict is whether none failed |
| `IncomingOffer.Incoming.HandlePeerCancellation` | internal/terminal/offer_control.go:56-72 | The cancel handler: the same, and once it answers the disk is clean |
| `IncomingOffer.Incoming.ServeSession` | internal/terminal/connection.go:201-226 | The dispatch of the six kinds of frames of one accepted offer, in any order: its replies, its error and its state are those of the specified run, and it leaves the disk as `Sessions.EverySessionEndsClean` says |
| `Outcomes.StepKeepsBooks` | internal/terminal/receive.go:16-256 | Every frame, with every answer of the system, keeps open streams and outcomes disjoint sets of file keys, with counters that add up to the outcomes |
| `Outcomes.RunKeepsBooks` | internal/terminal/connection.go:174-237 | So does every session |
| `Outcomes.CountersMeetTheFileCount` | internal/terminal/receive.go:250-256 | The counters reach the file count exactly when every file has its outcome, and then no stream is open |
| `Outcomes.AcceptedBatchIsComplete` | internal/terminal/receive.go:250-273 | A batch is accepted only with exactly one outcome for every manifest file |
| `Refusals.ContentIsTakenIff` | internal/terminal/receive.go:16-65 | Whatever a peer sends: a chunk is taken exactly when its file awaits it, it starts where the last one ended, stays within the file, is at most a mebibyte and comes whole; then its file's stream grows by it and no other |
| `Refusals.CompletionNeedsTheWholeFile` | internal/terminal/receive.go:103-117 | A completion before the file's last byte, of another size, or for a file not awaited ends the session and changes nothing; one that is taken is the file's one outcome, with one reply |
| `Refusals.FailureIsTakenIff` | internal/terminal/receive.go:215-248 | A failure is taken exactly for a file that is awaited, with a reason, when the answer can be sent |
| `Refusals.StrangersAreRefused` | internal/terminal/receive.go:23-26 | A frame for a path that is no file of the offer ends the session and changes nothing |
| `Sessions.StepIsSound` | internal/terminal/receive.go:16-282 | Every frame keeps the disk: old content, the offer's folders, verified files, and temporary files of open streams |
| `Sessions.EverySessionEndsClean` | internal/terminal/cleanup.go:13-71 | Every session, however it ends, leaves the old disk, the published files and exactly the folders that hold one, or all folders after an accepted batch |
| `Sessions.AcceptedOfferEndsClean` | internal/terminal/cleanup.go:13-71 | An offer accepted and prepared ends so, whatever the peer sends and whatever the system answers |
| `Sessions.PublicationIntegrity` | internal/terminal/receive.go:103-193 | Nothing old is replaced or removed; every new file lies at its own destination, with the approved size and a digest that agrees with the approved one in every digit up to case, and is that digest where digests are lower-case hexadecimal |
| `Sessions.StagingHoldsOpenStreams` | internal/terminal/cleanup.go:35-64 | The staging folder holds exactly the temporary files of open streams |
| `Sessions.PublishedContentIsVerified` | internal/terminal/receive.go:125-148 | What was hashed is what lies in the temporary file when it is published |
| `Sessions.PreparedIsSound` | internal/terminal/staging.go:87-100 | What preparation leaves is a start from which all of this holds |
| `Sessions.PreparationGivesSetting` | internal/terminal/staging.go:37-86 | An offer that can be prepared on a disk without leftovers meets every assumption of these results |
| `Framing.FrameFitsIffReadable` | internal/session/session.go:445-485 | The reader takes a frame back exactly when it is within the writer's limit |
| `Framing.WriteFrame` | internal/session/session.go:445-465 | A refused frame writes no byte; otherwise the frame goes out whole exactly when no partial write fails or stalls, and else a prefix of it |
| `Framing.CopyStreamBuffer` | internal/session/session.go:327-366 | Exactly the announced bytes move, in order, exactly when the source has them, every piece is taken and the context lasts; else a prefix |
| `Framing.SendRecord` | internal/session/session.go:288-303 | A record goes out, as its frame and its payload, exactly when it fits, the wire takes every write and the context lasts; else a prefix of it does |
| `Framing.ReadFrame` | internal/session/session.go:473-485 | One line is taken, or the session ends for the right reason |
| `Framing.ReceiveRecord` | internal/session/session.go:307-312 | A successful receive takes the next record off the stream and nothing else |
| `Framing.RoundTrip` | internal/session/session.go:288-312 | Any sequence of sendable records is read back as it was written, newlines in payloads included |
| `Framing.TruncationYieldsAPrefix` | internal/session/session.go:307-366 | A connection cut anywhere yields exactly the records that arrived whole, never another and never a refusal |
| `Framing.WireBytesAreUnambiguous` | internal/session/session.go:445-485 | Two record sequences never have the same bytes |
| `Sender.SendManifestFile` | internal/terminal/send.go:278-346 | The loop over one file sends its chunks and its completion exactly when the file reads whole, no check finds the offer canceled and no write fails; else a prefix of the chunks, with the error of the first obstacle |
| `Sender.ReadChunk` | internal/terminal/send.go:302-307 | The reused buffer holds the next chunk, or the file is too short |
| `Sender.FileFramesCarry` | internal/terminal/send.go:291-327 | Those chunks carry the file in order and in bounds, each where the last one ended, and one for an empty file |
| `Sender.ChunksAreFull` | internal/terminal/send.go:291-317 | Every chunk but the last is a mebibyte, so there are as few as can be |
| `Summaries.ChunkIsTaken` | internal/terminal/receive.go:16-65 | The chunk a stream expects is taken, grows that stream by its bytes, and touches no other file |
| `Summaries.TerminalIsRecorded` | internal/terminal/receive.go:103-248 | A completion or failure at the right place is one outcome, one result and one count |
| `Summaries.EveryFileIsDone` | internal/terminal/send.go:214-240 | When the result loop ends both wires are empty and the two peers' counters are equal |
| `Deliveries.SummariesAgree` | internal/terminal/send.go:174-257 | Under every schedule of workers and deliveries the receiver refuses nothing, the summaries agree, and the verdict is the right one |
| `Deliveries.Demultiplexing` | internal/terminal/receive.go:16-65 | However chunks interleave, each arrives at its own stream's length, streams hold prefixes of what was read, and a completion comes after all of it |
| `Deliveries.TransferDelivers` | internal/terminal/send.go:239-263 | A reported success means every file lies at its destination with the size and the digest of its entry, every folder is there, and nothing else changed |
| `Deliveries.PublishedAreAllFiles` | internal/terminal/receive.go:157-158 | As many publications as files means each file was published |
| `Deliveries.NeverStuck` | internal/terminal/send.go:174-248 | Until the verdict is in some step is possible |
| `Deliveries.EveryStepShrinks` | internal/terminal/send.go:174-248 | Every step leaves less work, so no run goes on for ever |
| `Deliveries.RunsAreBounded` | internal/terminal/send.go:174-248 | No run takes more steps than there is work at its start |
| `Deliveries.MaximalRunsEndWithTheVerdict` | internal/terminal/send.go:213-257 | A run that can go no further has its verdict, which is success exactly when no file failed |
| `Arrivals.CompletionSucceedsIff` | internal/terminal/receive.go:103-165 | A completion publishes its file and reports success exactly when the stream had no failed write, its digest is the approved one, the sender saw no change, and nothing fails at the end; otherwise the result is a failure and nothing is published |
| `Arrivals.ExactlyTheUnspoiledArrive` | internal/terminal/send.go:174-257 | In every run to its verdict a file is published exactly when nothing has spoiled it: a source that changed or failed, a write that failed or fell short, an end that failed. The failed count is the number of the spoiled, and the verdict is success exactly when there is none |
| `Arrivals.FineTransfersSucceed` | internal/terminal/send.go:174-257 | A run with unchanged sources and fine answers succeeds: all files are completed and none failed |
| `Arrivals.WrongDigestsFail` | internal/terminal/receive.go:129-148 | A completion whose digest is not the approved one, or not that of the content, is answered with a failed result and publishes nothing |
| `Example.SuccessIsPossible` | internal/terminal/send.go:17-264 | There is a selection of a file with content that is offered, accepted, prepared and transferred to the verdict of success, so no assumption of these results is empty |
| `Pipeline.PreparationBegins` | internal/terminal/staging.go:12-101 | Built, accepted, resolved and prepared: every stage's conclusion is what the next one assumes |
| `Pipeline.SelectionArrives` | internal/terminal/send.go:17-264 | From the selected tree to the receiving disk: a reported success means every entry of the sender's manifest is there, every file with the size and the digest the sender found, and what was there before still is |
| `Pipeline.SelectedTreesArrive` | internal/terminal/send.go:17-264 | So every file of the selected trees, at whatever path, has its bytes in a place of its own beneath the destination |
| `Barrier.Concurrency` | internal/terminal/send.go:266-276 | No worker without a file, one for fewer than four files, four from there on |
| `Barrier.EachJobOnceEachWorkerOne` | internal/terminal/send.go:163-211 | No job is taken twice, none is missed, and at the release each worker holds exactly one |
| `Barrier.BarrierOpensIff` | internal/terminal/send.go:171-211 | A run that can go no further has passed the barrier exactly when there were as many jobs as workers |
| `Barrier.ChosenConcurrencyNeverStuck` | internal/terminal/send.go:158-211 | The chosen number of workers always gets through, and all leave |
| `Barrier.EveryMoveShrinks` | internal/terminal/send.go:174-209 | No run of the workers goes on for ever |
| `Fence.CancelFence` | internal/terminal/send.go:309-345 | In every interleaving no content and no completion follows a cancel frame, and no record is divided by another |
| `Fence.LocksNeverDeadlock` | internal/session/session.go:227-303 | The wire lock and the state lock never deadlock |
| `Fence.UncheckedCanFollowIff` | internal/terminal/send.go:186-240 | In every run, from the cancel frame on: a failure or batch frame can still be sent exactly when a worker is past its last check or the result loop past its count |
| `Fence.FailureCanFollowCancel` | internal/terminal/send.go:198-199 | A run that sends a failure frame behind the cancel frame |
| `Cancellation.OverOfferEndsIff` | internal/terminal/receive.go:16-256 | An offer that is over ends its session exactly at the first failure or batch frame |
| `Cancellation.SessionSurvivesCancelIff` | internal/terminal/offer_control.go:56-72 | For every run of the sender's threads: the receiver's session survives what follows the first cancel frame exactly when no failure and no batch frame is sent behind it |
| `Coordinator.Attempt.SendPaths` | internal/terminal/send.go:45-97 | Submitting an offer in either role: queue limits, slots, what starts, what is reported as queued |
| `Coordinator.Attempt.HandleOfferComplete` | internal/terminal/offer_intake.go:75-98 | A complete manifest in either role: queued, refused, started, or an overlap |
| `Coordinator.Attempt.ClearOutgoing` | internal/terminal/send.go:353-374 | The end of an own offer empties its slot and moves the next one up |
| `Coordinator.Attempt.ClearIncoming` | internal/terminal/offer_control.go:90-110 | The end of the peer's offer does the same |
| `Coordinator.Attempt.TakeCoordinatorOfferLocked` | internal/terminal/offer_control.go:112-125 | The queue's front takes the one active slot, when it is free |
| `Coordinator.Attempt.CancelActiveOffer` | internal/terminal/offer_control.go:10-45 | Which offer the command marks, and when a frame goes out |
| `Coordinator.OffersAreSerialised` | internal/terminal/offer_control.go:90-125 | On the accepting peer both peers' offers start one at a time in order of admission, each as soon as those before it ended; an idle peer has no queue |
| `Coordinator.RefusedIffFull` | internal/terminal/offer_intake.go:77-84 | An offer is refused exactly when sixty-four wait behind the active one, and reported as queued exactly when it has not begun |
| `Coordinator.CancelPicksTheTransferIff` | internal/terminal/offer_control.go:18-35 | In every run of either peer the command picks the offer being transferred exactly when no other offer has ended since its transfer began and it is not the peer's while an own offer has the other slot |
| `Coordinator.TransferGoesOnUnflaggedIff` | internal/terminal/idle.go:72-75 | The transfer flag is down during a transfer exactly when another offer has ended since it began |
| `Coordinator.CoordinatorCancelsTheTransfer` | internal/terminal/offer_control.go:10-45 | On the accepting peer the command picks the transfer in every run |
| `ConnectingPeer.CancelCanPickAWaitingOffer` | internal/terminal/offer_control.go:18-24 | A run of the connecting peer in which the command picks an own offer that waits |
| `ConnectingPeer.CancelCanPickNothing` | internal/terminal/offer_control.go:13-16 | And one in which it picks nothing during a transfer |
| `ConnectingPeer.SessionOrderIff` | internal/terminal/send.go:62-97 | For every run of the connecting peer: own offers start in the order in which they were sent exactly when none was sent into a free slot while others waited |
| `ConnectingPeer.WaitingOffersCanBeOvertaken` | internal/terminal/send.go:62-97 | A run in which one is |
| `OneOffer.MoveKeepsOffer` | internal/terminal/send.go:125-264 | Every step of an owner or a receiver keeps what holds of one offer on the two wires |
| `OneOffer.HeardKeepsOffer` | internal/terminal/connection.go:201-226 | So does every frame that reaches the receiver |
| `OneOffer.HeededKeepsOffer` | internal/terminal/connection.go:239-293 | So does every frame that reaches the owner |
| `OneOffer.FinishedIsEmpty` | internal/terminal/send.go:213-240 | When every result is counted nothing of a file is left on the wire, cancellations or not |
| `OneOffer.OneOfferAtATime` | internal/terminal/offer_control.go:47-136 | In every run of both peers all content and complete frames under way, in either direction, belong to the accepting peer's one active offer, whose receiver is ready for them |
| `OneOffer.NoTwoOffersInFlight` | internal/terminal/offer_control.go:90-125 | No two offers have content under way together |
| `OneOffer.FencedFramesAreTaken` | internal/terminal/receive.go:16-22 | No content or complete frame is ever refused for its offer |
| `OneOffer.ContentCanBeUnderWay` | internal/terminal/send.go:125-346 | There are runs with content under way |
| `Standstill.RestIsSettled` | internal/terminal/send.go:125-264 | At rest both wires are empty, no offer is about to finish, and one that runs was flagged before it was accepted |
| `Standstill.AcceptedOfferEndsIff` | internal/terminal/send.go:125-264 | In every run at rest an accepted offer has ended exactly when it neither waits behind another nor was flagged early; the accepting peer's own offers always have |
| `Standstill.AcceptingPeersCancelEndsIff` | internal/terminal/offer_control.go:10-72 | The offer picked by the accepting peer's command is at rest over, by a cancel or not, exactly when its owner does not have it waiting behind another |
| `Standstill.ConnectingPeersCancelEndsIff` | internal/terminal/offer_control.go:10-72 | The offer picked by the connecting peer's command is at rest over, by a cancel or not, exactly when it is decided and not in progress with a flag raised before its acceptance |
| `Stopping.MoveKeepsStops` | internal/terminal/send.go:174-264 | Every step of an owner or a receiver keeps what holds of an offer's cancel frames, its requests and its ending |
| `Stopping.HeardKeepsStops` | internal/terminal/offer_control.go:55-72 | So does every frame that reaches the receiver |
| `Stopping.HeededKeepsStops` | internal/terminal/offer_control.go:47-54 | So does every frame that reaches the owner |
| `CancelCommands.RequestCancelsIff` | internal/terminal/offer_control.go:10-72 | In every run at rest the request of a user who cancels the other peer's offer has been delivered; the offer is canceled if it was then in its owner's slot, and if the owner's user does not cancel it exactly then; else its owner never hears of it, and it completes exactly when it is not blocked |
| `CancelCommands.OwnCancelStopsIff` | internal/terminal/offer_control.go:10-72 | In every run at rest the cancel frame of a user who cancels an own offer has been delivered; the offer ends by it if it was then active and accepted there, and if the other user does not cancel it exactly then |
| `CancelCommands.LaterCommandsAreSilent` | internal/terminal/offer_control.go:18-35 | A second command for the same offer changes nothing and sends nothing |
| `DroppedCancel.CanceledTransfersCanComplete` | internal/terminal/offer_control.go:47-58 | A run in which the accepting peer cancels the transfer it has accepted and the offer goes out whole |
| `Deadlock.DeadlockIsForGood` | internal/terminal/offer_control.go:90-125 | No action of either user, no frame and no cancel lets a deadlocked offer begin |
| `Deadlock.WaitingIsDeadlocked` | internal/terminal/send.go:353-384 | At rest an accepted offer that waits behind another is deadlocked with it |
| `Deadlock.AcceptedOffersEndOrBlock` | internal/terminal/offer_control.go:90-125 | In every run at rest an accepted offer that was not flagged early has ended exactly when it is not deadlocked, and a deadlocked one never ends |
| `Standoff.DeadlocksHappen` | internal/terminal/send.go:62-97 | A run of four offers after which an accepted offer never begins |
| `EarlyCancel.EarlyCancelsHappen` | internal/terminal/offer_control.go:18-24 | A run that comes to rest with an accepted offer in progress |
| `EarlyCancel.CanceledOffersCanComplete` | internal/terminal/offer_control.go:55-58 | A run in which the connecting peer's command picks an offer that is accepted later, and completes |
| `Overtaken.BlockedIffSentOver` | internal/terminal/send.go:62-97 | In every run at rest an accepted offer that was not flagged early is blocked exactly when the offer in its owner's slot was sent over it and the accepting peer has admitted that one |
| `Overtaking.AcceptedOffersEndInOrder` | internal/terminal/send.go:62-97 | In every run without overtaking, at rest, an accepted offer has ended unless it was flagged early |
| `Overtaking.AcceptedOffersEnd` | internal/terminal/send.go:62-97 | And without early cancels every accepted offer has ended |
| `Progress.DueStepsShrink` | internal/terminal/send.go:125-264 | Every step that is due leaves less to do or ends the session |
| `Progress.DueRunsAreBounded` | internal/terminal/send.go:125-264 | However they are scheduled there are no more such steps than work left |
| `Progress.RestIsReached` | internal/terminal/send.go:125-264 | From every state the steps that are due lead to rest or to the session's end |
| `Progress.AcceptedOfferGoesOn` | internal/terminal/send.go:125-264 | In a run without overtaking and early cancels they are enough to end any accepted offer, unless the session ends |
| `Idle.Session.NoteSessionActivity` | internal/terminal/idle.go:43-58 | Activity is one step of the session's run, keeps what holds of all runs, is the last activity in the log and leaves a wake token |
| `Idle.Session.BeginTransfer` | internal/terminal/idle.go:60-70 | So is the start of a transfer, which is then under way in the log |
| `Idle.Session.FinishTransferLocked` | internal/terminal/idle.go:72-75 | So is its end, which counts as activity |
| `Idle.Session.LookOnce` | internal/terminal/idle.go:78-115 | So is one turn of the loop: it expires only a session without a transfer whose time is up, warns once, and sets its timer to a later time |
| `Idle.NoLostWakeUp` | internal/terminal/idle.go:51-127 | A monitor blocked on values that have changed has a token pending |
| `Idle.WarningsAndExpiryAreWellTimed` | internal/terminal/idle.go:95-110 | At most one warning between two activities, and no warning or expiry before its full time without activity |
| `Idle.NoExpiryDuringTransfer` | internal/terminal/idle.go:84-104 | In no run does a session expire between the start of a transfer and its end |
| `Idle.DueExpiryHappens` | internal/terminal/idle.go:95-127 | An expiry that is due is at most two monitor steps away |
| `Idle.ExpiryIsWarnedIff` | internal/terminal/idle.go:95-114 | In every run an expiring session has been warned since its last activity exactly when the monitor looked, with no transfer active, between the time of the warning and the time of the expiry |
| `Idle.PunctualMonitorWarnsFirst` | internal/terminal/idle.go:105-114 | A punctual monitor never expires a session it has not warned |
| `Idle.LateMonitorSkipsTheWarning` | internal/terminal/idle.go:95-110 | A late one can |

## Left out

- Transport security, certificates, the human confirmation, version and busy exchange, discovery, terminal commands, printed text and progress rates.
- `SendStream` and `ReceiveStream`: the offer engine sends chunks instead.
- Timestamps, read-only and hidden attributes: carried by frames, decided by nothing modelled here; setting them may fail, as an input.
- The order in which a folder's children are listed: the walk is proved for every order.
- Paths are lists of components, which `Reading.PathIsSplit` joins and splits again. Names that are not valid UTF-8 never enter the model.
- `Reading.ObjectIsRead`: the reader takes objects of strings, integers and the value true, without blanks; the program's decoder takes more, such as nested values, repeated fields and malformed text, which no writer here produces.
- The disk is only what lies beneath the destination, by folded keys; creating the destination itself, the free-space query and reparse checks are inputs or left out.
- `Validation.PendingOffer.HandleEntry`: the handler changes values held by the object; of the map of pending offers only the set of its identifiers is modelled.
- A changed destination that fails halfway through resolution keeps a partial set of final names; such an offer is not approved here.
- The streams of an incoming offer are values in a map, not shared objects.
- Result frames carry no reason text in the model.
- The abort frame is modelled at the receiver only: no part of the repository sends it.
- `Deliveries.SummariesAgree`: runs without cancellation and without answers of the system that end the session; the cancel command makes the peers stop early by design.
- `Fence.CancelFence`: a write that fails midway, or a context that ends midway, leaves a partial record and ends the session; records are undivided until then.
- `OneOffer.OneOfferAtATime`: the queue acknowledgement frame changes no slot and is left out; files are identified by number, their bytes being the subject of `Deliveries`; the batch's count check, which `FinishedIsEmpty` and `SummariesAgree` show to pass, is not repeated. The overlap error at the connecting peer is kept and can end a run.
- Session teardown: runs of the coordinator end with the session, since cleaning up an incoming offer leaves the active mark set.
- The manifest of an offer is one frame in `OneOffer`, sent when the user's earlier `send` commands have sent theirs; its frames and their limit are the subject of `Announcement`.
- `Standstill.AcceptingPeersCancelEndsIff`: says that the offer is over, not how; `CancelCommands.RequestCancelsIff` says how.
- `Standstill.ConnectingPeersCancelEndsIff`: likewise; `CancelCommands.OwnCancelStopsIff` says how.
- `CancelCommands.RequestCancelsIff`: runs that end by a protocol error never come to rest, and nothing is said of their offers.
- Acceptance and the raising of the transfer flag are one step of `Coordinator` and `OneOffer`; the program does them in two critical sections, and a cancel or an ending between them is not modelled.
- `Progress.RestIsReached`: further chunks of a file are not among the steps that are due; a file is taken to be finite.
- `Idle.Session.LookOnce`: the endless loop is a state machine whose turns are this method; timers never fire early.
