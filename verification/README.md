# Replication in Couchbase Lite Core, verified

A Dafny model of the parts of Couchbase Lite Core that decide what a replicator has done and what is left to do,
and of the byte-level code under it. `dafny verify dfyconfig.toml` checks it.

* **Pulling** (`RemoteSequence.dfy`, `RemoteSequenceSet.dfy`, `IncomingRevs.dfy`, `Puller.dfy`). Remote sequences,
  their order and their text form; the set of sequences still missing; the Puller with its back-pressure. Module
  `PullLog` tells the same story as an append-only log of announced sequences, each open or done. The set and the
  Puller are proved to publish the position in front of the first open entry, in every run; each announcement in front
  of it goes back to an event that announced it and one that ended the work on it.
* **Pushing** (`SequenceSet.dfy`, `Checkpoint.dfy`, `Checkpointer.dfy`, `Changes.dfy`, `ChangesFeed.dfy`,
  `PushState.dfy`, `Pusher.dfy`, `PushOutcome.dfy`). The sparse set of completed sequences, the checkpoint made of it, the autosave, the
  feed that goes over from the history of a collection to an observer of it, and the Pusher that owns one revision of
  each document. `PushLedger` and `FeedLaws` hold the references these are proved against; `PushOutcomes` tells over the
  events alone what becomes of each revision and which of them may complete a sequence.
* **Pushing as a whole** (`PushRun.dfy`, `Restart.dfy`): the feed and the Pusher run together on one checkpoint, and
  every eligible document ends up completed, in work or reported as ended; what was in work when the checkpoint was saved
  is what a later push is offered.
* **Inserting** (`Inserter.dfy`): a batch of revisions in one transaction.
* **Bytes** (`TCPSocket.dfy`, `DistinguishedName.dfy`): reading with push-back, delimited and chunked reading,
  vectored writing, and X.509 distinguished names as text.

Classes with methods and loops stand for the code that updates things in place. Where a method's state is a record
(`Staff`, `PullState`, `PushState`, `Autosave`), each step is a function on that record, what the step keeps is a lemma
about the function, and a run of the class is proved to be the run of these functions over its events.
What comes from elsewhere is a parameter: the replies of the peer, the outcome of a database call, the sizes of the
pieces a socket delivers, the changes other threads make between two calls.

## What turned out not to hold

* **Pusher ownership.** Two paths put a revision into the pipeline without looking for another one of the document. A
  delta that failed is queued again after `doneWithRev` may have proposed the waiting revision
  (`Pushers.ReplyExactly`, with the run `Pushers.DeltaRetryDoubles`). A conflict that is still current is proposed again
  when the remote revision changes, though an older revision may be being retried (`Pushers.AncestorExactly`, with the
  run `Pushers.ProposedConflictDoubles`). All other events keep ownership, in every run (`Pushers.RunKeeps`).
* **A failed enumeration.** When reading the history throws, the feed still takes itself to have caught up if it found
  fewer changes than asked for, and a throw inside `makeRevToSend` comes after the position has moved. Nothing is lost
  exactly unless a filter threw at an eligible document, or a caught-up feed left one behind that is older than the
  observer (`FeedLaws.EnumeratedHolds`, `FeedLaws.CaughtUpExactly`). `ChangesFeeds.FailedEnumerationLoses` and
  `ChangesFeeds.ThrowingFilterLoses` are two runs that lose a document.
* **A failed insertion with code 0** would be reported twice, the second time as a success (`Inserters.ToldOnce`,
  `Inserters.ToldTwice`). That code is outside what `insertRevisionNow` reports: no path in it fails without one.
* **Distinguished names** come back exactly if no key has an equals sign, none but the first starts with a space, and
  no value has a backslash (`DistinguishedNames.RoundTrip`). The parser reads beyond the text exactly if an odd run of
  backslashes ends it inside a value (`DistinguishedNames.ReadsBeyondExactly`); a name built of an entry whose value is
  one backslash is such a text (`DistinguishedNames.BackslashReadsBeyond`). The model returns `None` there.
* **An empty chunked body** is a null slice, like an error, though no error is set (`ByteStreams.DecodeProper`).
* **A chunk header that is too long** counts as an empty line. So a body is returned together with error 431, exactly if
  the stream is one or more chunks, 51200 bytes in which a line does not end, and CRLF
  (`ByteStreams.BodyWithErrorExactly`, `ByteStreams.BodyWithError`).
* **`Checkpointer.hh` lines 54-57** say that a checkpoint that differs from the peer's is reset. The code keeps the
  intersection of the completed sequences and the earlier remote sequence; the model follows the code.

A remark on remote sequences: one made by the slice constructor from a text that is not JSON could not be saved and read
back (`Checkpoints.SaveRestore` has the exact condition). None such gets into a checkpoint: what it holds was made from a
JSON value, and every document handed out then reads back as it was (`Checkpoints.ValuesCanSave`,
`Checkpointers.HandedOutRestores`).

## Model

| member | source | states |
|---|---|---|
| ParsedSequenceIDs.BeforeIsLexicographic | Replicator/ParsedSequenceID.hh:141-172 | `before`, with its mix of < and <= and its recursion, is lexicographic order on comparison value, format rank and inner pair |
| ParsedSequenceIDs.BeforeIsStrictTotalOrder | Replicator/ParsedSequenceID.hh:141-172 | `before` is irreflexive, transitive and trichotomous on all triples |
| ParsedSequenceIDs.KeyInjective | Replicator/ParsedSequenceID.hh:141-172 | the key the order is told by determines the triple |
| ParsedSequenceIDs.SplitJoin | LiteCore/Support/StringUtil.cc:69-83 | splitting what was joined with colons gives the parts back, if none has a colon and the last is not empty |
| ParsedSequenceIDs.JoinSplit | LiteCore/Support/StringUtil.cc:69-83 | joining what was split gives the text back, if it does not end in a colon |
| ParsedSequenceIDs.ParseAcceptsExactly | Replicator/ParsedSequenceID.hh:85-118 | a text parses exactly if it is one to three numerals with colons between them, an empty middle part allowed only among three |
| ParsedSequenceIDs.ParseWritten | Replicator/ParsedSequenceID.hh:85-118 | every triple written in its format parses to itself |
| RemoteSequences.JSONRoundTrip | Replicator/RemoteSequence.hh:35-66 | a remote sequence read from its JSON is itself, exactly if it is not a raw text made of digits |
| RemoteSequences.ValueRoundTrip | Replicator/RemoteSequence.hh:29-33 | a remote sequence read from the JSON value it was written as is itself, exactly if it is not a raw text that is an integer of 64 bits |
| RemoteSequences.NegativeWraps | Replicator/RemoteSequence.hh:29-33 | a negative integer becomes its two's complement in 64 bits |
| RemoteSequences.SequenceParsed | Replicator/RemoteSequence.hh:82-91 | a number stands for itself, a text for what is in it, with quotes around it or without, and the null sequence for nothing |
| RemoteSequences.SequenceWritten | Replicator/RemoteSequence.hh:78-91 | an ID is read from what is written for it, quoted or not |
| RemoteSequences.LessMeans | Replicator/RemoteSequence.hh:93-97 | numbers come before texts, in their own order; texts in that of their bytes |
| RemoteSequences.LessIsStrictTotalOrder | Replicator/RemoteSequence.hh:74-97 | the comparison of remote sequences is a strict total order, so a map can be keyed by them |
| PullLog.CheckpointIsExact | Replicator/RemoteSequenceSet.hh:38-39 | the checkpoint position is the largest one with no open entry before it |
| PullLog.AnnounceKeepsCheckpoint | Replicator/RemoteSequenceSet.hh:41-47 | announcing a sequence never moves the checkpoint |
| PullLog.CompleteAdvances | Replicator/RemoteSequenceSet.hh:49-66 | completing a sequence never moves the position back, and moves it on exactly if it was the oldest open one |
| PullLog.CheckpointIsMonotone | Replicator/Puller.cc:325-348 | over any events the position of the checkpoint never moves back |
| PullLog.DoneMeansCompletedLater | Replicator/Puller.cc:325-338 | an announcement is settled exactly if a completion of its sequence came after it |
| PullLog.AnnouncementOf | Replicator/RemoteSequenceSet.hh:41-47 | every entry of the log goes back to an announcement of its sequence, at which the log had just that many entries |
| PullLog.SettledAfter | Replicator/RemoteSequenceSet.hh:49-66 | a completion settles every entry of that name made before it |
| RemoteSequenceSets.RemoteSequenceSet.Clear | Replicator/RemoteSequenceSet.hh:27-32 | the log starts afresh from `since` |
| RemoteSequenceSets.RemoteSequenceSet.constructor | Replicator/RemoteSequenceSet.hh:24-32 | an empty set that starts after a sequence |
| RemoteSequenceSets.RemoteSequenceSet.Since | Replicator/RemoteSequenceSet.hh:39 | `since` is the log entry in front of the oldest one still open, or the last one added |
| RemoteSequenceSets.RemoteSequenceSet.Add | Replicator/RemoteSequenceSet.hh:42-47 | adding appends to the log, duplicates included, and `since` stays |
| RemoteSequenceSets.RemoteSequenceSet.Remove | Replicator/RemoteSequenceSet.hh:50-66 | removing completes the open entry of that name, and tells whether it was the earliest and its body size |
| RemoteSequenceSets.RemoteSequenceSet.FindFirst | Replicator/RemoteSequenceSet.hh:75-87 | the scan, with its early exit, finds the entry of least order |
| RemoteSequenceSets.EarliestIsFirstOpen | Replicator/RemoteSequenceSet.hh:38-39 | the entry of least order is the first open entry of the log |
| IncomingRevs.Staff.HireKeepsValid | Replicator/Puller.cc:206-230 | starting a worker adds one that was not at work, and keeps the counters exact and within their limits and the spare pool apart from the workers |
| IncomingRevs.Staff.HireAllKeepsValid | Replicator/Puller.cc:206-250 | starting workers up to the room there is keeps all that |
| IncomingRevs.Staff.InsertKeepsValid | Replicator/Puller.hh:42-47 | a provisional insertion takes that worker, and no other, out of those that have not inserted, and is counted once until it is delivered |
| IncomingRevs.Staff.FinishKeepsValid | Replicator/Puller.cc:267-274 | a finished worker is returned once, with its outcome, and no other changes |
| IncomingRevs.Staff.DeliverKeepsValid | Replicator/Puller.cc:253-265 | delivering the provisional counts leaves in both lanes no provisional count, the active counter equal to the workers that have not inserted and the unfinished one to all of them; the workers stay |
| IncomingRevs.Staff.RoomAgain | Replicator/Puller.cc:253-265 | once every worker is collected and the counts are delivered, there is room for as many as the limits allow |
| IncomingRevs.Staff.CollectOneKeepsValid | Replicator/Puller.cc:280-299 | collecting a worker takes just it away and lowers just the counters that still count it, so none underflows |
| IncomingRevs.Staff.RespareKeepsValid | Replicator/Puller.cc:301-304 | the pool takes returned workers in turn, up to its capacity, none twice |
| Pullers.CollectedAreFree | Replicator/Puller.cc:276-304 | after collecting, the returned workers are neither busy nor spare |
| Pullers.Puller.constructor | Replicator/Puller.cc:37-55 | nothing is announced, waiting or running |
| Pullers.Puller.Start | Replicator/Puller.cc:58-60 | the log starts afresh and `since` is what is published |
| Pullers.Puller.UpdateLastSequence | Replicator/Puller.cc:340-348 | what is published is `since()` |
| Pullers.Puller.CompletedSequence | Replicator/Puller.cc:325-338 | a sequence is completed in the log unless the error was transient |
| Pullers.Puller.ExpectSequences | Replicator/Puller.cc:126-144 | all sequences are announced, the declined ones completed at once, and the requested ones counted |
| Pullers.RequestedCounts | Replicator/Puller.cc:126-144 | as many messages are awaited as changes were asked for |
| Pullers.ExpectedEntries | Replicator/Puller.cc:126-144 | each change of a list is entered in turn, and is open just if it and every later one of the list with its sequence was asked for |
| Pullers.Puller.HandleRev | Replicator/Puller.cc:162-174 | a message starts a worker if the limits allow, else it waits at the end |
| Pullers.Puller.HandleNoRev | Replicator/Puller.cc:177-186 | a refused revision is completed, and counted off |
| Pullers.Puller.MakeIncomingRev | Replicator/Puller.cc:206-230 | a worker from the pool, or a new one, while connected |
| Pullers.Puller.StartIncomingRev | Replicator/Puller.cc:189-198 | a message is taken up and counted off |
| Pullers.Puller.DocumentsRevoked | Replicator/Puller.cc:147-159 | as many revocations start as the limits allow, the rest wait in order |
| Pullers.Puller.StartWaitingRevs | Replicator/Puller.cc:233-242 | how many of the waiting messages start, and which |
| Pullers.Puller.StartOldest | Replicator/Puller.cc:236-241 | the message that has waited longest is taken up |
| Pullers.Puller.StartWaitingRevoked | Replicator/Puller.cc:243-249 | the same for revocations, which are dropped when disconnected |
| Pullers.Puller.MaybeStartIncomingRevs | Replicator/Puller.cc:232-250 | as many of the waiting messages and revocations start as the limits allow, in order of arrival; while connected, what still waits does so because a limit is reached |
| Pullers.Puller.ProvisionallyInserted | Replicator/Puller.hh:42-47 | a worker's insertion is counted once as provisional |
| Pullers.Puller.RevWasHandled | Replicator/Puller.cc:269-274 | a finished worker joins those to be collected |
| Pullers.Puller.ConnectionClosed | Replicator/Worker.hh:165-168 | a closed connection disturbs nothing that holds |
| Pullers.Puller.RevsWereProvisionallyHandled | Replicator/Puller.cc:253-265 | the provisional counts are taken off, so the counters are just what is at work, and waiting messages start; while connected, one still waits only if 100 workers that have not inserted are at work or the limit on unfinished ones is reached |
| Pullers.Drains | Replicator/Puller.cc:232-304 | when every worker has finished, collecting them and delivering the counts starts as many of the waiting messages as the limits allow at all |
| Pullers.Puller.RevsFinished | Replicator/Puller.cc:276-309 | all returned workers are collected, their sequences completed, the checkpoint published once and waiting messages started |
| Pullers.Puller.CollectFinished | Replicator/Puller.cc:280-299 | every returned worker is collected in turn, and just the sequences without a transient error are completed |
| Pullers.Puller.RevReRequested | Replicator/Puller.cc:315-322 | one more message is awaited |
| Pullers.Puller.Run | Replicator/Puller.cc:126-348 | in every run the Puller ends in the state the events lead to; its log is what the events announce and complete; the published sequence is the checkpoint of that log and its position never moves back; the counters are exact and within limits; and the messages of the events start in order of arrival |
| Pullers.RunExplained | Replicator/Puller.cc:162-304 | in every run each worker and each message that waits goes back to a "rev" message of the run, and a worker that has finished to a report it made when it was at work on just this sequence |
| Pullers.LogsExactly | Replicator/Puller.cc:126-348 | an event completes just the sequences it settles and announces just those it says |
| Pullers.CheckpointSafe | Replicator/Puller.cc:126-348 | in every run each announcement in front of the checkpoint was settled after it was made: it goes back to an event that announced the sequence and to one, not earlier, that settled it, because nobody had asked for it, the peer could not send it, or a worker collected then had reported success on that very sequence |
| Pullers.SettledIsDone | Replicator/Puller.cc:177-348 | conversely, once an event has settled a sequence, none of its announcements made before is open any more |
| Pullers.Pull | Replicator/Puller.cc:58-348 | a pull from any start through any events has the log these events make, publishes such a checkpoint of it, and takes up the messages in order of arrival |
| SequenceSets.ContainsCorrect | LiteCore/Support/SequenceSet.cc:21-27 | the range search answers whether all of a range is in the set |
| SequenceSets.AddAtCorrect | LiteCore/Support/SequenceSet.cc:30-70 | adding one sequence adds it and nothing else, and keeps the ranges sorted, apart and non-empty, whichever neighbours it merges |
| SequenceSets.AddRangeCorrect | LiteCore/Support/SequenceSet.cc:72-85 | adding a range adds exactly its sequences and keeps the form |
| SequenceSets.RemoveCorrect | LiteCore/Support/SequenceSet.cc:88-121 | removing a sequence removes it alone, splitting a range if need be |
| SequenceSets.CanonicalUnique | LiteCore/Support/SequenceSet.hh:63 | two sets with the same sequences have the same ranges, so comparing ranges compares sets |
| SequenceSets.Intersection | LiteCore/Support/SequenceSet.cc:143-168 | the two-pointer walk gives exactly the sequences in both, in the same form, and the ranges the recursion gives |
| SequenceSets.SharedCorrect | LiteCore/Support/SequenceSet.cc:143-168 | the ranges of what two sets share, told by recursion |
| SequenceSets.ReadEncoded | LiteCore/Support/SequenceSet.cc:182-203 | reading an encoded set gives it back |
| SequenceSets.EncodedPairs | LiteCore/Support/SequenceSet.cc:182-191 | a set is written as the start and the length of each range in turn |
| SequenceSets.ReadGrows | LiteCore/Support/SequenceSet.cc:193-203 | reading any numbers only adds to a set, and keeps the form |
| PushLedger.RunIsSettled | Replicator/Checkpoint.hh:71-89 | over any run of checks, completions and re-pendings the ranges hold exactly the settled sequences |
| PushLedger.LocalMinIsExact | Replicator/Checkpoint.cc:144-147 | the local minimum is the end of the completed run from 0 |
| PushLedger.LedgerIsExact | Replicator/Checkpoint.cc:144-152 | over any run the local minimum is the largest m with everything up to m settled |
| Checkpoints.Checkpoint.LocalMinSequence | Replicator/Checkpoint.cc:144-147 | everything up to the result is completed, the next is not |
| Checkpoints.Checkpoint.constructor | Replicator/Checkpoint.cc:30-34 | just sequence 0 is completed |
| Checkpoints.Checkpoint.IsSequenceCompleted | Replicator/Checkpoint.hh:71 | membership in the completed set |
| Checkpoints.Checkpoint.CompletedSequence | Replicator/Checkpoint.hh:77 | that sequence becomes completed, no other changes |
| Checkpoints.Checkpoint.AddPendingSequence | Replicator/Checkpoint.cc:149-152 | that sequence becomes pending, no other changes |
| Checkpoints.Checkpoint.AddPendingSequences | Replicator/Checkpoint.hh:82-89 | the range is completed but for the listed sequences |
| Checkpoints.Checkpoint.PendingSequenceCount | Replicator/Checkpoint.cc:154-164 | the sum of the gaps is the number of sequences not completed up to the larger of the last one checked and the greatest one completed |
| Checkpoints.Checkpoint.SetRemoteMinSequence | Replicator/Checkpoint.cc:166-170 | the remote sequence is set, and the result tells whether it changed |
| Checkpoints.Checkpoint.ToJSON | Replicator/Checkpoint.cc:36-66 | the local sequence written is the end of the completed run from 0; what is written restores to the same completed sequences, if they have 64 bits, and to the same remote sequence, if it is not a raw text that is an integer |
| Checkpoints.Checkpoint.ReadDict | Replicator/Checkpoint.cc:77-96 | what is restored from any document, a missing or unparseable one included |
| Checkpoints.SaveRestore | Replicator/Checkpoint.cc:36-96 | whatever texts the parser takes for JSON: a checkpoint saved as text and read back is the same exactly if its remote sequence is not a raw text that is no JSON or an integer; the completed sequences are lost only with the whole document |
| Checkpoints.ValuesCanSave | Replicator/RemoteSequence.hh:29-33 | a remote sequence made from a JSON value can be saved, and so can what `validateWith` keeps of two that can |
| Checkpoints.KeptRemoteIsEarlier | Replicator/Checkpoint.cc:98-142 | the remote sequence kept is not after the peer's nor the old one, or is cleared |
| Checkpoints.KeptRemoteExactly | Replicator/Checkpoint.cc:114-139 | the remote sequence is cleared exactly if it differs from the peer's and one of the two does not parse; otherwise it gives way to the peer's exactly if the key of that is less |
| Checkpoints.IntersectionMin | Replicator/Checkpoint.cc:98-147 | the local minimum of an intersection is the smaller of the two |
| Checkpoints.SharedTwice | Replicator/Checkpoint.cc:107-112 | intersecting with the same set again changes nothing |
| Checkpoints.ValidateTwice | Replicator/Checkpoint.cc:98-142 | a second call of `validateWith` against the same peer changes neither the completed sequences nor the remote sequence, and reports a match exactly if the former are now those of the peer |
| Checkpoints.Checkpoint.ValidateWith | Replicator/Checkpoint.cc:98-142 | the completed set becomes the intersection, its minimum the smaller one; the remote sequence is kept, replaced or cleared as the keys of the two say; true is returned exactly if the completed sets were equal and the remote sequence stays |
| Checkpointers.Checkpointer.EnableAutosave | Replicator/Checkpointer.cc:106-112 | a new timer that is not scheduled; what is handed out later is compared with the checkpoint of now |
| Checkpointers.Checkpointer.StopAutosave | Replicator/Checkpointer.cc:114-118 | no timer and no change are left, and what holds is kept |
| Checkpointers.Checkpointer.SaveSoon | Replicator/Checkpointer.cc:120-126 | a change is marked, and the timer scheduled unless a save is under way |
| Checkpointers.Checkpointer.SetRemoteMinSequence | Replicator/Checkpointer.cc:56-59 | a new remote sequence is a change, the same one is not |
| Checkpointers.Checkpointer.AddPendingSequence | Replicator/Checkpointer.cc:68-72 | the checkpoint changes, the change is marked and its save coming |
| Checkpointers.Checkpointer.AddPendingSequences | Replicator/Checkpointer.cc:74-86 | the same for a range |
| Checkpointers.Checkpointer.TimerFires | Replicator/Checkpointer.cc:111 | the timer turns into a call of `save` |
| Checkpointers.Checkpointer.CompletedSequence | Replicator/Checkpointer.cc:88-92 | the same for a sequence that is done |
| Checkpointers.Checkpointer.ValidateWith | Replicator/Checkpointer.cc:61-66 | the reconciled checkpoint, marked as a change unless nothing was to reconcile |
| Checkpointers.Checkpointer.RunSave | Replicator/Checkpointer.cc:128-146 | the current checkpoint is handed out exactly if there is a change and no save is outstanding |
| Checkpointers.Checkpointer.SaveCompleted | Replicator/Checkpointer.cc:148-160 | the end of a save starts another if one is overdue, or schedules the timer if there is a change |
| Checkpointers.Checkpointer.IsUnsaved | Replicator/Checkpointer.cc:162-165 | when it is false and autosave is on, the last document handed out is the checkpoint |
| Checkpointers.Checkpointer.Run | Replicator/Checkpointer.cc:56-165 | in every run the documents handed out are, in order, the checkpoints at just those events at which a save ran with a change and none outstanding; each was handed out after the save before it completed; and the last one is the checkpoint at the end, or a save is under way, pending or scheduled |
| Checkpointers.NextKeeps | Replicator/Checkpointer.cc:56-165 | every event keeps the completed sequences in form, and a save coming for every change |
| Checkpointers.NextMarks | Replicator/Checkpointer.cc:56-92 | what each event does to the completed sequences and the remote sequence, told by membership and by keys |
| Checkpointers.NextSaves | Replicator/Checkpointer.cc:114-160 | what each event does to the timer, the mark, the calls and the save under way |
| Checkpointers.OneAtATime | Replicator/Checkpointer.cc:128-160 | between any two saves of a run the first of them completes |
| Checkpointers.SaveComes | Replicator/Checkpointer.cc:120-160 | whenever there is a change, its save takes at most the end of the current save, the timer and the call, and hands out the checkpoint as it is |
| Checkpointers.HandedOutRestores | Replicator/Checkpoint.cc:36-96 | in every run that is given only remote sequences made from values, each document handed out reads back as the checkpoint it was made of |
| Changes.World.NextIsValid | LiteCore/Database/SequenceTracker.cc:193-265 | saving or purging a document moves its entry to the end of the observer's list and of the documents by sequence, each document once |
| Changes.World.NextIsWhole | LiteCore/Database/SequenceTracker.cc:193-265 | a list that has not been read has every document changed since the observer began |
| Changes.World.SameAfterAll | LiteCore/Database/SequenceTracker.cc:193-265 | what changes make of a collection does not depend on what its observer has read |
| FeedLaws.SinceIsAll | Replicator/ChangesFeed.cc:98-109 | the by-sequence enumeration visits exactly the documents beyond a sequence, in order |
| FeedLaws.SinceReached | Replicator/ChangesFeed.cc:98-109 | an enumeration begun where another stopped visits the rest |
| FeedLaws.EnumeratedComplete | Replicator/ChangesFeed.cc:89-117 | after any number of steps every eligible document passed was handed over, exactly unless a filter threw at one |
| FeedLaws.EnumeratedSound | Replicator/ChangesFeed.cc:89-117 | only changes that were made and pass are handed over, in order, each once, also when it throws |
| FeedLaws.EnumeratedAll | Replicator/ChangesFeed.cc:112-115 | nothing lies beyond what an enumeration reached exactly if it visited everything |
| FeedLaws.CaughtUpExactly | Replicator/ChangesFeed.cc:110-117 | a feed that takes itself to have caught up can rely on an unread observer exactly if no eligible document lies between its position and the sequence at which the observer began |
| FeedLaws.EnumeratedHolds | Replicator/ChangesFeed.cc:89-117 | a reading of the history, failed or not, keeps what the feed promises exactly unless a filter threw at an eligible document or one is left behind that the observer does not know of |
| FeedLaws.WholeReadingKeeps | Replicator/ChangesFeed.cc:110-117 | a reading without a failure never does that |
| FeedLaws.HistoryRead | Replicator/ChangesFeed.cc:112-115 | a reading of the history to its end has left no eligible document |
| FeedLaws.ObserveComplete | Replicator/ChangesFeed.cc:140-172 | an observed change, taken in with the older one of its document erased, leaves nothing out |
| FeedLaws.ObserveAllMeans | Replicator/ChangesFeed.cc:137-172 | of what is read of the list just the last change of each document that is new, passes, is not completed and is no echo is handed over, and the position is the last one read |
| FeedLaws.ListRead | Replicator/ChangesFeed.cc:175-183 | nor has one of the observer's list that emptied it |
| FeedLaws.HoldsNext | Replicator/ChangesFeed.cc:68-80 | any change of the database between calls keeps the feed complete and the observer's list sufficient |
| ChangesFeeds.ChangesFeed.DbChanged | Replicator/ChangesFeed.cc:188-192 | a change of the database is told to the owner at most once, and never missed while it is to be told |
| ChangesFeeds.ChangesFeed.Changed | Replicator/ChangesFeed.cc:188-192 | an owner that waits for changes is told of one, once for each time the flag is set, and one that has something to fetch has been told or will be |
| ChangesFeeds.ChangesFeed.constructor | Replicator/ChangesFeed.cc:36-47 | a feed that starts after any sequence has handed over nothing |
| ChangesFeeds.ChangesFeed.MakeRevToSend | Replicator/ChangesFeed.cc:197-212 | which documents are offered; the position moves on in any case, also if a filter throws |
| ChangesFeeds.ChangesFeed.Enumerate | Replicator/ChangesFeed.cc:98-110 | the documents offered among those visited, the position, and why it stopped: the limit, the end, an enumerator or a filter that threw |
| ChangesFeeds.ChangesFeed.ReadHistory | Replicator/ChangesFeed.cc:89-117 | the same for the documents beyond the position, which lie between the old and the new one |
| ChangesFeeds.ChangesFeed.GetHistoricalChanges | Replicator/ChangesFeed.cc:89-117 | exactly the offered ones among the documents visited, the new position, when the feed takes itself to have caught up, and whether its promise is broken |
| ChangesFeeds.ChangesFeed.ReadObserver | LiteCore/Database/SequenceTracker.cc:328-349 | some of the list, at least one change if there are any, and the rest stays |
| ChangesFeeds.ChangesFeed.ObserveChange | Replicator/ChangesFeed.cc:140-172 | what one observed change does: skipped, echoed, filtered, or taken in |
| ChangesFeeds.ChangesFeed.ObserveSome | Replicator/ChangesFeed.cc:129-173 | one reading of the list is the observation of that batch, one change after the other, and makes the list shorter, or it was empty |
| ChangesFeeds.ChangesFeed.Round | Replicator/ChangesFeed.cc:127-173 | what arrives and one reading, with what it took |
| ChangesFeeds.ChangesFeed.ObserveUntilDone | Replicator/ChangesFeed.cc:127-173 | readings until the limit is reached or the list is empty; the collection, the list and what was seen are those of the arrivals and the readings in turn |
| ChangesFeeds.ChangesFeed.Arrive | Replicator/ChangesFeed.cc:127-132 | the collection and the list are then what these changes have made of them; nothing that holds is disturbed, and the owner is told or will be |
| ChangesFeeds.ChangesFeed.ReplaceOlder | Replicator/ChangesFeed.cc:160-170 | the newer change takes the place of an older one of its document, and the count plus the limit left stays the same |
| ChangesFeeds.ChangesFeed.ObserveBatch | Replicator/ChangesFeed.cc:137-172 | a batch is the observation of its changes one after the other, and keeps what holds while the list is read |
| ChangesFeeds.ChangesFeed.GetObservedChanges | Replicator/ChangesFeed.cc:119-184 | the collection and the list are what the arrivals and the readings in turn have made of them; the changes are the observation of just what was read, of different documents and in order; no eligible one is left out; fewer than the limit only if the list is empty; and the owner is told to ask again, or of the next change |
| ChangesFeeds.RoundsCollection | Replicator/ChangesFeed.cc:127-173 | reading the list leaves the collection to the changes that arrive |
| ChangesFeeds.RoundsAlone | Replicator/ChangesFeed.cc:127-173 | if nothing arrives, what was read is just what is gone from the list |
| ChangesFeeds.ChangesFeed.StartObserver | Replicator/ChangesFeed.cc:68-74 | the observer starts with an empty list, before the history is read |
| ChangesFeeds.ChangesFeed.WatchAndRead | Replicator/ChangesFeed.cc:68-81 | a continuous feed has its observer before it reads the history |
| ChangesFeeds.ChangesFeed.NextChanges | Replicator/ChangesFeed.cc:76-81 | the observer is asked exactly once the feed has caught up and is continuous, else the history; what becomes of collection, list, position and promise in each case |
| ChangesFeeds.ChangesFeed.NoteChecked | Replicator/ChangesFeed.cc:83-85 | in the checkpoint just the changes found are pending in the range looked at |
| ChangesFeeds.ChangesFeed.GetMoreChanges | Replicator/ChangesFeed.cc:65-87 | the next changes, at most the limit, all between the old and the new position, from the one source or the other; what becomes of the collection; and in the checkpoint of an active replicator just these are pending in that range |
| ChangesFeeds.ChangesFeed.Run | Replicator/ChangesFeed.cc:65-192 | in every run of calls, database changes and pushed sequences the feed goes from state to state as each event says; the collection is what all that happened has made of it; what was handed over is the answers in order, changes that were made and pass, each once; every eligible document that was passed is among them unless a reading of the history broke that, which only the failing ones do that leave one behind; and after an answer shorter than the limit no eligible document at all is left |
| ChangesFeeds.LostBecause | Replicator/ChangesFeed.cc:89-117 | in every run the promise is lost only by a reading of the history that breaks it |
| ChangesFeeds.ChangesFeed.OfferAll | Replicator/ChangesFeed.cc:65-117 | with any limits a push, one-shot or continuous, offers up to the call in which it catches up exactly the documents that pass and are not completed, and these are then what is pending |
| ChangesFeeds.MoreProgress | Replicator/ChangesFeed.cc:65-117 | two calls in a row look at the documents as one would, whatever their limits |
| ChangesFeeds.FailedEnumerationLoses | Replicator/ChangesFeed.cc:110-117 | a run in which an enumerator throws and a document is passed by |
| ChangesFeeds.ThrowingFilterLoses | Replicator/ChangesFeed.cc:197-212 | a run in which a filter throws and a document is passed by |
| ChangesFeeds.Resume | Replicator/Pusher.cc:49-55 | saving a checkpoint as text, reading it back and starting at its local minimum offers exactly what was not completed, or everything if the text cannot be parsed |
| PushRuns.Begin | Replicator/Pusher.cc:49-55 | a feed and a pusher that start at the local minimum of one checkpoint |
| PushRuns.GetMore | Replicator/Pusher.cc:106-135 | what the feed finds is what the pusher takes in, and the checkpoint is then the pusher's |
| PushRuns.Advanced | Replicator/Pusher.cc:115-641 | the pusher changes nothing in the checkpoint beyond what its feed has passed, so the feed keeps what it relies on |
| PushRuns.RunChanges | Replicator/Pusher.cc:106-135 | in every joint run the collection is what happened to it, and what was handed to the pusher is the answers in order |
| PushRuns.Run | Replicator/Pusher.cc:49-641 | in every run of feed and pusher on one checkpoint, up to an event that queues a revision beside another one: each document has one owner; every sequence passed is completed, being pushed, waiting or ended; every eligible document passed was handed over; and when the feed finds less than it was asked for, all of the collection is in hand |
| Restarts.PushAgain | Replicator/Pusher.cc:49-55 | after any run of a pusher without those two events, a push from the saved checkpoint offers every revision that was pushed, waited or was to be retried, and every one that failed for the time being and was not settled later, if it is current and passes; and of the range read before nothing but what was pushed, waited or had ended uncompleted |
| PushStates.TakeInKeeps | Replicator/Pusher.cc:118-135 | a change that starts or waits keeps ownership and the checkpoint's account |
| PushStates.TakeInNewer | Replicator/Pusher.cc:118-135 | of each document the revisions to retry, pushed, waiting and just found are older in that order, and a change that starts or waits keeps this |
| PushStates.FinishKeeps | Replicator/Pusher+Revs.cc:406-446 | being done with a revision, with or without one that waits, keeps ownership and the account, and frees the revision |
| PushStates.FinishMarks | Replicator/Pusher+Revs.cc:406-446 | which sequences are completed afterwards |
| PushStates.FinishDocs | Replicator/Pusher+Revs.cc:420-437 | another revision of the document is pushed then exactly if one waited and is proposed |
| PushStates.FinishNewer | Replicator/Pusher+Revs.cc:406-446 | so does being done with a revision |
| PushStates.MovedKeeps | Replicator/Pusher.cc:203-247 | moving a revision along the pipeline keeps ownership |
| PushStates.RetryNowExactly | Replicator/Pusher.cc:624-633 | a revision put back at once is owned exactly if nothing else of its document is pushed |
| PushStates.RetryAllKeeps | Replicator/Pusher.cc:634-641 | what is retried later is taken in like new changes by a pusher that pushes nothing |
| PushStates.RetryLaterKeeps | Replicator/Pusher+Revs.cc:266-310 | a revision put aside to be retried keeps ownership and the account |
| PushStates.NoteKeeps | Replicator/Pusher.cc:443-455 | remembering a conflict keeps ownership and the account |
| PushStates.ForgetKeeps | Replicator/Pusher.cc:469-497 | giving up a conflict does too |
| PushStates.ProposeExactly | Replicator/Pusher.cc:502-512 | an out-of-order change is owned exactly if nothing else of its document is pushed |
| PushStates.ProposeConflictExactly | Replicator/Pusher.cc:466-499 | so is a conflict that is still current and is proposed again |
| PushStates.ConflictFits | LiteCore/Database/CollectionImpl.hh:166-171 | a conflict that is still found by its sequence is newer than what is to be retried of its document |
| PushStates.SupersededExactly | Replicator/Pusher.cc:476-483 | a conflict is superseded exactly if a newer revision of its document is known in any role |
| PushStates.ReceiveKeeps | Replicator/ChangesFeed.cc:83-86 | new changes from the feed are all accounted for |
| Pushers.FeedIsFresh | Replicator/Pusher.cc:106-113 | what the feed hands over is what `GotChanges` asks for |
| PushStates.OwnedMeans | Replicator/Pusher.cc:115-135 | of each document at most one revision is announced, queued or in flight, once; it is the one in `_pushingDocs`; and the one that waits for it is newer, and not in the pipeline |
| Pushers.Pusher.GotChanges | Replicator/Pusher.cc:115-162 | the changes start or wait in turn and those that start are announced; with an error they are dropped |
| Pushers.Pusher.constructor | Replicator/Pusher.cc:29-46 | a pusher that has nothing to push |
| Pushers.Pusher.TakeAllIn | Replicator/Pusher.cc:121-162 | the loop over the changes, and the announcement of those that start |
| Pushers.Pusher.SendChanges | Replicator/Pusher.cc:203-247 | a non-empty list is announced and counted |
| Pushers.Pusher.HandleChangesResponse | Replicator/Pusher.cc:256-324 | every change of the list is answered in turn, with the answers missing at the end, and then as much is sent as the limits allow |
| Pushers.Pusher.GiveUpAll | Replicator/Pusher.cc:287-291 | on an error every change of the list is done, uncompleted |
| Pushers.Pusher.HandleResponses | Replicator/Pusher.cc:310-322 | each change is handled with the answer beside it |
| Pushers.Pusher.HandleResponse | Replicator/Pusher.cc:327-405 | what each answer does with its change; `PushOutcomes.AnswerExactly` says what that comes to |
| Pushers.Pusher.HandleConflict | Replicator/Pusher.cc:364-463 | what each kind of conflict means |
| Pushers.Pusher.MaybeSendMoreRevs | Replicator/Pusher+Revs.cc:65-78 | revisions are sent in order until the queue is empty or a limit is reached, never more than the limit in flight |
| Pushers.Pusher.SendRevision | Replicator/Pusher+Revs.cc:81-235 | what becomes of a revision, whatever is found in the database |
| Pushers.Pusher.OnAwaitingReply | Replicator/Pusher+Revs.cc:243-249 | a transmitted revision is no more in flight, and others are sent |
| Pushers.Pusher.HandleReply | Replicator/Pusher+Revs.cc:250-316 | what each reply does with its revision; ownership is kept exactly unless a failed delta is retried beside a proposed successor; `PushOutcomes.ReplyOutcome` says what the rest comes to |
| PushOutcomes.AnswerExactly | Replicator/Pusher.cc:308-405 | after an answer without error each change of the list is in the pipeline, or had nothing to send, exactly if the peer wants it or it is proposed again; otherwise it is out of it, its sequence completed, and a conflict that may be retried remembered; and as much is sent as the limits allow |
| PushOutcomes.ReplyOutcome | Replicator/Pusher+Revs.cc:250-316 | after a final reply a revision is out of the pipeline and completed; after a transient error out of work and pending; forbidden for the first time, pending and kept for later; a failed delta is queued again, no more as a delta |
| PushOutcomes.DeliveredOutcome | Replicator/Pusher+Revs.cc:65-249 | a transmitted revision awaits its reply; of the queue each is sent, left to a restart or done as the database says, until a limit is reached |
| PushOutcomes.SendAllSends | Replicator/Pusher+Revs.cc:65-235 | what sending does with each queued revision, told by what the database has of it |
| PushOutcomes.FoundOutcome | Replicator/Pusher.cc:115-162 | what the feed found is pushed, waits or is overtaken by a newer change found; with an error it is dropped and stays pending |
| PushOutcomes.IdleOutcome | Replicator/Pusher.cc:618-641 | an idle pusher takes in all that is to be retried, a busy one nothing |
| PushOutcomes.AncestorOutcome | Replicator/Pusher.cc:466-499 | a conflict whose remote revision changed is completed if its document has changed, pushed again if the remote revision is an ancestor, and else given up |
| PushOutcomes.NextCompletes | Replicator/Pusher.cc:115-641 | a sequence is completed only by an event that settles it: the feed passed it by or found a newer change; the peer has it, declines or refuses it, or it conflicts; the reply is final; its body is gone; or it waited and is not to be pushed any more |
| PushOutcomes.RunCompletes | Replicator/Pusher.cc:115-641 | in every run a sequence that is completed at the end and was not at the start goes back to such an event |
| PushOutcomes.FailureLeavesPending | Replicator/Pusher+Revs.cc:258-316 | a list error, a transient error and a first refusal as forbidden leave the sequence pending |
| PushOutcomes.StaysPending | Replicator/Pusher.cc:115-641 | in every run what is pending stays so until an event settles it |
| Pushers.Pusher.OnComplete | Replicator/Pusher+Revs.cc:238-320 | the same for the reply at any place among those awaited, and others are sent |
| Pushers.Pusher.DoneWithRev | Replicator/Pusher+Revs.cc:406-446 | the revision leaves the pipeline and its waiting one is proposed or completed |
| Pushers.Pusher.AfterEvent | Replicator/Pusher.cc:618-641 | an idle pusher takes in again all that is to be retried |
| Pushers.Pusher.DocRemoteAncestorChanged | Replicator/Pusher.cc:466-499 | what becomes of a conflict; it is forgotten if a newer revision of the document is known; ownership is kept exactly unless it is current, proposed, and its document being pushed |
| Pushers.ReplyExactly | Replicator/Pusher+Revs.cc:250-316 | a reply keeps ownership and the account exactly unless a failed delta is queued again when a waiting revision is to be pushed |
| Pushers.AncestorExactly | Replicator/Pusher.cc:466-499 | a changed remote revision keeps them exactly unless a current conflict is proposed while its document is being pushed |
| Pushers.NextKeeps | Replicator/Pusher.cc:115-641 | every event but those two keeps ownership, the order of the revisions of each document, the account of pending sequences, and the checkpoint beyond what was read |
| Pushers.NextFields | Replicator/Pusher.cc:115-641 | no event but one of the feed moves the last sequence read |
| Pushers.RunKeeps | Replicator/Pusher.cc:115-641 | in every run in which neither of the two happens, what holds at the start holds at the end |
| Pushers.RepeatsBreaks | Replicator/Pusher.cc:466-499 | each of the two does break it, at least while nothing more is sent |
| Pushers.RunEnds | Replicator/Pusher+Revs.cc:81-446 | in every run a sequence counted as ended uncompleted belongs to a revision that an event of the run ended so: one just found, announced, queued or awaiting its reply then |
| Pushers.Pusher.Run | Replicator/Pusher.cc:115-641 | in every run the pusher ends in the state the events lead to; if none of them is one of those two, each document has at most one revision in the pipeline, the waiting one is newer, the counters are exact, and for an active pusher every pending sequence belongs to a revision that is pushed, waits or ended uncompleted |
| Pushers.DeltaRetryDoubles | Replicator/Pusher+Revs.cc:276-307 | a run from a new pusher after which a failed delta is queued beside its successor |
| Pushers.ProposedConflictDoubles | Replicator/Pusher.cc:484-492 | a run from a new pusher after which a conflict is proposed beside an older revision that is retried |
| Inserters.InsertRevisionsNow | Replicator/Inserter.cc:39-97 | what every owner has been told, for any outcomes and an exception before or after any owner is told |
| Inserters.InsertAll | Replicator/Inserter.cc:48-80 | what each owner has been told when the transaction is over |
| Inserters.ToldOnce | Replicator/Inserter.cc:55-88 | every owner is told exactly once, exactly if no failed insertion has code 0 |
| Inserters.ToldTwice | Replicator/Inserter.cc:62-87 | a case in which one is told twice |
| Inserters.ErrorIsExact | Replicator/Inserter.cc:57-87 | the error is zero exactly if the revision was saved and the transaction committed; it is transient exactly for delta errors |
| ByteStreams.FindInPrefix | Networking/TCPSocket.cc:360-367 | a delimiter found in what has been read is the first of the stream |
| ByteStreams.DecodeEncoded | Networking/TCPSocket.cc:400-426 | every sequence of chunks decodes to its contents, and the rest starts right after the final CRLF |
| ByteStreams.DecodeProper | Networking/TCPSocket.cc:400-426 | the same for the chunks of section 7.1 of RFC 9112, without extensions and trailers |
| ByteStreams.HexRead | Networking/TCPSocket.cc:406-411 | every number written in hexadecimal digits, small or capital, with zeros in front or without, is the number read |
| ByteStreams.DecodeWritten | Networking/TCPSocket.cc:400-426 | every body written block by block, each with its length so written, decodes to the blocks in one, and the rest starts right behind it |
| ByteStreams.DecodedWasEncoded | Networking/TCPSocket.cc:400-426 | a decoding without error has read such a sequence |
| ByteStreams.Peel | Networking/TCPSocket.cc:404-424 | every stream is a sequence of chunks the decoder takes and a tail that begins with none |
| ByteStreams.BodyWithErrorExactly | Networking/TCPSocket.cc:346-426 | a body is returned together with an error exactly for one or more chunks, a line that does not end within the limit, and CRLF; the error is 431 |
| ByteStreams.BodyWithError | Networking/TCPSocket.cc:346-426 | such a stream: a proper chunk, 51200 bytes without CRLF, then CRLF |
| TCPSockets.TCPSocket.ReadRaw | Networking/TCPSocket.cc:294-303 | some bytes if there are any; else end, nothing or an error |
| TCPSockets.TCPSocket.PushUnread | Networking/TCPSocket.cc:306-312 | the data stands in front of what was still to be read |
| TCPSockets.TCPSocket.Read | Networking/TCPSocket.cc:315-327 | a prefix of pushed-back data and stream, none lost |
| TCPSockets.TCPSocket.ReadExactly | Networking/TCPSocket.cc:330-343 | exactly that many bytes, or all of the stream is used up and an error set |
| TCPSockets.TCPSocket.ReadToDelimiter | Networking/TCPSocket.cc:346-380 | the bytes up to the first delimiter, exactly if it ends within the limit, and the rest of the stream untouched, whatever the fragmentation; else which error |
| TCPSockets.TCPSocket.UnreadRest | Networking/TCPSocket.cc:362-366 | what follows the delimiter is pushed back |
| TCPSockets.TCPSocket.ReadChunkedHTTPBody | Networking/TCPSocket.cc:400-426 | the decoding of the stream, its rest and its error, whatever the fragmentation |
| TCPSockets.ReadWritten | Networking/TCPSocket.cc:400-426 | such a body comes out of the socket without error, whatever the fragmentation, and what follows stays in it |
| TCPSockets.TCPSocket.ReadChunk | Networking/TCPSocket.cc:405-423 | one turn of it |
| TCPSockets.TCPSocket.ReadChunkData | Networking/TCPSocket.cc:413-423 | the data of a chunk and its CRLF, or which error |
| TCPSockets.TCPSocket.EraseWritten | Networking/TCPSocket.cc:276-289 | the slices left are the old bytes minus those written, and none are left exactly if all were |
| TCPSockets.TCPSocket.Write | Networking/TCPSocket.cc:263-290 | what was sent and what is left, for any partial or failed write |
| TCPSockets.TCPSocket.WriteRepeatedly | Networking/TCPSocket.cc:263-290 | after any number of calls the bytes sent and those left are the original ones, each once |
| DistinguishedNames.Build | Crypto/Certificate.cc:51-68 | the text of the entries, commas in values escaped |
| DistinguishedNames.AppendEscaped | Crypto/Certificate.cc:58-65 | the commas of a value are escaped |
| DistinguishedNames.AsVector | Crypto/Certificate.cc:70-101 | the entries of any text |
| DistinguishedNames.ReadValue | Crypto/Certificate.cc:76-93 | a value up to a comma that is not escaped |
| DistinguishedNames.ValueRoundTrip | Crypto/Certificate.cc:58-93 | a value without backslashes is read back |
| DistinguishedNames.ValueWithBackslash | Crypto/Certificate.cc:78-93 | one with a backslash never is, whatever follows |
| DistinguishedNames.RoundTrip | Crypto/Certificate.cc:51-101 | the entries come back exactly if keys and values are as said above |
| DistinguishedNames.ReadsBeyondExactly | Crypto/Certificate.cc:70-101 | the parser reads beyond the text exactly if an odd run of backslashes ends it, inside a value |
| DistinguishedNames.BackslashReadsBeyond | Crypto/Certificate.cc:51-101 | a built name with which it does: an entry whose value is one backslash |

## Left out

- Sequence numbers, order counters and buffer sizes are unbounded integers; only numerals read from text and chunk lengths wrap at 64 bits.
- `slice_istream::readDecimal` and `readHex` are not part of the repository; they are taken to read the digits there are, modulo 2^64.
- Which texts are JSON is a parameter, and a JSON value is taken to be written again as it was read; the JSON parser and encoder are not part of the repository.
- ChangesFeeds.ChangesFeed.GetObservedChanges: leaves out exceptions thrown while the observer's list is read.
- Aborted transactions and several collections in the observer's list of changes.
- Changes made while an enumeration runs count as made after it; the observer exists before it, so they are in its list.
- Pullers.Puller.HandleRev: asks that a message answers an outstanding request, as the counter's own assertion (LiteCore/Support/Increment.hh:27) demands when the message is taken up.
- Pullers.Puller.HandleNoRev: asks the same, as that assertion demands at once.
- IncomingRev is a worker that finishes once, with an error flag; its parsing, deltas, blobs and decryption are not modelled.
- Pushers.Pusher.Run: leaves out disconnects, after which the counters are not used any more.
- The limit on bytes awaiting a reply is a parameter of each event, and a `RevToSend` is a document and a sequence; revision IDs, ancestors and bodies are not modelled.
- Whether a remembered conflict is still current is told by the revisions the pusher knows of: a newer one of the document supersedes it. A newer one it does not know of yet counts as `LocalChanged`.
- When the Pusher asks its feed for more (`_maybeGetMoreChanges`) is up to the run.
- TCPSockets.TCPSocket.ReadToDelimiter: asks for a non-empty delimiter and a limit not below the first buffer size, as all callers give.
- readToEOF, content-length bodies, HTTP headers, TLS and polling.
- BLIP messaging, WebSockets, the C API, storage, revision trees, version vectors, push filters and key stores.
- Logging, progress, status and instrumentation.
