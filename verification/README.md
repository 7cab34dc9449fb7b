# Verification of the Helm operator plugins

This project models the parts of the Helm operator library that keep state in a cluster, and proves what they promise.
It has three parts.

**The chunked Secret storage driver** stores a Helm release as one index Secret, which holds the first chunk, the
names of the other chunks and the search labels, and one immutable Secret for each further chunk, named after the key
and the hash of its data. `SecretApi` is the API server, with requests that can fail with or without effect.
`Protocol` gives Create, Update, Get and Delete as processes that do one request at a time; `Driver` has the same calls
as methods of a class, with the loops and the in-place label edits of the source, and every method returns a ghost run
that shows that it follows the process. On the processes rest the proofs about concurrency and crashes (`Safety`,
`Reads`, `Interleaving`, `SingleCall`, `Overlap`, `Lifetime`, `Overtaking`) and the refinement of a plain map of
releases (`Results`, `Refinement`, `Success`, `Querying`, `Listing`, `MapQueries`). `Hashing` and `Chunking` are the
driver's arithmetic, `Labels` its labels and selectors.

**The reconciler** drives Helm for one custom resource. `Conditions` and `StatusEdits` are the status and the queue of
edits; `Outcomes` lists every way a reconciliation can end, with its queue, and the table of condition values that the
queue amounts to. `Cluster` is the world (resource, release history, other clients, and a ghost log of every step),
`Server` the calls the operator makes to it, `Updater` and `Reconciler` the two classes of the source. Every call may
come after any requests of other clients, may fail with or without effect, and fails from some point on if the operator
crashes. `Convergence` is about reconciliations that nobody disturbs.

**The action client** adds clean-up after failed installs and upgrades (`ActionClient`), and repairs drift with a
filtered JSON patch (`JsonPatch`, operations as in section 4 of RFC 6902; `DriftRepair` for a whole manifest).

`dafny verify dfyconfig.toml` verifies the whole project with Dafny 4.11 and its default limits.

## Main results

- With any number of overlapping calls, failures, crashes and lost Secrets: no torn reads (`Interleaving.NoTornReads`),
  and reads are regular: a Get or Delete that returns a release returns, whole, the one its key held when the call began
  or one that a call wrote there while it ran (`Overlap.ReadsAreRegular`); a Query or List that decodes its listing is
  the filter over the indices stored at the moment of the listing (`Listing.QueryIsOfOneMoment`,
  `Listing.ListIsOfOneMoment`); a key that no call writes or deletes reads the same, even by a Get that runs amid the
  others (`Overlap.OtherKeysReadTheSame`, `Overlap.GetAmidOtherKeys`).
- The createdAt label of an index stays what Create set in every interleaving in which no Update is overtaken by a
  Delete and a new Create of its key (`Lifetime.CreatedAtIsKept`). Without that condition it is false:
  `Overtaking.OvertakenUpdateWritesOldLabel` gives the history, for every release of one chunk. Exactly the stale writes
  change a label (`Lifetime.LabelsChangeIff`), and only an overtaken Update makes one
  (`Lifetime.StaleOnlyIfOvertaken`).
- A single call that stops anywhere leaves the old release, the new one or an error
  (`SingleCall.InterruptedCallLeavesOldOrNew`).
- The driver refines a map (`Refinement.SessionRefinesMap`) and Update heals (`Refinement.UpdateHeals`). A release is
  read back with everything but the labels that use one of the driver's own eight names (`Labels.ReadAs`, which all
  results about reads are stated with).
- On every store that calls, failures and crashes can leave, half-written keys included, Query is the simple filter over
  the releases that can be read (`Querying.QueryEqualsFilter`), each of which is the release of its index
  (`Listing.ReadableIsIndexed`); it answers without faults exactly under the condition of `Querying.QueryAnswersIff`.
  On a healthy store the answer is told by the fields of the releases (`MapQueries.QueryOfMap`,
  `MapQueries.HistoryLookup`).
- When no request fails, Create of a free key, on any store, and Update of a stored key, in any half-written state of
  it, succeed exactly under the conditions of `Success.CreateSucceedsIff` and `Success.UpdateSucceedsIff`. Two equal
  further pieces of one release make its Create fail (`Success.EqualPiecesCannotBeStored`); with chunks of one byte this
  happens to every release whose gzip header has no modification time (`Success.OneByteChunksCannotHoldGzip`).
- After every step of every run of the controller, with crashes, failures and other clients, a recorded release has a
  resource that holds the finalizer, the status is consistent, and every step that drops the finalizer comes after an
  uninstall of that resource which succeeded or found nothing, and no step of the operator touches a finalizer of
  others or lets a resource go that has one (`Reconciler.Reconciler.Run`).
- A reconciliation tells the truth about what it has written, relative to the status it has read, and a success has
  brought the release to what the spec that was read asks for (`Reconciler.Reconciler.Reconcile`).
- The outcome table (`Outcomes.OutcomeTable`), and exactly which outcomes forget the past
  (`Outcomes.DecisiveOutcomesForgetThePast`, `Outcomes.OtherOutcomesRemember`).
- Convergence (`Convergence.Converges`), with the exact condition on the release: while Helm refuses to touch it, an
  undisturbed reconciliation fails and leaves it alone (`Reconciler.Reconciler.Reconcile`), and every later one does
  too (`Convergence.RefusedStaysRefused`).
- Rollback restores the old manifest exactly if the failed revision had been recorded, or the revision below has the
  same manifest (`ActionClient.RollbackRestoresIff`). A dry run records nothing, so a dry run of an upgrade leaves the
  history alone exactly if it succeeds or Helm answers its failure without a revision; otherwise the rollback undoes the
  latest release (`ActionClient.ActionClient.Upgrade`; `ActionClient.FailedDryRunUndoesRelease` is an input). The
  clean-up of a failed install leaves the history alone exactly if Helm has answered without a revision or there was no
  release; a failed dry run of an install that hands back a revision removes the release that was there
  (`ActionClient.ActionClient.Install`).
- The repair patch is an overlay, keeps what others added, and needs no second one (`JsonPatch.PatchRepairs`,
  `JsonPatch.OverlayKeepsExtras`, `JsonPatch.RepairedNeedsNoPatch`).

Some of the rows are exceptions that the source makes: an upgrade whose lookup of the current release fails returns an
error while Irreconcilable says False (`CurrentUnavailable` in `Outcomes.TableRow`); when no release is found, an old
record of one stays in the status; a reconciliation that fails again moves the transition time of Irreconcilable
(`Outcomes.FailingAgainMovesTransitionTime`); and when the wait for deletion times out after a successful uninstall, the
edits queued before it are still written (outcome `Deletion`).

## Assumptions

- Gzip and JSON are a pair of functions: what was encoded is not empty and can be decoded, and the decoder returns as
  soon as it has a whole value, so further bytes change nothing (`Protocol.CodecOk`).
- The hash is any function with 13-character results from the alphabet of section 6 of RFC 4648 in the source's own
  letters (`Protocol.HashOk`); `Hashing` proves that FNV-1a with that encoding is one. Only the results on torn reads
  and atomicity assume that it separates the pieces of the releases written (`Safety.CollisionFree`).
- New keys do not look like chunk names (`Protocol.ChunkShaped`); Helm's own keys never do
  (`Protocol.HelmKeyNotChunkShaped`). One owner per namespace. The chunk size is at least 1.
- One worker per custom resource, reads that return the current object, status as a subresource, and other clients
  that neither add nor remove the uninstall finalizer nor write the status.
- Helm's actions are contracts over the release history: an uninstall that succeeds leaves no history, rendering is a
  function of the values, a failed action may leave any history. An undisturbed upgrade succeeds if the latest revision
  is deployed, failed or superseded; Helm refuses to touch a pending or uninstalled one. It does not look at whether
  the name is in use when it dry-runs an install.

## Model

| member | source | states |
|---|---|---|
| `Labels.FilterSystemLabels` | pkg/storage/labels.go:50-58 | the loop leaves exactly the labels whose names are not one of the eight that the driver uses |
| `Labels.ReadAsIff` | pkg/storage/chunked.go:440-442 | what is read back is the stored release with name, version, status and content unchanged and with exactly the labels whose names are not one of the eight |
| `Labels.ReadAsItself` | pkg/storage/chunked.go:440-442 | a release that uses none of the eight names is read back as it is |
| `Releases.ItoaRoundTrip` | pkg/storage/labels.go:12-18 | the decimal text of a number, negative or not, stands for that number |
| `Labels.SelectorMeaning` | pkg/storage/labels.go:30-40 | each of the three selectors selects exactly the Secrets with its owner, key and type |
| `Hashing.Base32RoundTrip` | pkg/storage/chunked.go:47-48 | decoding the base32 text of a number gives the number back |
| `Hashing.HashTextInjective` | pkg/storage/chunked.go:445-452 | different 64-bit hashes have different texts |
| `Hashing.HashTextValue` | pkg/storage/chunked.go:445-452 | read as a number, the text of a hash is the hash with one zero bit appended |
| `Hashing.OneByteChangesHash` | pkg/storage/chunked.go:445-452 | changing one byte of the data changes its hash |
| `Hashing.FnvTestVectors` | pkg/storage/chunked.go:48-49 | the sum of nothing, of a and of ab is the published one |
| `Hashing.Hasher.HashForData` | pkg/storage/chunked.go:445-452 | the shared hasher, reset before use, gives the FNV-1a text of the data whatever was hashed before |
| `Chunking.PiecesJoin` | pkg/storage/chunked.go:126-138 | the pieces concatenate, in order, to the data |
| `Chunking.PiecesShape` | pkg/storage/chunked.go:126-138 | all pieces but the last have exactly the chunk size, none is empty, and their number is the ceiling of length over size |
| `Chunking.JoinSplit` | pkg/storage/chunked.go:408-427 | feeding the pieces one after the other feeds the whole byte stream |
| `Protocol.ChunkNameShape` | pkg/storage/chunked.go:134-137 | a chunk name determines the key and the hash it was made of |
| `Protocol.HelmKeyNotChunkShaped` | pkg/storage/chunked.go:134-137 | a key that ends in a revision number never looks like a chunk name |
| `Safety.StepKeepsStore` | pkg/storage/chunked.go:62-90 | every request of every call, failed or not, keeps every Secret well formed: an index agrees with one single release in name, labels, first chunk and chunk names, a chunk is immutable and named after key and hash of its data |
| `Safety.UpdateKeepsStore` | pkg/storage/chunked.go:236-245 | the same for the replacement of an index |
| `Safety.StepKeepsWriter` | pkg/storage/chunked.go:111-202 | between its requests a writing call holds only Secrets of the one release it was given |
| `Safety.StepEffect` | pkg/storage/chunked.go:215-272 | what one request of each phase of a call can do to the store, and that all other requests leave it alone |
| `Safety.IndexSaysRelease` | pkg/storage/labels.go:12-18 | a well-formed index is labelled with its key, its owner, its type and with the name, the status and the version of its release, and with no other names than the eight |
| `Reads.GetReadsBack` | pkg/storage/chunked.go:287-296 | an undisturbed Get ends with what the store holds under the key, or with a read error |
| `Reads.StepKeepsReader` | pkg/storage/chunked.go:385-428 | at every moment of a read, the bytes collected are a prefix of the encoding of the one release whose index was read |
| `Reads.IndexDeterminesRelease` | pkg/storage/chunked.go:152-176 | two releases with the same index Secret are read back as the same release, if the hash separates their pieces |
| `Reads.IndexNames` | pkg/storage/chunked.go:152-176 | the chunk names in an index are the names of the release's further pieces in order |
| `Interleaving.HistoryKeepsStore` | pkg/storage/chunked.go:62-272 | in every interleaving of calls, crashes and lost Secrets the store stays well formed; nothing is assumed of the hash |
| `Interleaving.HistoryKeepsReaders` | pkg/storage/chunked.go:385-428 | in every interleaving every reading call has collected a prefix of one release |
| `Interleaving.SourceSeenSince` | pkg/storage/chunked.go:204-213 | a call gets the index it works from out of a state since it began, never an earlier one |
| `Interleaving.NoTornReads` | pkg/storage/chunked.go:385-428 | a Get or Delete that returns a release returns exactly the release of an index that was stored under its key while the call ran, never a mix |
| `Interleaving.ListedReadsAreWhole` | pkg/storage/chunked.go:302-318 | a release that List or Query decodes, while other calls go on, is exactly the release of the index as it was listed |
| `Interleaving.ListingIsDecodedWhole` | pkg/storage/chunked.go:302-318 | what List or Query decodes amid other calls is, for each index of its listing, the release that was stored at the moment of the listing |
| `SingleCall.RunKeepsStore` | pkg/storage/chunked.go:62-272 | a call that stops anywhere leaves a well-formed store |
| `SingleCall.RunFrames` | pkg/storage/chunked.go:226-268 | no request of a call touches a Secret that belongs to another key |
| `SingleCall.CallsDoNotDisturbOtherKeys` | pkg/storage/chunked.go:62-296 | no call changes what a read of another key returns, even if its argument is the name of a chunk |
| `SingleCall.RunKeepsOldOrNew` | pkg/storage/chunked.go:215-255 | wherever a call stops, the index under its key is the old one or one of the release it writes |
| `SingleCall.GetRunFaithful` | pkg/storage/chunked.go:287-296 | a Get works from the index that is stored |
| `SingleCall.InterruptedCallLeavesOldOrNew` | pkg/storage/chunked.go:215-255 | after a call that stopped anywhere, a Get of its key yields the old release, the new one or an error |
| `Lifetime.CreatedAtIsKept` | pkg/storage/chunked.go:238-242 | in every interleaving in which no Update is overtaken, an index that was there at any earlier state has the createdAt label it had then |
| `Lifetime.LabelsChangeIff` | pkg/storage/chunked.go:238-242 | in any interleaving the labels are kept from each state to the next if and only if no Update replaces an index whose label is not the one it has read |
| `Lifetime.StaleOnlyIfOvertaken` | pkg/storage/chunked.go:219-242 | such a replacement is only made by an Update whose key was deleted and created again after the Update had read the index |
| `Overtaking.OvertakenUpdateWritesOldLabel` | pkg/storage/chunked.go:219-242 | for every release of one chunk, an Update that is overtaken by a Delete and a Create succeeds, as they do, and leaves the new index with the old label |
| `Overlap.OtherKeysReadTheSame` | pkg/storage/chunked.go:62-296 | however calls on other keys overlap, fail or die, a key that none of them writes or deletes reads the same |
| `Overlap.GetAmidOtherKeys` | pkg/storage/chunked.go:287-296 | a Get that runs amid such calls returns what the store held of its key at the start, or reports a failed read |
| `Overlap.ReadsAreRegular` | pkg/storage/chunked.go:204-296 | in every interleaving a Get or Delete that returns a release returns the one its key held when the call began, or one that a call wrote under the key while it ran |
| `Overlap.IndexIsAccounted` | pkg/storage/chunked.go:62-272 | in every state of every interleaving the index under a key is the first one or one of a release that a call on that key was asked to write |
| `Overlap.OnlyOldOrWritten` | pkg/storage/chunked.go:62-296 | in every interleaving a read that returns a release returns the one from the start or one that a call was asked to write under the key |
| `Results.CreateResult` | pkg/storage/chunked.go:62-90 | Create returns nil exactly with the index and all chunks stored under fresh names, and reports exists only for a stored key and without a change |
| `Results.UpdateResult` | pkg/storage/chunked.go:215-255 | Update returns nil exactly with the old chunks gone, the index replaced and all new chunks stored |
| `Results.DeleteRun` | pkg/storage/chunked.go:257-272 | Delete returns the release it read and removes everything of the key, or fails on a key that cannot be read |
| `Refinement.StoredReadsBack` | pkg/storage/chunked.go:385-443 | a completely stored release within the read limit is read back, with everything but its system labels; beyond the limit it is an error |
| `Refinement.LimitsInBytes` | pkg/storage/chunked.go:140-142 | the limits on the number of chunks are limits on the length of the encoding: that many times the chunk size |
| `Refinement.CreateRefines` | pkg/storage/chunked.go:62-90 | a successful Create adds the key to the map and keeps every other release readable |
| `Refinement.CreatedLabels` | pkg/storage/chunked.go:71-88 | all labels of the index and of the chunks that a successful Create stores, the creation time among them |
| `Refinement.UpdatedLabels` | pkg/storage/chunked.go:232-254 | all labels after a successful Update: the index keeps its creation time and gets the time of the change, the new chunks carry no time |
| `Refinement.UpdateHeals` | pkg/storage/chunked.go:215-255 | after a successful Update, from whatever damage, the chunks labelled with the key are exactly those the index lists, each with its data, and uid and createdAt are kept |
| `Refinement.UpdateRefines` | pkg/storage/chunked.go:215-255 | a successful Update changes the map at its key only |
| `Refinement.DeleteRefines` | pkg/storage/chunked.go:257-272 | a successful Delete removes its key from the map and nothing else |
| `Refinement.CallRefinesMap` | pkg/storage/chunked.go:62-296 | every conclusive result of a call is the answer of a plain map of releases |
| `Refinement.SessionRefinesMap` | pkg/storage/chunked.go:62-296 | the same over every sequence of calls |
| `Refinement.NothingToCollect` | pkg/storage/chunked.go:185-194 | every chunk of a healthy store is owned by an index that exists, so the garbage collector takes nothing |
| `Success.CreateSucceedsIff` | pkg/storage/chunked.go:62-90 | without faults Create of a free key succeeds, on any store, if and only if the release can be encoded, is not too large, its further pieces have different hashes, and no Secret has the name of one of them |
| `Success.HealthyCreateSucceedsIff` | pkg/storage/chunked.go:62-90 | on a healthy store the last condition is always met |
| `Success.UpdateSucceedsIff` | pkg/storage/chunked.go:215-255 | without faults Update succeeds under the same condition, whatever the state of the key |
| `Success.DeleteSucceedsIff` | pkg/storage/chunked.go:257-272 | without faults Delete answers what a read of the key answers |
| `Success.EqualPiecesCannotBeStored` | pkg/storage/chunked.go:82-88 | on every healthy store, a release with two equal further pieces cannot be created, and its half-written index stays |
| `Success.OneByteChunksCannotHoldGzip` | pkg/storage/chunked.go:111-138 | with chunks of one byte this is every release whose gzip stream carries no modification time |
| `Driver.ChunkedSecrets.CutIntoChunks` | pkg/storage/chunked.go:126-138 | the loop ends and cuts the data into the named pieces |
| `Driver.ChunkedSecrets.EncodeReleaseAsChunks` | pkg/storage/chunked.go:111-145 | the write is refused exactly if the release cannot be encoded or has more chunks than a positive maximum |
| `Driver.ChunkedSecrets.Create` | pkg/storage/chunked.go:62-90 | the method follows the process, request by request, and its result is that of `Results.CreateResult` |
| `Driver.ChunkedSecrets.Update` | pkg/storage/chunked.go:215-255 | the same for Update |
| `Driver.ChunkedSecrets.Get` | pkg/storage/chunked.go:287-296 | the same for Get: what the store holds, or an error if a request failed |
| `Driver.ChunkedSecrets.Delete` | pkg/storage/chunked.go:257-272 | the same for Delete |
| `Driver.ChunkedSecrets.ReadChunks` | pkg/storage/chunked.go:412-438 | the loop over the chunks ends with the decoding of their concatenation, or earlier with the same value |
| `Driver.ChunkedSecrets.List` | pkg/storage/chunked.go:298-320 | List returns the listed releases that pass the filter, with the labels of their index, and fails as soon as one cannot be read |
| `Driver.ChunkedSecrets.TranslateOwner` | pkg/storage/chunked.go:322-329 | only the query owner=helm is changed, to the driver's own owner |
| `Driver.ChunkedSecrets.SplitQuery` | pkg/storage/chunked.go:337-345 | every query label goes to the server or to the second pass, by whether it is a system label |
| `Driver.ChunkedSecrets.Query` | pkg/storage/chunked.go:322-379 | Query answers the two-pass selection of a listing of the server |
| `Querying.QueryEqualsFilter` | pkg/storage/chunked.go:333-378 | on every well-formed store, half-written keys included, the two passes return exactly the releases that can be read and whose system and user labels together match the query, each once, and not-found means that there are none |
| `Querying.ListEqualsFilter` | pkg/storage/chunked.go:298-320 | List returns exactly the readable releases that pass the filter with the labels of their index, and without faults it succeeds exactly if every index can be read |
| `MapQueries.QueryOfMap` | pkg/storage/chunked.go:322-379 | on a healthy store a Query that answers returns exactly the releases whose name, status, version, key and own labels are those asked for, each once, where owner=helm means the driver's own |
| `MapQueries.HistoryLookup` | pkg/storage/chunked.go:322-379 | what Helm gets when it looks up the history of a name is exactly the stored releases with that name |
| `MapQueries.ListOfMap` | pkg/storage/chunked.go:298-320 | on a healthy store List returns exactly the releases that pass the filter, each once, unchanged but for the labels, which are those of the index |
| `MapQueries.LabelledTells` | pkg/storage/chunked.go:314-315 | these labels tell the name, status, version and key of the release |
| `Listing.ReadableIsIndexed` | pkg/storage/chunked.go:385-443 | whatever is half-written, an index that can be read is read as the release it belongs to |
| `Listing.QueryIsOfOneMoment` | pkg/storage/chunked.go:333-378 | amid other calls, a Query that decodes its whole listing returns exactly the matching releases, each once, of the indices stored at the moment of the listing |
| `Listing.ListIsOfOneMoment` | pkg/storage/chunked.go:298-320 | the same for List and its filter |
| `Querying.QueryAnswersIff` | pkg/storage/chunked.go:361-366 | without faults Query answers exactly if every index whose system labels match can be read, whatever else is in the store |
| `MapQueries.QueryOfMapAnswersIff` | pkg/storage/chunked.go:361-366 | on a healthy store Query answers without faults exactly if every release that meets the requirements on system labels is small enough to be read |
| `Conditions.SetEffect` | pkg/internal/status/conditions.go:135-152 | SetCondition keeps types unique and all other entries in place, and reports no change exactly if the list is the same as before, transition times included |
| `Conditions.HistoryOfConditions` | pkg/internal/status/conditions.go:135-152 | after any history of calls on any set every type shows its latest content and the time of the latest call that added it or changed its status, and a type that was not set is as it was |
| `Conditions.TransitionTimesArePast` | pkg/internal/status/conditions.go:135-152 | with a clock that does not go back, a transition time is the one from the start or lies between the first and the last call |
| `Conditions.SortedOrdersAll` | pkg/internal/status/conditions.go:185-191 | the written form has the same conditions ordered by type |
| `Conditions.BeforeIff` | pkg/internal/status/conditions.go:185-191 | the order is that of strings: the first difference decides |
| `Conditions.SortedFormIsUnique` | pkg/internal/status/conditions.go:185-191 | any sort gives the same list, because types are unique |
| `Conditions.LookupIgnoresOrder` | pkg/internal/status/conditions.go:157-164 | what is found for a type does not depend on the order |
| `Conditions.ConditionSet.SetCondition` | pkg/internal/status/conditions.go:135-152 | the in-place update is that of the specification function |
| `Conditions.ConditionSet.RemoveCondition` | pkg/internal/status/conditions.go:170-181 | the first entry of the type is cut out, or nothing happens and the result says so |
| `Conditions.ConditionSet.GetCondition` | pkg/internal/status/conditions.go:157-164 | the first condition of the type is returned, or none |
| `Conditions.ConditionSet.SortForWriting` | pkg/internal/status/conditions.go:185-191 | the list is ordered by type in place and loses nothing |
| `StatusEdits.LastEditWins` | pkg/reconciler/internal/updater/updater.go:87-91 | for each condition type the last queued edit decides, and a type without an edit stays exactly as it was |
| `StatusEdits.LastReleaseWins` | pkg/reconciler/internal/updater/updater.go:149-166 | the last edit of the recorded release decides |
| `StatusEdits.WriteSkippedIff` | pkg/reconciler/internal/updater/updater.go:88-96 | the write is skipped exactly if every edit already holds, and then the folded status equals the old one, timestamps included |
| `Outcomes.FailingAgainMovesTransitionTime` | pkg/reconciler/reconciler.go:698-711 | after a failed install, upgrade or repair on a status that already shows Irreconcilable, the condition is True with a new transition time, and the write is not skipped |
| `StatusEdits.FoldKeepsStatusOk` | pkg/reconciler/internal/updater/updater.go:149-166 | edits that treat Deployed and the recorded release together keep the status consistent |
| `StatusEdits.WrittenKeepsContent` | pkg/internal/status/conditions.go:185-191 | what is written is ordered by type, has the same conditions and the same recorded release, and changes nothing a reader can look up |
| `Outcomes.OutcomeTable` | pkg/reconciler/reconciler.go:618-739 | for every outcome and every prior status, the queued edits write that outcome's row of condition values and recorded release |
| `Outcomes.DecisiveOutcomesForgetThePast` | pkg/reconciler/reconciler.go:624-697 | outcomes that set all five conditions and the release leave the same status whatever it was before |
| `Outcomes.OtherOutcomesRemember` | pkg/reconciler/reconciler.go:663-669 | every other outcome depends on the prior status, for instance when the release is not found and an old record stays |
| `Outcomes.EveryOutcomeKeepsStatusOk` | pkg/reconciler/reconciler.go:618-739 | every way to end keeps Deployed=True together with a recorded release and Deployed=Unknown without |
| `Outcomes.UninstallKeepsStatusOk` | pkg/reconciler/reconciler.go:943-966 | so does the second updater, after success and after failure |
| `Outcomes.UninstallTable` | pkg/reconciler/reconciler.go:943-966 | what the second updater writes over any status: after success Deployed is False and the record gone, after failure the error is told in two conditions and the rest is as it was |
| `Cluster.RunStaysOk` | pkg/reconciler/reconciler.go:598-608 | what every step keeps holds after every step of a run (the steps are those of `Reconciler.Reconciler.Run`) |
| `Cluster.FinalizerLostOnlyAfterUninstall` | pkg/reconciler/reconciler.go:935-966 | a run that loses the finalizer has a step that drops it from a resource being deleted, with no release recorded, after an uninstall of that resource that succeeded or found nothing and with nothing done to the release in between |
| `Cluster.OperatorNeverWritesSpec` | pkg/reconciler/reconciler.go:742-756 | steps of the operator change neither annotations nor spec on the server, and create or revive nothing |
| `Server.MetaWriteIsGood` | pkg/reconciler/reconciler.go:602-608 | a write of the object with a current version keeps the rules if it keeps the finalizer, or if the resource is being deleted, no release is recorded and an uninstall of it is logged |
| `Updater.Updater.RunStatusFuncs` | pkg/reconciler/internal/updater/updater.go:87-91 | all queued functions run in order and the flag tells whether any reported a change |
| `Updater.Updater.WriteStatus` | pkg/reconciler/internal/updater/updater.go:63-78 | the write is tried at most five times, again only after an error that is neither a conflict nor not-found, and given up only after the fifth; no answer changes anything but the status |
| `Updater.RetryRule` | pkg/reconciler/internal/updater/updater.go:63-78 | there are one to five tries, every try but the last got an error that is neither a conflict nor not-found, and only after five tries such an error is given up |
| `Updater.Updater.WriteObject` | pkg/reconciler/internal/updater/updater.go:114-119 | the object is written under the same rule; the finalizers of the copy are then those on the server, and the rules of the log are kept if the copy keeps the finalizer or may give it up |
| `Updater.Updater.Apply` | pkg/reconciler/internal/updater/updater.go:80-122 | canceled updates touch nothing; an unchanged status is not written; the object is written only after a needed status write succeeded; after success a finalizer whose removal was queued is gone from the server; the rules of the log are kept if the queues are safe to apply |
| `Updater.ObjectEditsKeepTheRest` | pkg/reconciler/internal/updater/updater.go:124-132 | removing finalizers changes nothing else of the object |
| `Updater.FinalizersLeft` | pkg/reconciler/internal/updater/updater.go:124-132 | after a queue exactly those finalizers are left whose removal was not queued |
| `Reconciler.Reconciler.GetValues` | pkg/reconciler/reconciler.go:742-756 | overrides change the spec of the in-memory copy only |
| `Reconciler.Reconciler.GetReleaseState` | pkg/reconciler/reconciler.go:803-840 | an answer says install exactly if there is no release, and unchanged exactly if the latest revision is deployed with the rendered manifest, and leaves the history alone, whoever else acts; undisturbed, there is an answer exactly if there is no release or Helm agrees to upgrade it |
| `Reconciler.Reconciler.DoInstall` | pkg/reconciler/reconciler.go:842-867 | after success the history is the one new revision with the rendered manifest; after failure both conditions of the failure are queued |
| `Reconciler.Reconciler.DoUpgrade` | pkg/reconciler/reconciler.go:869-906 | after success the new revision is the latest and earlier ones are superseded; after failure both conditions are queued, but nothing if the current release cannot be read |
| `Reconciler.Reconciler.DoReconcile` | pkg/reconciler/reconciler.go:915-933 | ReleaseFailed is cleared before the repair is tried, and a failed repair is queued after it |
| `Reconciler.Reconciler.DoUninstall` | pkg/reconciler/reconciler.go:935-967 | the removal of the finalizer is queued exactly if the uninstall of this resource succeeded or found nothing, and then no release is recorded |
| `Reconciler.Reconciler.WaitForDeletion` | internal/sdk/controllerutil/controllerutil.go:44-57 | success means that the resource is gone |
| `Reconciler.Reconciler.HandleDeletion` | pkg/reconciler/reconciler.go:767-801 | every step keeps the rules; success means that the resource is gone; undisturbed, a resource that waits only for the operator goes and its release with it |
| `Reconciler.Reconciler.Act` | pkg/reconciler/reconciler.go:706-725 | the state decides between install, upgrade and repair, and the queue is that of the result |
| `Reconciler.Reconciler.Proceed` | pkg/reconciler/reconciler.go:618-739 | at every end of the body the queue holds exactly the edits of the outcome, and updates are canceled exactly after a completed deletion |
| `Reconciler.Reconciler.Deploy` | pkg/reconciler/reconciler.go:679-739 | exactly a success brings the history to what the spec asks for and reports its latest revision; every other end queues its own edits |
| `Reconciler.HelmAfterDelivers` | pkg/reconciler/reconciler.go:803-906 | what the spec asks for, in full: the latest revision is deployed with the manifest rendered for the spec after overrides; the history is unchanged exactly if that was so before, and otherwise has one new revision on top, with the next number, and the deployed one below is superseded |
| `Reconciler.Reconciler.Conclude` | pkg/reconciler/reconciler.go:610-616 | the deferred update writes the outcome's row over the status of the copy, or skips the write because that status shows every edit already, and turns a good outcome into an error exactly if the write is lost and the resource is not gone |
| `Reconciler.Reconciler.Hold` | pkg/reconciler/reconciler.go:598-608 | a resource that is not being deleted is held by the finalizer before anything else happens |
| `Reconciler.Reconciler.Reconcile` | pkg/reconciler/reconciler.go:583-740 | every step keeps the rules of the log; unless the resource is being deleted, a written status is the outcome's row over the status that was read, and a skipped write means that the status that was read shows every edit; an error is returned exactly for a bad outcome or a lost write; a success has brought the release to what the spec that was read asks for; undisturbed, the world after it is the settled one if Helm agrees to touch the release, and otherwise the reconciliation fails with the release left alone |
| `Reconciler.Reconciler.Run` | pkg/reconciler/reconciler.go:583-740 | after every single step of any number of reconciliations with crashes, restarts and other clients, finalizer safety and status consistency hold, every step of the operator leaves the finalizers of others alone and lets no resource go that has one, and every step that drops the finalizer comes after an uninstall |
| `Convergence.HelmSettles` | pkg/reconciler/reconciler.go:803-840 | after one pass the latest manifest is the rendered one and the release is classified as unchanged |
| `Convergence.SuccessRepeats` | pkg/reconciler/reconciler.go:733-737 | after a success everything that the next success queues already holds |
| `Convergence.Converges` | pkg/reconciler/reconciler.go:688-739 | from any live, unpaused resource one undisturbed reconciliation makes the latest revision a deployed one with the rendered manifest, with a new revision exactly if it was not; the next changes neither history nor status nor version |
| `Convergence.RefusedStaysRefused` | pkg/reconciler/reconciler.go:688-697 | while Helm refuses to touch the release, an undisturbed reconciliation leaves history and spec as they are and reports that the state is not known, and so does every later one |
| `Convergence.SettledStatus` | pkg/reconciler/reconciler.go:1076-1090 | the settled status says Deployed for the latest revision and records it |
| `ActionClient.RefusalStands` | pkg/client/actionclient.go:286-291 | once an option has refused, its error is the result whatever options follow |
| `ActionClient.SettingCounts` | pkg/client/actionclient.go:286-291 | what one option sets and the later ones leave alone is so in the configured action |
| `ActionClient.DefaultsCount` | pkg/client/actionclient.go:286-291 | what the default options have set stays, unless the options of the call change it |
| `ActionClient.OptionsForStateLookup` | pkg/reconciler/reconciler.go:813-829 | the history limit and the dry run of a state lookup both count; without options an action is no dry run |
| `ActionClient.LeadsToRoot` | pkg/client/actionclient.go:277-279 | an error counts as not-found exactly if unwrapping it ends there |
| `ActionClient.RollbackRestoresIff` | pkg/client/actionclient.go:293-311 | a rollback after a failed upgrade restores the manifest exactly if the failed revision had been recorded or the revision below has the same manifest |
| `ActionClient.RecordedTarget` | pkg/client/actionclient.go:302-307 | for a recorded failure the rollback goes to the revision from before |
| `ActionClient.FailedDryRunUndoesRelease` | pkg/client/actionclient.go:293-311 | a failed dry run that hands back a revision brings the manifest before the latest one back |
| `ActionClient.ActionClient.Configure` | pkg/client/actionclient.go:286-291 | the loop applies the options, which are arbitrary functions, until one refuses, and gives the action or that refusal |
| `ActionClient.ActionClient.Install` | pkg/client/actionclient.go:248-283 | after a failed install whose clean-up succeeds or finds nothing, the history is as it was exactly if Helm handed back no revision or there was no release before; a failed dry run that hands one back removes the release; otherwise the error still leads to the original cause |
| `ActionClient.ActionClient.Upgrade` | pkg/client/actionclient.go:285-315 | a failed upgrade whose rollback succeeds has the earlier manifest as the latest if the failure had been recorded; a dry run leaves the history alone exactly if no rollback follows it, and otherwise the rollback undoes the latest release; errors lead to the original cause |
| `JsonPatch.CreateJSONMergePatch` | pkg/client/actionclient.go:428-454 | the loop keeps all operations but removals and additions of null, in order, and there is no patch if none is left |
| `JsonPatch.PatchRepairs` | pkg/client/actionclient.go:428-441 | applying the patch gives the existing object overlaid with the expected one, in whatever order keys are visited |
| `JsonPatch.OverlayKeepsExtras` | pkg/client/actionclient.go:434-438 | everything outside the expected tree is kept |
| `JsonPatch.OverlayShowsExpected` | pkg/client/actionclient.go:434-438 | every value the chart asks for is there |
| `JsonPatch.PatchIsEmptyIff` | pkg/client/actionclient.go:446-451 | there is no patch exactly if the existing object is its own overlay |
| `JsonPatch.RepairedNeedsNoPatch` | pkg/client/actionclient.go:446-451 | a repaired object needs no second patch |
| `DriftRepair.ManifestHolds` | pkg/client/actionclient.go:341-380 | after a complete pass every object of the manifest exists and shows its values, and nothing that others added is lost |
| `DriftRepair.SecondPassFindsNothing` | pkg/client/actionclient.go:341-380 | after a complete pass every object is in place |
| `DriftRepair.ObjectStore.Reconcile` | pkg/client/actionclient.go:341-380 | the pass repairs a prefix of the manifest, with or without the object whose request failed, all of it if it succeeds, and writes nothing if every object is in place |

## Left out

- Driver.ChunkedSecrets.List: the method itself runs on a store that nobody changes meanwhile; its answer amid other
  calls is `Listing.ListIsOfOneMoment`, on processes that read the listed indices in any order.
- Driver.ChunkedSecrets.Query: the same, with `Listing.QueryIsOfOneMoment`.
- Reconciler.Reconciler.Run: covers one custom resource with one worker; reads return the current object, so a stale
  cache is not modelled.
- Updater.Updater.Apply: all conditions of one call get the same clock reading, and the status is a subresource.
- ActionClient.ActionClient.Install: the option to replace a failed or uninstalled release under its name is not
  modelled.
- ActionClient.ActionClient.Upgrade: pruning of old revisions and the rollback options other than the target are not
  modelled.
- JsonPatch.PatchRepairs: the difference of two documents, which a library computes, is modelled as key-wise additions,
  removals and replacements, with a replacement where the types differ. Objects only; dropping removals shifts
  positions inside arrays, so arrays are excluded.
- DriftRepair.ObjectStore.Reconcile: objects of built-in types are patched by a strategic merge of another library, and
  manifests with the same object twice are not covered by the lemmas.
- A release without `Info` makes the source panic when labels are computed; such releases are not modelled.
- Gzip, JSON, the pipe between fetching and decoding, the mutex of the hasher, logging, contexts and timeouts.
- A listing returns its Secrets in arbitrary order, and a successful deletion of a collection is one step; a partial one
  is a failure or a loss of Secrets.
- Several owners that share a namespace; Update and Delete of the source do not separate their index Secrets.
- Validation of label values and Secret sizes by the API server, which is among the arbitrary failures.
- Helm's own install, upgrade, rollback and uninstall, rendering, value coalescing, the keep-history option and hooks.
- Annotations that set Helm options, pre- and post-hooks, events, owner references and watches of dependent resources.
- Command line, flags, watches file, metrics and manager set-up.
