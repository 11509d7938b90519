# Headscale operator: a verified model

The Headscale operator runs Headscale servers on Kubernetes. This project models its four cores that keep state
over many steps, and proves what they promise over all inputs and all runs.

- **Policy merge** (`Policy.dfy`, on `Strings.dfy`). `buildPolicyDocument` folds any number of
  HeadscaleAutoApprovers into one policy document. Its nested loops are methods over maps and sequences, proved
  against a description of the document by sets; the laws of the merge are lemmas about that description.
- **Auto-approver controller** (`AutoApprover*.dfy`). User edits, two watches that lag behind the API server,
  filtered events, a deduplicating queue, and one worker whose reconcile is cut into read, list, push and status
  steps, each of which may fail, writes and pushes also after taking effect. The main result: when a Headscale is
  quiet, its active policy is the merge of its present specs. Every policy that was ever set comes from what one
  reconcile read of a Headscale in database mode (`AutoApproverReads.dfy`), and finalizers do what they are for
  (`AutoApproverFinalizers.dfy`).
- **API key rotation** (`ApiKeyProtocol.dfy`, `Sidecar.dfy`). The protocol is a transition system with any number of
  managers, one per replica, interleaved call by call and crashing anywhere. The sidecar is a class whose methods
  are the calls in their order, on a clock that every call advances; each call is a step of the protocol.
- **PreAuthKey and User lifecycles** (`PreAuthKey*.dfy`, `HeadscaleUser*.dfy`, on `Calls.dfy`). Each reconciler is a
  class with the object in hand as a field. The API server and Headscale are a value that holds every version of
  every object. A plan says, for each call, what others do before it, whether it fails, whether it fails after
  having taken effect, and how old the version is that a read returns; past the end of the plan the controller has
  crashed. The invariant is kept by every call and everything beside it. The class keeps the list of its calls as a
  ghost, and a lifetime is a trace: states between which lies what others did or such a list of calls. Each call is
  tied to the answers before it, and the end of the run to the last of them. What holds
  over whole lifetimes is proved of all traces, and `Live` shows that what the controller does is one.
- **Config and ports** (`Config.dfy`, `Ports.dfy`, `Decimal.dfy`). The view the operator takes of `spec.config`, the
  config it renders, and the ports it reads from addresses.

## What does not hold, and exactly when it does

- *Agreement of the active policy* needs finalizers. An approver deleted before its finalizer is set leaves entries
  that no live approver asks for, until a sibling is reconciled (`AgreementCanFail`, `SiblingRepairs`).
  `DeletionWithoutFinalizer` follows every run of watches and worker after such a deletion: the policy stays, so it
  agrees again exactly if the entries are those of others too (`DeletionIsHarmlessIfRedundant`).
- *The Secret holds the recorded preauth key* unless some run wrote the Secret while a KeyID was recorded
  (`SecretHoldsUnlessOverwritten`, both ways). Runs that start from the present never do; one that starts from a
  version older than the KeyID does (`LateReadSplitsSecretAndKeyId`), and nothing the controller does repairs it (`OverwrittenForEver`).
- *A resource that is gone took its recorded preauth key along* if and only if the run that let it go saw the
  Headscale or the key was gone before (`Reconcile`, `GoneTookItsKey`). With the Headscale removed first, an
  undisturbed run lets the resource go and leaves its key in the table (`AwayHeadscaleLeavesKey`).
- *A HeadscaleUser gets its user's id* within two undisturbed runs if and only if it is not stranded, that is, unless
  a user of its name exists that it does not have on record (`TwoRunsGiveTheUser`). While nobody else deletes users,
  it is stranded exactly if some run made the user and ended without its id on record (`StrandedExactly`): because it
  crashed, because a reply was lost, or because the status update failed or was refused. Then every later creation is
  refused, the check by name passes, and the deletion leaves the user behind (`StrandedForEver`,
  `CrashAfterCreationStrandsForever`, `LateReadLeaksAUser`).
- *Ready means served* for preauth keys: over any lifetime, what is ready and not being deleted has its KeyID, its key
  in Headscale and, unless a late run wrote it, in the Secret (`ReadyHasItsKey`). A HeadscaleUser need not have a user:
  a run that finds it gone clears the UserID and leaves the condition as it was (`ClearingKeepsTheCondition`).
- *Parsing the rendered config gives back the view* if and only if, in the config, server URL and policy mode are
  those of their greatest spellings in key order, and no spelling of a wiring field that comes after the field's own
  name says otherwise (`ViewIsFixedExactly`): Go matches keys of a struct up to case, but a map keeps every spelling.
  With each field spelled at most once the law holds (`ViewIsFixed`); with two spellings in the wrong order it fails
  (`TwoSpellingsBreakTheView`). ASCII spellings of wiring fields never come after the name.
- `cmd/apikey-manager/README.md:84-85` describes an hourly check and `>=`; the code sleeps until the rotation is due
  (an hour only when the Secret cannot be read) and compares with a strict `After`. The model follows the code.

## Model

| member | source | states |
|---|---|---|
| Strings.SortedCompactedIsCanonical | internal/controller/headscaleautoapprover_controller.go:423-426 | sorting and compacting a list gives the one strictly increasing list of its elements, whatever its order and repetitions |
| Strings.SortedDistinctIsCanonical | internal/controller/headscaleautoapprover_controller.go:459-472 | sorting alone does so for lists without duplicates |
| Policy.AppendUnseen | internal/controller/headscaleautoapprover_controller.go:436-447 | the `seen` loop adds exactly the new tags and keeps the list free of duplicates |
| Policy.MergeRoute | internal/controller/headscaleautoapprover_controller.go:434-449 | one more route turns the merge of the routes so far into the merge of those and this one |
| Policy.MergeApprovers | internal/controller/headscaleautoapprover_controller.go:431-453 | the nested loops collect, per CIDR and without duplicates, the union of the tags of all routes, and the set of all exit tags |
| Policy.SortRoutes | internal/controller/headscaleautoapprover_controller.go:457-463 | every CIDR's list becomes the strictly increasing list of its tags, `null` if there are none, in whatever order the map is visited |
| Policy.CanonicalOwners | internal/controller/headscaleautoapprover_controller.go:418-429 | every tag's owners become the strictly increasing list of its principals |
| Policy.Collect | internal/controller/headscaleautoapprover_controller.go:466-470 | the exit tags in a list without duplicates, in whatever order the map yields them |
| Policy.BuildSection | internal/controller/headscaleautoapprover_controller.go:455-474 | routes and exit nodes are present exactly when there are some |
| Policy.BuildPolicyDocument | internal/controller/headscaleautoapprover_controller.go:405-481 | the loops compute the document that the sets describe, or fail when there is none |
| Policy.MergeExactness | internal/controller/headscaleautoapprover_controller.go:431-474 | a CIDR is a key exactly when some approver names it, a tag stands under it exactly when some approver lists it there, likewise for exit nodes, and all lists are strictly increasing |
| Policy.EntriesExactness | internal/controller/headscaleautoapprover_controller.go:431-474 | the same of the whole document, for every list of approvers, none with entries included, over a base whose section the operator owns |
| Policy.InlineSectionStandsIn | internal/controller/headscaleautoapprover_controller.go:471-474 | it does not exactly if no approver has entries and the inline base has a section, and then that section passes through as it is |
| Policy.OwnersExactness | internal/controller/headscaleautoapprover_controller.go:418-429 | a tag is a key exactly if the base has it, with the strictly increasing list of exactly its principals, `null` if there are none |
| Policy.OwnersAreCanonical | internal/controller/headscaleautoapprover_controller.go:418-429 | two bases that differ in their owners alone give the same document exactly if every tag has the same set of owners, whatever order and repetition |
| Policy.DocumentIsCanonical | internal/controller/headscaleautoapprover_controller.go:421-474 | two lists of approvers, over a base whose section the operator owns, give the same document if and only if they have the same entries, whatever order and repetition |
| Policy.MergeIsUnion | internal/controller/headscaleautoapprover_controller.go:431-453 | CIDRs, tags and exit tags of the document of a concatenation are those of the documents of its parts together |
| Policy.DroppingRemovesOnlyItsOwn | internal/controller/headscaleautoapprover_controller.go:143-150 | without an approver, be it the last one, a tag leaves a CIDR, or the exit tags, if and only if no remaining approver lists it there |
| Policy.OtherKeysPassThrough | internal/controller/headscaleautoapprover_controller.go:365-401 | said of the input alone: besides the keys the operator has values for, the document has exactly the keys of the inline text, each with its value there; without a text it has none |
| Policy.FailsExactly | internal/controller/headscaleautoapprover_controller.go:373-401 | there is no document exactly when there is an inline text that is no JSON object |
| Policy.SectionShape | internal/controller/headscaleautoapprover_controller.go:455-474 | the section has `routes` exactly if somebody names a CIDR, `exitNode` exactly if somebody lists a tag, and no other key; a CIDR has `null` exactly if nobody lists a tag for it |
| Policy.RebuildIsIdempotent | internal/controller/headscaleautoapprover_controller.go:405-481 | a pushed document taken as the inline base is pushed again unchanged |
| AutoApproverLog.AcceptedMeansCaughtUp | internal/controller/headscaleautoapprover_controller.go:173-188 | an update with a cached object is accepted only if the cache has seen every write of that object |
| AutoApproverSafety.StepKeepsInv | internal/controller/headscaleautoapprover_controller.go:57-178 | every step of users, watches, queue and worker keeps a reason why each policy is, or will be, right |
| AutoApproverSafety.RunKeepsInv | internal/controller/headscaleautoapprover_controller.go:57-178 | so does every run |
| AutoApproverTheorems.QuiescentAgreement | internal/controller/headscaleautoapprover_controller.go:57-138 | over all runs: with nothing queued or in flight for a database-mode Headscale with a live approver, the caches up to date on it, whatever else is undelivered, and no removal unaccounted for, its active policy is the merge of its present base and live approvers |
| AutoApproverTheorems.PendingNoNewsIsUpToDate | internal/controller/headscaleautoapprover_controller.go:317-363 | the caches are up to date on a Headscale when all that is undelivered are events of others and writes of finalizers, statuses and metadata |
| AutoApproverTheorems.CarefulRunsAgree | internal/controller/headscaleautoapprover_controller.go:151-178 | with finalizers set before deletions, and pushes of deletions that succeed, no removal is ever unaccounted for, so agreement needs no proviso |
| AutoApproverTheorems.ActiveEntriesAreTheLiveOnes | internal/controller/headscaleautoapprover_controller.go:250-274 | a tag stands under a CIDR, or as an exit tag, in the quiet active policy exactly when a live approver on the API server puts it there |
| AutoApproverTheorems.ActiveKeepsTheInlineBase | internal/controller/headscaleautoapprover_controller.go:365-401 | and besides the keys the operator has values for, the quiet active policy has exactly the keys of the present inline text, unchanged, and that text is an object or absent |
| AutoApproverTheorems.ActiveOwnersAreTheBases | internal/controller/headscaleautoapprover_controller.go:418-429 | and its tag owners are those of the present Headscale |
| AutoApproverReads.EveryPolicyWasRead | internal/controller/headscaleautoapprover_controller.go:94-137 | over every run, each change of an active policy is the document of a base that the same reconcile read from the cache of a Headscale in database mode, and of the approvers that target it and are not being deleted, listed later in that reconcile |
| AutoApproverReads.OtherModesGetNoPolicy | internal/controller/headscaleautoapprover_controller.go:96-113 | over every run, a Headscale that is never put in database mode has no active policy |
| AutoApproverReads.ApproverNewsIsQueued | internal/controller/headscaleautoapprover_controller.go:324-334 | a delivered event queues its approver exactly if it is new, gone, or of another generation or deletion, and queues nobody else |
| AutoApproverReads.HeadscaleNewsIsQueued | internal/controller/headscaleautoapprover_controller.go:296-315 | a delivered event of a Headscale queues exactly the approvers that target it, if it is new, gone, or of another generation |
| AutoApproverFinalizers.EveryPusherHasItsFinalizer | internal/controller/headscaleautoapprover_controller.go:73-75 | over every run, each change of an active policy is made for an approver of that Headscale with its finalizer set, in a version that the API server has or had |
| AutoApproverFinalizers.OnlyReleasesRemove | internal/controller/headscaleautoapprover_controller.go:157-178 | over every run, an approver with its finalizer leaves the API server only by the worker that holds its present, deleting version |
| AutoApproverFinalizers.ReleaseFollows | internal/controller/headscaleautoapprover_controller.go:161-173 | and the worker gets there only in a deletion, when the Headscale cannot be read, is absent or in another mode, the list or the push failed, or the policy was set to what it had read |
| AutoApproverFinalizers.DeletionIsNotHeldUp | internal/controller/headscaleautoapprover_controller.go:140-178 | however its calls end, a deletion comes to that release by at most three of them, without going back to the queue |
| AutoApproverFinalizers.DrainedLeavesNoDeletion | internal/controller/headscaleautoapprover_controller.go:151-178 | over every run, where everything is drained each approver that was asked to go is gone: a release that failed or was refused is tried again |
| AutoApproverTheorems.SiblingRepairs | internal/controller/headscaleautoapprover_controller.go:143-150 | taking up any live sibling and five steps of the worker that succeed remove stale entries, whatever led to them |
| AutoApproverDeletion.DeletionWithoutFinalizer | internal/controller/headscaleautoapprover_controller.go:157-159 | after an approver is deleted before it has its finalizer, the active policy stays as it was whatever watches and worker do, in any order and with any failures; it agrees again exactly if it would be rendered the same without that approver |
| AutoApproverDeletion.DeletionIsHarmlessIfRedundant | internal/controller/headscaleautoapprover_controller.go:157-159 | which for a base without a section of its own is exactly if the remaining approvers have the same entries |
| AutoApproverTheorems.DeletionComesToRest | internal/controller/headscaleautoapprover_controller.go:157-159 | and watches and worker can come to rest that way |
| AutoApproverTheorems.RedundantEntries | internal/controller/headscaleautoapprover_controller.go:250-274 | the rendered document is the same exactly if the remaining approvers have the same entries |
| AutoApproverTheorems.SiblingCarriesNewcomer | internal/controller/headscaleautoapprover_controller.go:250-274 | a sibling's push carries an approver that has not been reconciled yet |
| AutoApproverTheorems.AgreementCanFail | internal/controller/headscaleautoapprover_controller.go:151-159 | a run that ends quiet with an active policy granting what no live approver asks for |
| AutoApproverDrain.FilteredWrite | internal/controller/headscaleautoapprover_controller.go:317-334 | the controller's own finalizer and status writes cost one filtered event and queue nothing |
| AutoApproverDrain.SmoothStepLowers | internal/controller/headscaleautoapprover_controller.go:317-363 | without user steps, failures and refused updates every step lowers the pair of terminating objects and outstanding work |
| AutoApproverDrain.DrainingStops | internal/controller/headscaleautoapprover_controller.go:317-363 | so no infinite sequence of steps stays free of user steps, failures and refusals |
| AutoApproverDrain.SmoothUntilDrained | internal/controller/headscaleautoapprover_controller.go:57-178 | short of empty logs, empty queue and idle worker there is such a step, or an update is due that will be refused, or a push of a base that does not parse |
| AutoApproverDrain.DrainingEnds | internal/controller/headscaleautoapprover_controller.go:57-178 | with bases that parse, refused updates and their retries included, no infinite sequence stays free of user steps and failures if watches deliver before the worker goes on |
| AutoApproverDrain.SteadyStepNoHigher | internal/controller/headscaleautoapprover_controller.go:317-363 | in whatever order watches and worker move, no step without failure raises what is left to do with retries free of charge, and a write to the log lowers it |
| AutoApproverDrain.FairDrainingEnds | internal/controller/headscaleautoapprover_controller.go:57-178 | so no infinite sequence stays free of user steps and failures if pending events are delivered at some time |
| AutoApproverDrain.PromptUntilDrained | internal/controller/headscaleautoapprover_controller.go:57-178 | and it stops only where everything is drained |
| AutoApproverDrain.Drains | internal/controller/headscaleautoapprover_controller.go:57-178 | so from every such state of every run there is a way to a drained one |
| AutoApproverDrain.DrainedAgrees | internal/controller/headscaleautoapprover_controller.go:57-138 | where everything is drained, every governed Headscale agrees, unless a removal is unaccounted for |
| ApiKeyProtocol.StepKeepsKeyInv | internal/apikey/manager.go:150-196 | every call of every manager keeps new keys unknown to others until written, and expires only keys that have been replaced |
| ApiKeyProtocol.StoredKeyIsNeverATarget | internal/apikey/manager.go:150-196 | over all interleavings of any number of managers, the key in the Secret was never the subject of an expire call |
| ApiKeyProtocol.StepKeepsSecretInv | internal/apikey/secret_manager.go:65-116 | every call keeps the Secret truthful about its key, and keeps created-at once set |
| ApiKeyProtocol.SecretIsSelfConsistent | internal/apikey/secret_manager.go:65-116 | from an absent Secret on, the annotation is the stored key's expiry cut to seconds, that key is unexpired, and created-at stays what it was first |
| ApiKeyProtocol.CreatedAtIsOfTheFirstWrite | internal/apikey/secret_manager.go:65-116 | over all interleavings, created-at is for ever a moment, in whole seconds, between the creation of the first stored key and the write that stored it |
| ApiKeyProtocol.WritesReplaceWhatWasRead | internal/apikey/secret_manager.go:89-116 | a write that changes the Secret replaces the very version its manager looked at: no write of another manager in between is lost |
| ApiKeyProtocol.RunExpiresTargetsOnly | internal/apikey/manager.go:180-192 | over all interleavings no key is lost or gets another expiry, and whatever was expired was the subject of an expire call |
| ApiKeyProtocol.ServedExpiryExpires | pkg/headscale/client.go:125-136 | an expire call that is served expires its target and no other key |
| ApiKeyProtocol.PrefixIsFirstEight | internal/apikey/manager.go:182-184 | keys have the same prefix exactly if they agree in their first eight characters |
| Sidecar.FreshKeyIsNotDue | internal/apikey/secret_manager.go:151-155 | with a second between expiration and buffer, a key is not due at its creation instant |
| Sidecar.NewManager | internal/apikey/manager.go:61-64 | a manager is made exactly if the buffer is shorter than the expiration, with just these two |
| Sidecar.SpanOfRotations | internal/apikey/manager.go:120-123 | n rotations that keep their distance span more than n - 1 times that distance |
| Sidecar.Manager.CreateAPIKey | pkg/headscale/client.go:109-122 | the new key's expiry is the instant before the call plus the expiration; whatever becomes of the reply, the Secret stays |
| Sidecar.Manager.CreateOrUpdateSecret | internal/apikey/secret_manager.go:65-116 | a successful write stores this key with this expiry; one that fails leaves the Secret as it was or, if only its reply is lost, stores just that |
| Sidecar.Manager.ReadOldKey | internal/apikey/manager.go:153-162 | the old key is the one in the Secret if the read is answered and there is one, and otherwise none |
| Sidecar.Manager.ExpireAPIKey | internal/apikey/manager.go:180-192 | exactly this prefix becomes a target of an expire call, and its key is expired if the call is served; the Secret and all other keys stay, whether it works or not |
| Sidecar.Manager.CreateNewAPIKey | internal/apikey/manager.go:130-147 | succeeds only with a new key in the Secret, created during the call |
| Sidecar.Manager.RotateAPIKey | internal/apikey/manager.go:150-196 | likewise; the key that was stored, by its first eight characters, and no other becomes the target of an expire call, and only after the new one is stored; all other keys stay as they are, and with all calls served that one is expired |
| Sidecar.Manager.EnsureAPIKey | internal/apikey/manager.go:100-127 | a key that is due is replaced or the call fails; one that is not due stays; a replacement is later than the due time |
| Sidecar.Manager.CalculateNextRotation | internal/apikey/manager.go:199-215 | the time left until the stored key is due, never negative, or an error when the Secret cannot be read |
| Sidecar.ReasonsGoOn | cmd/apikey-manager/main.go:126-152 | a further round keeps that no round misses a rotation without a call that failed, and that no key lapses but after more than k such rounds in a row |
| Sidecar.Manager.Check | cmd/apikey-manager/main.go:146-150 | a check that succeeds leaves a key that is within reach of its due time; one that leaves a due key in place counts as missed, which it does not if all its calls are served |
| Sidecar.Manager.Iterate | cmd/apikey-manager/main.go:126-152 | one round is a read, a sleep until due or for the hour, and a check; it keeps the clock within the failures' reach, and misses nothing if all its calls are served |
| Sidecar.Manager.Begin | cmd/apikey-manager/main.go:116-121 | the check of the start succeeds if all its calls are served; the key lapses during it only if it was within L of its expiry |
| Sidecar.Manager.Run | cmd/apikey-manager/main.go:116-152 | what the sidecar does is a life: the check of the start, then rounds of the loop, each a run of the protocol; if (k + 2)(1h + L) is less than the buffer, the stored key lapses in no round unless more than k rounds in a row before it missed a due rotation, and at the start only if that comes within L of its expiry; a round whose calls are all served misses none; and the stamps of all keys stored are more than expiration - buffer - 1s apart |
| PreAuthKeyWorld.KeyIdStays | internal/controller/headscalepreauthkey_controller.go:102-127 | once some version has a KeyID, every later version has that KeyID |
| PreAuthKeyWorld.SeenIsRecorded | internal/controller/headscalepreauthkey_controller.go:277-283 | a KeyID seen in any version, however old, is the recorded one, so a late deletion removes the right key |
| PreAuthKeySafety.CommitKeepsInv | internal/controller/headscalepreauthkey_controller.go:315-324 | every permitted write of the resource keeps the invariant |
| PreAuthKeySafety.SecretWriteKeepsInv | internal/controller/headscalepreauthkey_controller.go:437-456 | writing a new key's string to the Secret keeps it, and counts as overwriting if a KeyID is recorded |
| PreAuthKeySafety.MadeKeyKeepsInv | internal/controller/headscalepreauthkey_controller.go:402-412 | a new key has an id that no version records |
| PreAuthKeySafety.ServeKeepsInv | internal/controller/headscalepreauthkey_controller.go:363-542 | every call the controller may make keeps write-once, conservation, departure, agreement and that every key was asked for |
| PreAuthKeySafety.DisturbKeepsInv | internal/controller/headscalepreauthkey_controller.go:561-566 | so does everything users, other controllers and other resources do |
| PreAuthKeySafety.LegitStays | internal/controller/headscalepreauthkey_controller.go:315-360 | what made a call permissible still does when something happens before it is served |
| PreAuthKeySafety.ConditionPatchCarriesNoKeyId | internal/controller/headscalepreauthkey_controller.go:545-558 | the condition patch changes the condition alone, also when the object in hand has an unpersisted KeyID |
| PreAuthKeySafety.StatusUpdateRecords | internal/controller/headscalepreauthkey_controller.go:458-463 | a status update takes effect only on the present version, and then records its KeyID where none was |
| PreAuthKeyCalls.MakeExchanged | internal/controller/headscalepreauthkey_controller.go:402-412 | a creation call makes at most one key, also when its reply is lost |
| PreAuthKeyCalls.OldVersionsTellTheTruth | internal/controller/headscalepreauthkey_controller.go:249-277 | an old version that is being deleted means a deletion, and its KeyID is the recorded one |
| PreAuthKeyCalls.KeyIdParses | internal/controller/headscalepreauthkey_controller.go:278-283 | every recorded KeyID parses, within 64 bits, to the id of the key it was printed from |
| PreAuthKey.GoMeansResolved | internal/controller/headscalepreauthkey_controller.go:156-246 | a key is called for exactly when the spec names one user, or tags alone, and a named HeadscaleUser has a readable id and owns the resource |
| PreAuthKey.HaltsExactly | internal/controller/headscalepreauthkey_controller.go:156-236 | otherwise the run stops, each reason with its retry: for good if the spec has both or neither, after 30 seconds without the HeadscaleUser, after 10 if that has no id, with an error if the id is no decimal below 2^64 |
| PreAuthKey.Reconciler.UpdateStatusCondition | internal/controller/headscalepreauthkey_controller.go:545-558 | whatever happens, keys, Secret and KeyID are as before, the condition is one that the last answer bears out, and the run is to end as the reason calls for, or with an error if the patch failed; undisturbed, the condition is set on the present version |
| PreAuthKey.Reconciler.EnsureFinalizer | internal/controller/headscalepreauthkey_controller.go:315-324 | without an error the object in hand is a true version with the finalizer, otherwise unchanged |
| PreAuthKey.Reconciler.EnsureOwner | internal/controller/headscalepreauthkey_controller.go:329-360 | without an error the HeadscaleUser owns the resource, by one reference added only if none has its UID |
| PreAuthKey.Reconciler.ResolveUserID | internal/controller/headscalepreauthkey_controller.go:156-246 | a user is resolved only for a resource that may have one and is owned by it; undisturbed, the result and the reported reason are those the present calls for |
| PreAuthKey.Reconciler.StoreKey | internal/controller/headscalepreauthkey_controller.go:424-456 | without an error the Secret holds the key; the update of an existing Secret is what was read with the key's string set and nothing else changed |
| PreAuthKey.Reconciler.RecordKeyId | internal/controller/headscalepreauthkey_controller.go:458-463 | without an error this KeyID is recorded; with one, either that or nothing is |
| PreAuthKey.Reconciler.CreatePreAuthKey | internal/controller/headscalepreauthkey_controller.go:363-466 | at most one key is made, with the attributes of the spec, a lifetime exactly if the expiration is above zero; success means it is stored and recorded, in this order; every failure leaves it recorded or an orphan; undisturbed, it fails only for a garbled expiration |
| PreAuthKey.Reconciler.DeletePreAuthKey | internal/controller/headscalepreauthkey_controller.go:469-518 | without an error, or if Headscale knows no such key, that key is gone; no other key made is touched |
| PreAuthKey.Reconciler.DeleteTheSecret | internal/controller/headscalepreauthkey_controller.go:521-542 | undisturbed, the Secret is gone, and its absence is no error |
| PreAuthKey.Reconciler.HandleDeletion | internal/controller/headscalepreauthkey_controller.go:249-312 | a run that finishes leaves the resource gone, and its recorded key gone if and only if it saw the Headscale or the key was gone before; undisturbed, no other key and nothing but the Secret goes; a read or removal that fails ends the run with an error |
| PreAuthKey.Reconciler.Reconcile | internal/controller/headscalepreauthkey_controller.go:47-150 | a run is a chain of legitimate calls that starts with reading the resource; it makes and records at most one key, none once one is recorded; started from the present it overwrites nothing; if it ends a deletion the recorded key is gone if and only if it saw the Headscale or the key was gone before; however its calls end, it makes each for what it was told before, ends as the last of them was answered, and makes no second one if the first read fails; undisturbed it brings about what the present state calls for, case by case |
| PreAuthKeyRuns.Conservation | internal/controller/headscalepreauthkey_controller.go:276-296 | the keys made that Headscale still has are the orphans and, unless it was removed, the recorded key, and they are as they were made |
| PreAuthKeyRuns.OrphansGrow | internal/controller/headscalepreauthkey_controller.go:402-465 | a run adds one orphan if it made a key that it did not get recorded, and otherwise none |
| PreAuthKeyRuns.TraceKeepsInv | internal/controller/headscalepreauthkey_controller.go:47-150 | over any trace the invariant holds at every moment, and there are as many new orphans as runs that made a key and ended without its id on record |
| PreAuthKeyRuns.Live | internal/controller/headscalepreauthkey_controller.go:47-150 | for any events there is a trace from the start state to the result: between each two states lies what others did, or a run of legitimate calls with all that is promised of runs |
| PreAuthKeyRuns.KeysAreAccountedFor | internal/controller/headscalepreauthkey_controller.go:101-127 | over any trace and at every moment of it, as many keys made for the resource are in Headscale as runs were stranded, and the recorded key unless it was removed; and until the deletion it was not |
| PreAuthKeyRuns.KeyIdIsWriteOnce | internal/controller/headscalepreauthkey_controller.go:102-127 | over any trace and at every moment of it, no version has another KeyID than an earlier version |
| PreAuthKeyRuns.GoneTookItsKey | internal/controller/headscalepreauthkey_controller.go:249-312 | over any trace, a resource that is gone took its recorded key along unless its deletion was told that there is no Headscale; with Headscale reads of the present, unless Headscale was away during the deletion |
| PreAuthKeyRuns.EveryKeyWasAskedFor | internal/controller/headscalepreauthkey_controller.go:363-412 | over any trace, every key made has what the spec of some live version without KeyID says: reusable, ephemeral, tags, a lifetime of just its expiration exactly if that is above zero, and its user or that of a HeadscaleUser that owns the resource |
| PreAuthKeyRuns.ReadyHasKeyId | internal/controller/headscalepreauthkey_controller.go:101-148 | over any trace, no version is reported ready without a KeyID |
| PreAuthKeyRuns.ReadyHasItsKey | internal/controller/headscalepreauthkey_controller.go:101-148 | over any trace, while a resource is ready and not being deleted, the key of its KeyID is in Headscale as it was made, for a wish some version grants, and in the Secret if and only if no late run overwrote that |
| PreAuthKeyRuns.AwayHeadscaleLeavesKey | internal/controller/headscalepreauthkey_controller.go:256-268 | over any trace in which a key is made, the Headscale is removed, the resource is deleted and an undisturbed run follows: the resource is gone and its key, as it was made, still in the table |
| PreAuthKeyRuns.SecretHoldsTheRecordedKey | internal/controller/headscalepreauthkey_controller.go:416-463 | over any trace whose runs start from the present, the Secret holds the recorded key at every moment before the deletion |
| PreAuthKeyRuns.SecretHoldsUnlessOverwritten | internal/controller/headscalepreauthkey_controller.go:416-463 | before the deletion, the Secret holds the recorded key if and only if its key was never written while a KeyID was recorded |
| PreAuthKeyRuns.OverwrittenForEver | internal/controller/headscalepreauthkey_controller.go:437-456 | over any trace, once it was, the Secret does not hold the recorded key at any later moment before the deletion |
| PreAuthKeyRuns.LateReadSplitsSecretAndKeyId | internal/controller/headscalepreauthkey_controller.go:102-127 | for every resource that asks for a key there is a trace of two calm runs, the second from the first run's version, that ends with a Secret that does not hold the recorded key |
| HeadscaleUserWorld.RecordedIsOurUser | internal/controller/headscaleuser_controller.go:213-255 | a UserID in any version is that of the one user with the resource's name, or of a user that is gone |
| HeadscaleUserWorld.UserIdStaysWhileUserExists | internal/controller/headscaleuser_controller.go:90-105 | while a user exists, no later version drops or replaces the UserID that names it |
| HeadscaleUserWorld.ServeKeepsInv | internal/controller/headscaleuser_controller.go:160-297 | every call the controller may make keeps identity, and deletes no user but the recorded one of a resource being deleted |
| HeadscaleUserWorld.DisturbKeepsInv | internal/controller/headscaleuser_controller.go:341-347 | so does everything others do, deletions of users included |
| HeadscaleUserWorld.LegitStays | internal/controller/headscaleuser_controller.go:90-105 | what made a call permissible still does when something happens before it is served |
| HeadscaleUserCalls.ConditionPatchCarriesNoUserId | internal/controller/headscaleuser_controller.go:329-339 | the condition patch changes the condition alone, also when the object in hand has an unpersisted UserID |
| HeadscaleUserCalls.LookUpReply | internal/controller/headscaleuser_controller.go:297-327 | a lookup by name that finds none means that the user recorded in the version in hand is gone |
| HeadscaleUserCalls.UserIdParses | internal/controller/headscaleuser_controller.go:258-265 | every recorded UserID parses, within 64 bits, to the id it was printed from |
| HeadscaleUser.Reconciler.CreateTheUser | internal/controller/headscaleuser_controller.go:213-255 | success means the user is made as specified and recorded with the creation time that Headscale reports; while a user of that name exists and stays, it fails and records nothing |
| HeadscaleUser.Reconciler.VerifyUser | internal/controller/headscaleuser_controller.go:297-327 | it reports no such user only if the recorded user is gone and nobody has the name |
| HeadscaleUser.Reconciler.ClearUserId | internal/controller/headscaleuser_controller.go:97-105 | a UserID is cleared only when its user is gone, together with its creation time and nothing else; it ends with an error exactly when the update fails |
| HeadscaleUser.Reconciler.DeleteTheUser | internal/controller/headscaleuser_controller.go:258-294 | however its calls end, the removal of the recorded user is attempted: asked for, or the client fails to open; undisturbed, that user is gone and no other |
| HeadscaleUser.Reconciler.HandleDeletion | internal/controller/headscaleuser_controller.go:160-201 | the UserID stays as recorded; a run that finishes leaves the resource gone, after an answer about the Headscale: it is not there, or it is and the removal of the recorded user was attempted; a read that is not answered ends the run with an error; undisturbed, the resource is gone, and its user if Headscale is there, and no other user |
| HeadscaleUser.Reconciler.Reconcile | internal/controller/headscaleuser_controller.go:42-157 | undisturbed, a run brings about what the present state calls for, case by case; however its calls end, it makes each for what it was told before, ends as the last of them was answered, makes no second one if the first read fails, and finishes with a deletion only once the resource is gone; while a user of the resource's name stays, no run changes which one is on record or deletes another; a resource that was not stranded is so afterwards if and only if the run made a user whose id is not on record |
| HeadscaleUser.StrandedMeansGone | internal/controller/headscaleuser_controller.go:297-327 | with a user of its name there, a resource does not have it on record if and only if it has none on record or one that is gone |
| HeadscaleUser.StrandedByForgetting | internal/controller/headscaleuser_controller.go:213-255 | between any two states with names kept and the record kept while the name is taken, an unstranded resource becomes stranded exactly if a user of its name was made and not put on record |
| HeadscaleUserRuns.Live | internal/controller/headscaleuser_controller.go:42-157 | for any events there is a trace from the start state to the result: between each two states lies what others did, or a run of legitimate calls with all that is promised of runs |
| HeadscaleUserRuns.UserIsIdentified | internal/controller/headscaleuser_controller.go:42-157 | over any trace and at every moment of it: identity of every UserID in every version, no UserID dropped while its user exists, and only the recorded user of a deletion removed |
| HeadscaleUserRuns.RunLetsGo | internal/controller/headscaleuser_controller.go:164-200 | a run of any kind that a resource with its finalizer or a UserID does not outlive was told that there is no Headscale, or saw it and then attempted to remove the recorded user |
| HeadscaleUserRuns.UntoldRunKeepsTheResource | internal/controller/headscaleuser_controller.go:164-181 | a run that is not told whether the Headscale is there leaves the resource with its finalizer, and does not finish with a deletion |
| HeadscaleUserRuns.GoneWasAnswered | internal/controller/headscaleuser_controller.go:160-201 | over any trace, a resource that is gone and had a UserID was let go by a run that had such an answer |
| HeadscaleUserRuns.ClearingKeepsTheCondition | internal/controller/headscaleuser_controller.go:90-105 | an undisturbed run that finds the recorded user gone clears UserID and creation time and changes nothing else: a resource that was ready is reported so without a user until the next run |
| HeadscaleUserRuns.StrandedForEver | internal/controller/headscaleuser_controller.go:90-129 | over any trace, a resource whose name belongs to a user it does not have on record stays so, and its record unchanged, while nobody else deletes users, also when it is deleted itself |
| HeadscaleUserRuns.StrandedExactly | internal/controller/headscaleuser_controller.go:213-255 | over any trace that starts unstranded and in which nobody else deletes users, the resource is stranded at a moment if and only if some run before it made the user and ended without its id on record, whatever went wrong |
| HeadscaleUserRuns.TwoRunsGiveTheUser | internal/controller/headscaleuser_controller.go:90-129 | over any trace, after two undisturbed runs on a resource that is not being deleted and whose Headscale is there, the user on record is there and has the name of the resource if and only if the resource was not stranded before them |
| HeadscaleUserRuns.CrashAfterCreationStrandsForever | internal/controller/headscaleuser_controller.go:237-252 | there is a trace with a run that ends between creation and status update, followed by any events in which nobody deletes users, and at every moment after that run the resource has no UserID though a user has its name |
| HeadscaleUserRuns.LateReadLeaksAUser | internal/controller/headscaleuser_controller.go:90-129 | over any trace in which the user is made and deleted by somebody else, and a run then starts from the first version: the resource is reported ready with the UserID of a user that is gone, and its deletion leaves the second user behind |
| HeadscaleUserRuns.LateReadHappens | internal/controller/headscaleuser_controller.go:90-129 | there is such a trace for every resource that waits for its user |
| Config.DecodeUndoesEncode | internal/controller/config.go:90-108 | decoding an encoded map gives the map back |
| Config.OtherKeysPassThrough | internal/controller/config.go:85-107 | rendering keeps every key but the four wiring keys with the value of its last pair, and adds none |
| Config.RenderedKeys | internal/controller/config.go:90-108 | rendering fails exactly on what is no config, and sets each of the four keys to the view's value |
| Config.ViewSaysWhatTheConfigSays | internal/controller/config.go:69-83 | each field of the view is the last string the config has for it under any spelling, the default if that is empty or there is none; the mode is the last said in any policy object |
| Config.SpelledUpToCase | internal/controller/config.go:69-76 | a key spells a name if it has its letters in any case, or a long s for s or a Kelvin sign for k, and not otherwise |
| Config.RenderAgain | internal/controller/config.go:90-108 | rendering a rendered config with the same view changes nothing |
| Config.ViewIsFixed | internal/controller/config.go:69-108 | parsing the rendered config gives back the view when each field is spelled at most once |
| Config.RenderIsFixed | internal/controller/config.go:69-108 | the rendered config is a fixpoint of rendering if each wiring field's own name is the greatest of its spellings |
| Config.AsciiSpellingsAreNotGreater | internal/controller/config.go:69-76 | which is so whenever they are spelled in ASCII |
| Config.LongSpellingsAreGreater | internal/controller/config.go:69-76 | and not when one is spelled with a long s |
| Config.EncodedReadsGreatest | internal/controller/config.go:69-76 | a field read from an encoded map has the value of its greatest spelling |
| Config.ViewIsFixedExactly | internal/controller/config.go:69-108 | for every config: the view is kept if and only if, in the config, server URL and policy mode are those of their greatest spellings, and no spelling of a wiring field after the field's own name says otherwise |
| Config.RenderIsFixedExactly | internal/controller/config.go:69-108 | rendering again changes nothing if and only if the latter is so |
| Config.TwoSpellingsBreakTheView | internal/controller/config.go:69-108 | with two spellings of the server URL in the wrong order the view changes from the second's value to the first's |
| Config.ServerUrlHasTwoSpellings | internal/controller/config.go:55 | such spellings exist: lower case and upper case |
| Decimal.ParseUndoesPrint | internal/controller/headscalepreauthkey_controller.go:278 | a printed number parses to itself if it is below the limit, and to an error otherwise |
| Decimal.ParsedIsPrinted | internal/controller/headscalepreauthkey_controller.go:278 | digits that parse are the print of their value behind zeros |
| Decimal.ParsesExactly | internal/controller/headscalepreauthkey_controller.go:278 | a text parses to a number exactly if the number is below the limit and the text is its print behind any zeros |
| Decimal.ParseIntUndoesPrint | internal/controller/utils.go:45-48 | the same with signs, within 32 bits |
| Decimal.ParsesIntExactly | internal/controller/utils.go:45-48 | and with an optional sign, exactly if the number is within 32 bits |
| Ports.ExtractPortReadsLastSegment | internal/controller/utils.go:33-51 | the segment after the last colon decides: its number, or the default if there is no colon or no number in range |
| Ports.EveryAddressIsCovered | internal/controller/utils.go:38-44 | every address is a segment without colon, or ends in one after a colon |
| Ports.ExtractPortFindsPrintedPort | internal/controller/utils.go:33-51 | for every host, colons included, and every 32-bit port, the printed port is found again |
| Ports.AddressLeadsToListenPort | internal/controller/utils.go:80-86 | the service address leads to the port the config listens on |
| Ports.AddressNamesTheService | internal/controller/utils.go:80-86 | before the last colon, between its dots, the address has the name, the namespace, and `svc` |
| Ports.AddressesTellServicesApart | internal/controller/utils.go:80-86 | two services with the same address have the same name, namespace and port, for all namespaces without dots |
| Ports.ListensWhereTheConfigSays | internal/controller/utils.go:80-86 | the config listens on the port its gRPC address spells after the last colon, and on 50443 if there is none |
| Ports.RenderedConfigListensThere | internal/controller/utils.go:80-86 | and rendering the config does not move that port, unless a spelling of the address after the field's own name says otherwise |

## Left out

- gRPC, TLS, the Kubernetes client, leader election, logging and signals: calls are atomic and may fail before or after taking effect.
- HuJSON, JSON and YAML text, civil dates and sorting routines: library code; documents are the maps, or pairs in order, that they denote, and instants are integers.
- A literal `null` as inline policy or config, which decodes to a nil map that the code then writes to.
- Conditions of auto-approvers: a status report is a write that may fail, whatever it says.
- Workloads, services, RBAC objects, labels and `status.go`: flat records and short case analyses.
- Numbers in a config that no float64 can hold: decoding them fails in the code.
- Condition messages beyond the part that varies, and transition times.
- Edits of `headscaleRef` and `secretName`: one Headscale and one Secret name per resource.
- Finalizers of others, status writes by others, and outside writes of the Secrets.
- Removal of entries after a failed push of a deletion, which the code calls best effort; `SiblingRepairs` says what heals it.
- User removal when `deleteUser` fails: the code lets the resource go all the same.
- Removal, by others, of a key made for the resource: conservation of keys counts what the controller does.
- Names other than the resource's own: other resources never create or rename users to its username.
- Kubernetes garbage collection through owner references.
- Policy.DocumentIsCanonical: an approver list without entries over an inline base with its own `autoApprovers` key is excluded, here and for `MergeIsUnion`, because that section can imitate the operator's; `InlineSectionStandsIn` says what the document holds then.
- AutoApproverDrain.SmoothStepLowers: refused updates count as failures; `FairDrainingEnds` covers them, and bases that do not parse are retried for ever by the code.
- Sidecar.Manager.Run: one manager alone writes the Secret, as for a single replica; many managers are covered by `ApiKeyProtocol`.
- ApiKeyProtocol.StoredKeyIsNeverATarget: the first eight characters of a key identify it and every created key is new, as the code assumes.
- HeadscaleUserRuns.UserIsIdentified: usernames are distinct among resources and unique in Headscale.
