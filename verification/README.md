# Machine-checked models of the daemon, the dispatch seam and the context compiler

This project models, in Dafny, the parts of the system whose behaviour spans many steps, and proves what they keep:

- **The daemon projection** (`ProjectionSpec`, `ProjectionProof`, `DaemonProjection`). Clients reserve a slot, wait for a
  snapshot under a deadline, buffer events meanwhile, drain the buffer and go live. Every stretch of code between two awaits
  is one step of a state machine; the class refines it method by method, and an invariant over all runs says what every
  client has received.
- **Canonical JSON and the capability registry** (`Json`, `CanonicalJson`, `Sorting`, `Registry`, `CapabilityRegistry`).
  Canonical text is uniquely decodable, so comparing it compares meaning (keys sorted by UTF-16 code units as in section
  3.2.3 of RFC 8785, strings escaped as in section 7 of RFC 8259); difference reports are exact; and no run of the registry
  changes an identity field.
- **Declarative schemas** (`Schema`, `ResultContract`). The interpreter is sound and complete for what a schema means,
  monotone under weakening, and its default schema is compared with the seam's own guards.
- **The dispatch seam** (`Invocations`, `SeamSpec`, `SeamProof`, `SeamSafety`, `SeamAgreement`, `SeamVerification`,
  `SeamWitnesses`, `DispatchSeam`). Durable invocation rows, dispatch, resumption, reconciliation, cancellation and retries,
  with a crash possible before every durable write and every connector call. The class keeps, at every entry point, what
  the lemmas prove of whole runs.
- **Context packages** (`ContextModel`, `CapPipeline`, `ContextCompiler`, `ContextChanges`, `ContextRuns`, `Progressive`).
  Greedy budgeted selection, compilation, ageing, merging, derived items, and packs that grow under one aggregate budget.
- **Two small algorithms** (`Waves`, `Handoff`). Dependency levelling, and truncation of a conversation.

`Wrappers`, `JsNumber` and `Sequences` hold shared types and facts. `dafny verify dfyconfig.toml` checks everything.

## Where the code does not do what it is documented to do

Each of these is proved as a statement that says exactly when the code meets the expectation.

- **A connector can be called twice for one invocation.** The engine answers a fresh dispatch with the completed row of the
  same effect when that effect belongs to another step (`cli/src/mission/mission-engine.ts:809-811`), and the seam then hands
  that row to the connector (`cli/src/capabilities/dispatch-seam.ts:375-428`; the handoff of a completed row is silently
  accepted). `SeamProof.AtMostOnceIff` shows this is the only way, over all runs. `SeamWitnesses.ReplayHappens` exhibits it,
  and a caller who is told that the work failed while the row stays completed.
- **Not every throw after `invoke()` leaves the row blocked.** Besides a row that was completed before, five errors escape
  past every write. What the connector raised, or what the verification authority raised instead of attesting, cannot be
  turned into the text of a note (an error whose message is no text, or data with a member `toString` that a template literal
  cannot print); a result for another request has such an identity; an owner operation handle cannot be stored; or the final
  status is refused for a capability that needs no verification. `SeamSafety.ThrowsBlockIff` is exact for every dispatch;
  `SeamWitnesses.UnnotableRaiseHappens`, `MutedRefusalHappens`, `UnquotableHappens` and `StrandedHappens` exhibit it;
  `SeamSafety.DefaultSchemaStrands` says what remains under the default schema.
- **Dispatching and reconciling one answer can leave different statuses**, for the same reasons and because dispatch makes
  up a summary where reconciliation wants one (`SeamAgreement.DispatchAgreesWithReconcile`, `SeamWitnesses.PartingHappens`).
- **Recovery does not compare whether verification is required.** The check of persisted semantics
  (`cli/src/capabilities/dispatch-seam.ts:1452-1482`) leaves out `requiresOwnerVerification`, so work that was minted under a
  capability that requires the owner's word can be completed without it once the registration has changed.
  `SeamVerification.VerifiedIff` says exactly when, over all runs; `SeamWitnesses.SlipHappens` exhibits it.
- **A cancellation whose outcome is in doubt is recorded only on a blocked row**, and a completed hard cancellation not on a
  failed row; otherwise the engine refuses the status and the error escapes. What the owner raised escapes from every row if
  it cannot be noted (`SeamSafety.CancelEscapesIff`, `SeamWitnesses.CancelEscapeHappens`,
  `SeamWitnesses.UnnotableStopHappens`).
- **A handshake that ends without a snapshot closes by client key.** It can close a newer registration of the same client
  (`ProjectionProof.StaleFailureClosesOthersIff`, `ProjectionProof.StaleFailureHappens`).
- **A rejected request consumes the step.** The seam documents every rejection before `invoke()` as leaving the dispatch
  unconsumed; a request without a declarative schema, or that violates it, is rejected after its row was minted
  (`SeamSafety.ConsumedWithoutCallIff`, `SeamWitnesses.RejectionConsumes`).
- **A restricted row is never checked for age.** It can be compiled although it is already stale
  (`ContextChanges.StaleOnArrivalIff`, `ContextChanges.StaleOnArrivalHappens`), and the next refresh removes it. Without a
  readable timestamp it carries no expiry, so that a demanded age never removes it (`ContextRuns.ExpiryIff`,
  `ContextRuns.AgelessHappens`).
- **A derived summary carries no expiry**, so it stays in the package after its sources have expired
  (`ContextRuns.SummaryKeepsLineage`, `ContextRuns.SummaryOutlivesHappens`).
- **A pack whose accounting cannot be written is lost to its caller**, because the session is replaced first
  (`Progressive.ProgressiveContextPackRuntime.Expand`, `Progressive.LosePack`).

## Model

| member | source | states |
|---|---|---|
| `ProjectionSpec.NextSequence` | cli/src/daemon/daemon-projection.ts:270-273 | The next sequence number is larger for as long as numbers stay exact, and never smaller. |
| `ProjectionSpec.CreateEnvelope` | shared/daemon-event-contract.ts:729-778 | An envelope is built only for a positive safe sequence number, and a snapshot's cursor is its sequence. |
| `ProjectionProof.DrainOk` | cli/src/daemon/daemon-projection.ts:183-191 | Draining sends the buffered events in order and stops at the first failure with the log still a prefix. |
| `ProjectionProof.HandshakeOk` | cli/src/daemon/daemon-projection.ts:170-191 | After the snapshot and the drain a client holds its snapshot and everything buffered, or is closed with a prefix of it. |
| `ProjectionProof.StepOk` | cli/src/daemon/daemon-projection.ts:114-316 | Every step, at any interleaving of snapshots, deadlines, cancellations, disconnects and broadcasts, keeps the invariant. |
| `ProjectionProof.RunOk` | cli/src/daemon/daemon-projection.ts:60-316 | Every state of every run satisfies the invariant. |
| `ProjectionProof.LiveClientsMissNothing` | cli/src/daemon/daemon-projection.ts:128-261 | In every reachable state a ready client's log is its snapshot followed by every envelope built since it registered, a handshaking client buffers exactly those, and a closing client's log is a prefix. |
| `ProjectionProof.LogsIncrease` | cli/src/daemon/daemon-projection.ts:221-278 | Sequence numbers in a client's log strictly increase. |
| `ProjectionProof.CapacityHolds` | cli/src/daemon/daemon-projection.ts:114-164 | Admitted clients and reads in flight stay within the limit, reads in flight are exactly the unsettled ones, and only handshaking clients buffer, within their bound. |
| `ProjectionProof.StepOnlyAppends` | cli/src/daemon/daemon-projection.ts:128-261 | History and logs only grow, and a closing client is never touched again. |
| `ProjectionProof.ClosingHoldsItsSlot` | cli/src/daemon/daemon-projection.ts:194-219 | A closing client keeps its slot until exactly its own disconnect. |
| `ProjectionProof.OnlySettlingFreesAPlace` | cli/src/daemon/daemon-projection.ts:280-316 | A place for a snapshot read is freed exactly when a read settles; deadlines and cancellations free none. |
| `ProjectionProof.StaleFailureClosesOthersIff` | cli/src/daemon/daemon-projection.ts:161-168 | A resumed handshake changes another registration exactly when it got no snapshot and a live newer registration holds its key. |
| `ProjectionProof.StaleFailureHappens` | cli/src/daemon/daemon-projection.ts:161-168 | Connect, disconnect, connect again, resume: the first handshake closes the second registration. |
| `DaemonProjection.DaemonProjection.constructor` | cli/src/daemon/daemon-projection.ts:73-95 | A new projection is empty and sound, with each limit as given if it is a safe positive integer and the default otherwise. |
| `DaemonProjection.DaemonProjection.ReserveClient` | cli/src/daemon/daemon-projection.ts:114-119 | Admits a reservation, or nothing at capacity, and keeps the invariant. |
| `DaemonProjection.DaemonProjection.ReleaseReservation` | cli/src/daemon/daemon-projection.ts:122-125 | Frees an unused reservation only. |
| `DaemonProjection.DaemonProjection.ConnectClient` | cli/src/daemon/daemon-projection.ts:128-161 | Registers the client and starts its read up to the await, refining the step. |
| `DaemonProjection.DaemonProjection.StartHandshake` | cli/src/daemon/daemon-projection.ts:155-161 | The read starts only while a place is free; otherwise the client closes. |
| `DaemonProjection.DaemonProjection.SnapshotSettles` | cli/src/daemon/daemon-projection.ts:305-314 | A settling read frees its place and tells its waiter unless the waiter was told before. |
| `DaemonProjection.DaemonProjection.DeadlineExpires` | cli/src/daemon/daemon-projection.ts:291-295 | The deadline tells the waiter and leaves the read in flight. |
| `DaemonProjection.DaemonProjection.ResumeConnect` | cli/src/daemon/daemon-projection.ts:161-192 | The continuation refines the step; it answers true only for its own, ready registration. |
| `DaemonProjection.DaemonProjection.Greet` | cli/src/daemon/daemon-projection.ts:180-191 | The snapshot, the switch to live and the drain loop amount to the specified handshake. |
| `DaemonProjection.DaemonProjection.SendToClient` | cli/src/daemon/daemon-projection.ts:330-355 | One send either appends to the log or closes the client. |
| `DaemonProjection.DaemonProjection.MarkClientClosing` | cli/src/daemon/daemon-projection.ts:200-206 | Closes a client in place, empties its buffer and cancels its wait. |
| `DaemonProjection.DaemonProjection.CloseClient` | cli/src/daemon/daemon-projection.ts:357-367 | Closing a closing client changes nothing. |
| `DaemonProjection.DaemonProjection.DisconnectClient` | cli/src/daemon/daemon-projection.ts:194-197 | Removes the client and cancels its wait. |
| `DaemonProjection.DaemonProjection.RetainClosingClient` | cli/src/daemon/daemon-projection.ts:209-219 | Turns an unused reservation into a closing client that holds the slot. |
| `DaemonProjection.DaemonProjection.Broadcast` | cli/src/daemon/daemon-projection.ts:221-261 | A broadcast refines the step, a burnt sequence number included. |
| `DaemonProjection.DaemonProjection.SendToAll` | cli/src/daemon/daemon-projection.ts:248-260 | Offering one envelope to the eligible clients one by one, in any order, is publishing it. |
| `DaemonProjection.DaemonProjection.CloseClients` | cli/src/daemon/daemon-projection.ts:263-268 | Closes every live client, drops every unused reservation, and keeps the invariant. |
| `CanonicalJson.EscapePrefixFree` | cli/src/capabilities/registry.ts:89-98 | The escaped form of a string, up to its closing quote, can be read back in one way only, surrogates included. |
| `CanonicalJson.DecimalPrefixFree` | cli/src/capabilities/registry.ts:88-90 | A printed integer followed by a delimiter can be read back in one way only. |
| `CanonicalJson.OrderedSorted` | cli/src/capabilities/registry.ts:94-96 | Defined members are printed in strictly ascending key order. |
| `CanonicalJson.OrderedMean` | cli/src/capabilities/registry.ts:94-96 | Dropping undefined members and sorting keeps what an object means. |
| `CanonicalJson.PrintPrefixFree` | cli/src/capabilities/registry.ts:86-98 | A printed value followed by a delimiter determines what the value means. |
| `CanonicalJson.SameMeaningSamePrint` | cli/src/capabilities/registry.ts:86-98 | Values that differ only in key order and undefined members print alike. |
| `CanonicalJson.CanonicalText` | cli/src/capabilities/registry.ts:86-98 | Two values have the same canonical text exactly when they mean the same. |
| `Sorting.SortByStable` | cli/src/capabilities/registry.ts:268-284 | Sorting keeps elements that compare equal in their order. |
| `Sorting.SortByMap` | cli/src/capabilities/registry.ts:268-284 | Sorting keys and fetching the rows is sorting the rows. |
| `Registry.KeySetAscending` | cli/src/capabilities/registry.ts:119-123 | The keys of both objects are visited in order, each once. |
| `Registry.ObjectsMeanPointwise` | cli/src/capabilities/registry.ts:111-131 | Objects that mean the same at every visited key mean the same. |
| `Registry.DifferencesExact` | cli/src/capabilities/registry.ts:104-136 | The report lists exactly the paths at which two leaves differ, and is empty exactly when the values mean the same. |
| `Registry.Walk` | cli/src/capabilities/registry.ts:109-133 | The recursive walk pushes exactly the specified differences onto the list it is given. |
| `Registry.WalkKeys` | cli/src/capabilities/registry.ts:123-129 | The loop over the keys pushes the differences of each member in turn. |
| `Registry.DescribeDescriptorDifferences` | cli/src/capabilities/registry.ts:104-136 | Empty exactly when the descriptors mean the same; each reported path is real and none is missing. |
| `CapabilityRegistry.ChangedExact` | cli/src/capabilities/registry.ts:372-384 | No identity field is reported exactly when every identity field means the same. |
| `CapabilityRegistry.ContractFieldsSeparate` | cli/src/capabilities/registry.ts:344-365 | Availability, its detail and the fact-only licence are not identity fields. |
| `CapabilityRegistry.WithAvailabilityReads` | cli/src/capabilities/registry.ts:294-305 | Setting availability changes availability and its detail and reads as before everywhere else. |
| `CapabilityRegistry.IdentityNeverChanges` | cli/src/capabilities/registry.ts:205-305 | Over every run of registrations, replacements and availability changes, a registered id stays and none of its twenty identity fields changes its canonical value. |
| `CapabilityRegistry.ReplaceExact` | cli/src/capabilities/registry.ts:226-245 | A replacement goes through exactly when the id is known, the descriptor is valid and the identity fields mean the same. |
| `CapabilityRegistry.ReplaceDiffersOutsideIdentity` | cli/src/capabilities/registry.ts:226-245 | Every difference an accepted replacement makes starts outside the identity fields and the id. |
| `CapabilityRegistry.FactRowsOnlyMayChange` | cli/src/capabilities/registry.ts:344-402 | A valid replacement may set the fact-only licence to anything, although authorization reads it. |
| `CapabilityRegistry.SortedIdsList` | cli/src/capabilities/registry.ts:268-284 | Fetching the rows of the sorted ids gives the sorted descriptors, ties included. |
| `CapabilityRegistry.CapabilityRegistry.constructor` | cli/src/capabilities/registry.ts:162-163 | A new registry is empty and protects the contract identity fields. |
| `CapabilityRegistry.CapabilityRegistry.Register` | cli/src/capabilities/registry.ts:205-208 | Stores a valid descriptor under a new id, or fails and changes nothing. |
| `CapabilityRegistry.CapabilityRegistry.ContractFieldDifferences` | cli/src/capabilities/registry.ts:372-384 | The loop collects the differing identity fields in order. |
| `CapabilityRegistry.CapabilityRegistry.Replace` | cli/src/capabilities/registry.ts:226-245 | Replaces, or fails with the specified error and changes nothing. |
| `CapabilityRegistry.CapabilityRegistry.SetAvailability` | cli/src/capabilities/registry.ts:294-305 | Updates availability of a known id unless the detail holds a secret. |
| `CapabilityRegistry.CapabilityRegistry.ListDescriptors` | cli/src/capabilities/registry.ts:268-272 | Every registered descriptor once, in the order of ids. |
| `CapabilityRegistry.CapabilityRegistry.ListDescriptorPage` | cli/src/capabilities/registry.ts:279-287 | A page is the prefix of the full list and says truthfully whether anything follows; a limit that is not a positive safe integer fails. |
| `Schema.EvaluationExact` | cli/src/capabilities/contracts.ts:157-222 | The interpreter reports nothing exactly when the value satisfies the schema. |
| `Schema.Monotone` | cli/src/capabilities/contracts.ts:81-113 | What satisfies a spec satisfies every weakening of it: more types, optional, a lower minimum, weaker or fewer parts. |
| `Schema.WeakerSchemaAcceptsMore` | cli/src/capabilities/contracts.ts:157-222 | Weakening a schema or dropping fields never makes an accepted value fail. |
| `Schema.EvaluateDeclarativeSchema` | cli/src/capabilities/contracts.ts:157-222 | The loops compute the specified problems, and none exactly when the value conforms. |
| `Schema.Walk` | cli/src/capabilities/contracts.ts:166-217 | One field appends exactly its problems to the shared list. |
| `Schema.WalkItems` | cli/src/capabilities/contracts.ts:194-204 | Every element of an array is checked, objects against every part. |
| `ResultContract.OwnerClauseIsGuard` | cli/src/capabilities/fixtures.ts:121-134 | The schema's verdict clause accepts an absent verdict, and otherwise exactly what the runtime guard accepts. |
| `ResultContract.FirstIssueExact` | cli/src/capabilities/dispatch-seam.ts:1292-1307 | The evidence guard finds no issue exactly when no item has one. |
| `ResultContract.EvidenceGuardIsClauseAndLabels` | cli/src/capabilities/dispatch-seam.ts:1292-1307 | The evidence guard accepts exactly what the schema clause accepts with non-empty labels. |
| `ResultContract.EmptyLabelPassesClauseOnly` | cli/src/capabilities/fixtures.ts:105-120 | An evidence item with an empty label satisfies the clause and fails the guard. |
| `ResultContract.DefaultSchemaExact` | cli/src/capabilities/fixtures.ts:96-136 | The default result schema accepts exactly the results with a textual status and summary, a non-empty request identity, and evidence and verdict of the shape their clauses ask for. |
| `ResultContract.EncodedIsValid` | cli/src/capabilities/contracts.ts:225-245 | A field written out as data is accepted exactly when it names a path and a type all the way down. |
| `ResultContract.EncodedSchemaIsDeclarative` | cli/src/capabilities/contracts.ts:225-253 | A schema written out as data is recognised as declarative exactly when all its fields can be declared. |
| `ResultContract.DefaultSchemaIsDeclarative` | cli/src/capabilities/fixtures.ts:96-136 | The default result schema is recognised as declarative. |
| `Invocations.MarkHandoffOk` | cli/src/mission/mission-engine.ts:1695-1769 | A handoff keeps the row sound, its history and its identity, and never touches a terminal row. |
| `Invocations.RecordResultOk` | cli/src/mission/mission-engine.ts:959-1163 | Recording a result keeps the row sound, never touches a terminal row, and never replaces a negative verdict. |
| `Invocations.MarkReconciliationOk` | cli/src/mission/mission-engine.ts:1772-1849 | A reconciliation fact keeps the row sound and never makes it submittable. |
| `Invocations.RecordCancellationOutcomeOk` | cli/src/mission/mission-engine.ts:1588-1692 | A cancellation outcome keeps the row sound and never makes it submittable. |
| `Invocations.CancelWithMissionOk` | cli/src/mission/mission-engine.ts:1487-1567 | Cancelling keeps the row sound and calls nothing. |
| `Invocations.PrepareRetryOk` | cli/src/mission/mission-engine.ts:1170-1263 | Only a failed, idempotent, not rejected row gets another attempt, within its declared maximum. |
| `Invocations.CallsBounded` | cli/src/mission/mission-engine.ts:1170-1263 | The calls made for a sound row are at most its declared attempts, and at most one without retries. |
| `SeamSpec.FindEffect` | cli/src/mission/sqlite-mission-store.ts:2141-2155 | The lookup by effect finds the first matching row and misses none. |
| `SeamProof.CrossOk` | cli/src/capabilities/dispatch-seam.ts:390-428 | A dispatch calls the connector at most once, for the last attempt, exactly when the request conforms, the process lives and the handoff is accepted. |
| `SeamProof.ReconcileOk` | cli/src/capabilities/dispatch-seam.ts:910-1163 | Reconciling calls no connector's effectful entry and never makes a row dispatchable. |
| `SeamProof.CancelOk` | cli/src/capabilities/dispatch-seam.ts:782-903 | Cancelling calls no connector's effectful entry and never makes a row dispatchable. |
| `SeamProof.StepOk` | cli/src/capabilities/dispatch-seam.ts:320-1163 | Each operation, crashing anywhere, keeps every row sound; it makes an attempt call twice exactly when it replays a completed effect. |
| `SeamProof.AtMostOnceIff` | cli/src/capabilities/dispatch-seam.ts:320-1163 | Over every run no attempt calls its connector twice if and only if no dispatch is handed a completed, already called row of another step. |
| `SeamProof.CallsBoundedOverRuns` | cli/src/capabilities/dispatch-seam.ts:320-1163 | From an empty store and without such replays, every invocation's calls are bounded by its own retry terms. |
| `SeamProof.AtMostOnceWithoutOldRows` | cli/src/mission/mission-engine.ts:797-818 | As long as no dispatch is answered with an old row, which its caller can see, no attempt calls twice. |
| `SeamSafety.DoubtRecorded` | cli/src/capabilities/dispatch-seam.ts:1329-1344 | On a live row doubt is always recorded as blocked, and the verdict stays. |
| `SeamSafety.ResultRecorded` | cli/src/mission/mission-engine.ts:1010-1095 | When exactly the engine takes a result for a live row, and with which status and verdict; a negative verdict turns completed into failed. |
| `SeamSafety.NotCalled` | cli/src/capabilities/dispatch-seam.ts:396-428 | A dispatch that calls no connector completes nothing and returns nothing, whatever row it was handed. |
| `SeamSafety.ThrowsBlockIff` | cli/src/capabilities/dispatch-seam.ts:426-684 | Whatever row was handed over: a throw after the call leaves it blocked if and only if it was not completed before and no error escaped past every write; a process that lives always gets an answer or a throw. |
| `SeamSafety.DefaultSchemaStrands` | cli/src/capabilities/fixtures.ts:96-136 | Under the default result schema a result makes an error escape exactly when a handle cannot be stored, a final status without required verification cannot be recorded, or a refusal to attest cannot be noted. |
| `SeamSafety.FreshDispatchSafe` | cli/src/capabilities/dispatch-seam.ts:320-684 | Every fresh dispatch, crashing anywhere: completed under required verification means an attested positive verdict on the echoed request, failed means the connector or an attested verdict said so, what is told is what is stored, the completion time is present exactly on finished rows, throws block as above, and other rows stay. The exception is named: a completed row of another step stays as it is. |
| `SeamSafety.ResumedDispatchSafe` | cli/src/capabilities/dispatch-seam.ts:692-698 | The same for resumed work, which is always prepared and never submitted. |
| `SeamSafety.ConsumedWithoutCallIff` | cli/src/capabilities/dispatch-seam.ts:375-420 | A fresh dispatch adds a row without calling the connector if and only if the gates are open, the engine mints, the row is stored and the call is not reached; the status and delivery of that row in each case, and the step is then barred. |
| `SeamSafety.OnlyHardCancelCancels` | cli/src/capabilities/dispatch-seam.ts:855-880 | A cancellation cancels a row if and only if it is hard, the owner reports it completed on a usable result, and the row has not failed. |
| `SeamSafety.CancelEscapesIff` | cli/src/capabilities/dispatch-seam.ts:826-900 | Over every row and answer: the engine's refusal escapes a cancellation if and only if the owner was asked, raised nothing that cannot be noted, and left a row that is not blocked in doubt or completed the hard cancellation of a failed row; what the owner raised escapes if and only if it cannot be noted; nothing changes in either case. |
| `SeamAgreement.DispatchLeaves` | cli/src/capabilities/dispatch-seam.ts:450-684 | The status a dispatch leaves for every result without a negative verdict. |
| `SeamAgreement.WeighLeaves` | cli/src/capabilities/dispatch-seam.ts:1035-1158 | The status reconciliation leaves for the same result. |
| `SeamAgreement.DispatchAgreesWithReconcile` | cli/src/capabilities/dispatch-seam.ts:450-1158 | For every answer without a negative verdict and the same attestation, dispatch and reconciliation leave the same status if and only if none of the named cases holds: an error that escapes from one of them only, a status the engine takes at reconciliation only, or a summary that dispatch makes and reconciliation wants. |
| `SeamVerification.CrossVerified` | cli/src/capabilities/dispatch-seam.ts:552-684 | A dispatch completes work that needed the owner's word without it exactly when the capability no longer requires it and a completed answer without an attested claim can be written. |
| `SeamVerification.ReconcileVerified` | cli/src/capabilities/dispatch-seam.ts:1059-1158 | The same, exactly, for a reconciliation of any sound row. |
| `SeamVerification.VerifiedIff` | cli/src/capabilities/dispatch-seam.ts:320-1163 | Over every run, crashes included: work minted under required verification is completed only with an attested positive verdict, if and only if no event finds the requirement dropped and slips. |
| `SeamVerification.VerifiedWhileRequired` | cli/src/capabilities/dispatch-seam.ts:1452-1482 | As long as whoever resumes or reconciles a row finds its requirement still registered, no run completes it without an attested positive verdict. |
| `SeamWitnesses.StrandedHappens` | cli/src/capabilities/dispatch-seam.ts:476-489 | A failed result that carries an operation handle: the dispatch throws and the row is not blocked. |
| `SeamWitnesses.UnquotableHappens` | cli/src/capabilities/dispatch-seam.ts:540-550 | A result whose request identity is an object with a member `toString`: quoting it raises before the doubt is recorded. |
| `SeamWitnesses.UnnotableRaiseHappens` | cli/src/capabilities/dispatch-seam.ts:429-442 | A connector that raises data that cannot be printed, or an error whose message is no text: turning it into a note raises before the doubt is recorded. |
| `SeamWitnesses.MutedRefusalHappens` | cli/src/capabilities/dispatch-seam.ts:646-683 | The authority refuses a positive verdict, required or not, with data that cannot be printed: the same. |
| `SeamWitnesses.PartingHappens` | cli/src/capabilities/dispatch-seam.ts:476-489 | The same failed result leaves the row dispatched at dispatch and failed at reconciliation. |
| `SeamWitnesses.RejectionConsumes` | cli/src/capabilities/dispatch-seam.ts:403-412 | A request that violates the input schema: the row ends failed, nothing was called, and the step is barred. |
| `SeamWitnesses.CancelEscapeHappens` | cli/src/capabilities/dispatch-seam.ts:826-838 | The owner raises on cancelling a running row: the refusal escapes and the row stays. |
| `SeamWitnesses.UnnotableStopHappens` | cli/src/capabilities/dispatch-seam.ts:826-838 | The owner raises data that cannot be printed on cancelling a blocked row: it escapes, and the row stays. |
| `SeamWitnesses.SlipHappens` | cli/src/capabilities/dispatch-seam.ts:1452-1482 | Handed off under required verification, reconciled under a registration without it: completed without a verdict. |
| `SeamWitnesses.ReplayHappens` | cli/src/mission/mission-engine.ts:797-818 | Two steps of one mission with one effect: two calls for one invocation, and the second caller is told failed while the row stays completed. |
| `DispatchSeam.MissionEngine.PrepareInvocationRetry` | cli/src/mission/mission-engine.ts:1170-1263 | Opens one more attempt on an eligible row only, calls nothing, and keeps what every operation keeps. |
| `DispatchSeam.MissionEngine.CancelUnsubmitted` | cli/src/mission/mission-engine.ts:1548-1577 | Ends work that never crossed the seam, calls nothing, and keeps what every operation keeps. |
| `DispatchSeam.MissionEngine.CancelMission` | cli/src/mission/mission-engine.ts:1487-1545 | Every row of the mission is cancelled or marked, or none is; rows stay sound and nothing is called. |
| `DispatchSeam.MissionEngine.ClaimFor` | cli/src/mission/mission-engine.ts:797-818 | A new row is minted only when no row of the mission has the effect; an existing one is handed out only when completed. |
| `DispatchSeam.ConnectorDispatchSeam.RegisterConnector` | cli/src/capabilities/dispatch-seam.ts:282-293 | No registration is ever replaced, and every connector serves the capability it declares. |
| `DispatchSeam.ConnectorDispatchSeam.DispatchThroughSeam` | cli/src/capabilities/dispatch-seam.ts:320-684 | One step of a run: rows stay sound, no attempt calls twice unless an effect is replayed, completion safety holds, and without a registered connector nothing changes. |
| `DispatchSeam.ConnectorDispatchSeam.DispatchPersistedInvocation` | cli/src/capabilities/dispatch-seam.ts:692-698 | The same for resumed work; only ready work of a registered capability is ever touched. |
| `DispatchSeam.ConnectorDispatchSeam.ReconcileInvocation` | cli/src/capabilities/dispatch-seam.ts:910-1163 | One step of a run that calls nothing and changes at most its own row, whose history, identity and terminality stay. |
| `DispatchSeam.ConnectorDispatchSeam.CancelInvocation` | cli/src/capabilities/dispatch-seam.ts:782-903 | The same for a cancellation; when the engine refuses, nothing changes. |
| `ContextModel.EstimateTokens` | cli/src/context/contracts.ts:284-288 | A token for every four characters, rounded up. |
| `ContextModel.TokensSubadditive` | cli/src/context/contracts.ts:286-288 | Rounding a sum up costs no more than rounding its parts up. |
| `ContextModel.ClampWithin` | cli/src/context/contracts.ts:117-128 | A usable clamped budget comes from finite proposals and exceeds neither the proposal nor the policy. |
| `CapPipeline.CapItems` | cli/src/context/compiler.ts:982-1036 | The loops compute the specified selection and append exactly its exclusions. |
| `CapPipeline.DropDuplicates` | cli/src/context/compiler.ts:998-1006 | The first item of each key stays and the others are recorded. |
| `CapPipeline.TakeWithin` | cli/src/context/compiler.ts:1016-1035 | The greedy loop with its running total. |
| `CapPipeline.UniqueCovers` | cli/src/context/compiler.ts:998-1006 | Dropping duplicates loses no key. |
| `CapPipeline.CapIsMaximal` | cli/src/context/compiler.ts:1016-1035 | Whatever the budget left out would still break a limit if added to the final result. |
| `CapPipeline.PipelineConserves` | cli/src/context/compiler.ts:982-1036 | The ids that came in are the ids that came out plus the ids newly excluded, counted. |
| `CapPipeline.PipelineOk` | cli/src/context/compiler.ts:982-1036 | Conservation, distinct keys, requested classes, all three limits, and maximality together. |
| `CapPipeline.PipelineOrderIndependent` | cli/src/context/compiler.ts:998-1035 | Items with distinct keys and ids give the same result in every order of arrival. |
| `ContextCompiler.GatherAll` | cli/src/context/compiler.ts:325-527 | The nested loops collect items, records and exclusions as specified. |
| `ContextCompiler.Compile` | cli/src/context/compiler.ts:267-570 | Compilation fails at the first closed gate, or yields an honest package within the policy. |
| `ContextCompiler.CompiledOk` | cli/src/context/compiler.ts:529-570 | A compiled package reports its real totals, within its clamped limits, and shows only requested classes. |
| `ContextCompiler.NothingSilent` | cli/src/context/compiler.ts:325-558 | Every reference, row, refusal and skipped batch ends up as an item, an exclusion or an unresolved record, counted. |
| `ContextCompiler.KeptRowIsClean` | cli/src/context/compiler.ts:391-527 | A kept row shows no secret, shows restricted content by reference only, and looks normal only when nothing was changed. |
| `ContextChanges.RefreshComposes` | cli/src/context/compiler.ts:573-603 | Ageing in two steps leaves the items that ageing once to the later time leaves. |
| `ContextChanges.GatesAgree` | cli/src/context/compiler.ts:483-503 | A timestamped row that is not restricted passes the age check exactly when its item survives ageing at that time. |
| `ContextChanges.StaleOnArrivalIff` | cli/src/context/compiler.ts:455-503 | A kept row is stale on arrival exactly when it is restricted and its timestamp is too old. |
| `ContextChanges.StaleOnArrivalHappens` | cli/src/context/compiler.ts:455-481 | A restricted row older than the demanded age is kept and stale at once. |
| `ContextChanges.MergePackages` | cli/src/context/compiler.ts:606-680 | The merge, loop included, computes the specified package or refuses another mission's. |
| `ContextChanges.MergeItems` | cli/src/context/compiler.ts:627-653 | The merging loop with its running counts. |
| `ContextChanges.MergeAccounts` | cli/src/context/compiler.ts:627-653 | Every candidate is in the result or excluded by id. |
| `ContextChanges.MergeLosesNothing` | cli/src/context/compiler.ts:606-680 | Every stored item is in the result, excluded, unresolved by reference, or supplied anew; every item of the expansion is in the result or excluded. |
| `ContextChanges.MergeSupersedes` | cli/src/context/compiler.ts:613-624 | No stored item survives that the expansion carries at another version or fetch time. |
| `ContextRuns.SourcesKnownIff` | cli/src/context/compiler.ts:758-763 | With distinct item ids, counting the items found accepts exactly the requests that name known ids, each once. |
| `ContextRuns.SummaryKeepsLineage` | cli/src/context/compiler.ts:752-823 | A summary names its sources in order, all in the package when item ids are distinct; none is an inference or restricted, and the summary never goes stale. |
| `ContextRuns.SummaryOutlivesHappens` | cli/src/context/compiler.ts:802-823 | A summary of the one item of a package is all that is left once the item has expired. |
| `ContextRuns.AppendBounded` | cli/src/context/compiler.ts:876-976 | Adding an item keeps the package honest and can only tighten its limits. |
| `ContextRuns.RefreshBounded` | cli/src/context/compiler.ts:573-603 | Ageing keeps the limits and lowers the totals. |
| `ContextRuns.MergeBounded` | cli/src/context/compiler.ts:606-680 | Merging keeps the base's limits and classes whatever the expansion holds. |
| `ContextRuns.BudgetOverRuns` | cli/src/context/compiler.ts:529-976 | Through any sequence of changes by compilers with any policies and clocks, the report is exact, within limits that never grow, and only the originally requested classes are shown. |
| `ContextRuns.CompiledInTime` | cli/src/context/compiler.ts:1085-1094 | Under a demanded age, however late compiling happens: an item from a read has no expiry exactly if its source restricted it and carried no readable stamp, and otherwise expires at most that age after the stamp; mission references carry no age. |
| `ContextRuns.ExpiryIff` | cli/src/context/compiler.ts:455-503 | Under a demanded age a kept row has no expiry if and only if it is restricted and its stamp is not readable; otherwise the expiry is the stamp plus the age. |
| `ContextRuns.AgelessHappens` | cli/src/context/compiler.ts:459-480 | A restricted row without a timestamp is kept under a demanded age and stale at no time. |
| `ContextRuns.FreshAfterRefresh` | cli/src/context/compiler.ts:573-603 | Of the items from reads, ageing leaves only such ones and those no older than the demanded age. |
| `Progressive.MeasureWithin` | cli/src/context/progressive.ts:396-403 | Projection and items fit together when each fits its share. |
| `Progressive.InitialOk` | cli/src/context/progressive.ts:81-130 | The initial pack, projection included, fits the budget it was asked for. |
| `Progressive.ExpandOk` | cli/src/context/progressive.ts:133-304 | An expansion keeps the pack within the session's limits and keeps its first request. |
| `Progressive.NeverOverAggregate` | cli/src/context/progressive.ts:206-211 | While the projection has not grown since the start, the aggregate check cannot fail. |
| `Progressive.ExpandInTime` | cli/src/context/progressive.ts:417-437 | An expansion keeps every item from a read expiring by its own stamp plus the age the first request demanded, those without a readable stamp under restriction apart. |
| `Progressive.FirstDemandHolds` | cli/src/context/progressive.ts:81-304 | Over every chain of expansions the same holds of the pack, and what ageing leaves at any time is no older than the first request demanded, items that carry no age apart. |
| `Progressive.AggregateBudget` | cli/src/context/progressive.ts:81-304 | Over every chain of expansions the aggregate stays within the first request's limits and classes. |
| `Progressive.ProgressiveContextPackRuntime.CompileInitial` | cli/src/context/progressive.ts:81-130 | Opens one session, known to its caller exactly when the accounting was written. |
| `Progressive.ProgressiveContextPackRuntime.Expand` | cli/src/context/progressive.ts:133-304 | Replaces the session it came from; a pack that was expanded is no longer current. |
| `Progressive.LosePack` | cli/src/context/progressive.ts:294-303 | Opening a pack and expanding it when the accounting cannot be written leaves the caller an error: the first handle is no longer current, and of the one session left the caller is told nothing. |
| `Waves.Choose` | scripts/test-wave-zai.ts:89-98 | The scan picks exactly the ready tasks and their indices in ascending order. |
| `Waves.SpliceAll` | scripts/test-wave-zai.ts:105 | Splicing at descending indices removes exactly the chosen tasks. |
| `Waves.GroupIntoWaves` | scripts/test-wave-zai.ts:84-111 | The waves hold every task once, each as early as possible; it throws if and only if some tasks wait only for unknown ids and each other. |
| `Waves.NoneEarlier` | scripts/test-wave-zai.ts:84-111 | No schedule that respects the dependencies runs a task before its wave. |
| `Handoff.EstimateTokens` | cli/src/daemon/handoff.ts:123-130 | A token for every four characters of the prompt and the history, rounded up. |
| `Handoff.TruncateContext` | cli/src/daemon/handoff.ts:135-163 | Drops the least number of messages after the first for which the estimate fits or two remain. |
| `Handoff.FitIsMonotone` | cli/src/daemon/handoff.ts:135-163 | Dropping more never costs tokens, so no dropped message could have been kept. |
| `Handoff.TruncationKeepsEnds` | cli/src/daemon/handoff.ts:144-151 | The first and the last message of two or more survive, and order is kept. |
| `Handoff.LeastDropShrinks` | cli/src/daemon/handoff.ts:135-163 | A higher limit never drops more. |
| `Handoff.OneSystemMessage` | cli/src/daemon/handoff.ts:47-118 | A rebuilt conversation has one system message, in front, and preparing it again changes nothing. |

## Left out

- SeamAgreement.DispatchAgreesWithReconcile: speaks of a row as a handoff leaves it and of a process that lives through the call; negative verdicts differ by design.
- CapPipeline.PipelineOrderIndependent: assumes that the comparison tells different ids apart, as it does for hexadecimal digests.
- ContextChanges.MergeLosesNothing: assumes that equal ids have equal references, as ids that hash them do.
- ContextRuns.SourcesKnownIff: assumes distinct item ids; a package in which two items share an id is outside its statement.
- Diagnostics, `client.close()`, buffered-amount limits and serialization of envelopes: a send is an input that works, is not writable, or fails.
- A `send` that calls back into the projection before it returns: the model takes a send as one step.
- State objects shared by reference in the projection: a registration number stands for the identity the source compares.
- Field-by-field validators of event payloads: one input says whether an envelope's fields are valid.
- Numbers that are not integers, integers from 1e21 on (printed with an exponent by JavaScript), functions and inherited properties in canonical JSON and schemas: values are plain data.
- Descriptor validation and secret detection: parameters of the registry; only the id, the shape and the identity fields are modelled.
- `localeCompare`: an order given by a rank, with ties where it has them.
- Messages of schema problems: a problem carries its kind, its path and its bound.
- Mission state, approvals, plan revalidation, split-brain comparison and descriptor conformance: inputs that open or close the gates in front of a dispatch.
- What evidence references say, errors, correlation ids and mission rows: only the number of stored references steers a decision.
- Arithmetic of retry backoff: the time at which a retry may run is an input.
- Facts that arrive after a cancellation: a cancelled row never changes in the store, so only acceptance is modelled.
- `reacquireCompletedInvocation`: it writes nothing to a completed row.
- Calls that run at the same time on one invocation or one pack: runs are sequential, with crashes.
- Hashes, ids and clocks: hashes are what they hash, ids and clock readings are inputs, and no time leaves the range of a date.
- Errors raised by the engine and its store: they carry text, so only what connectors and the verification authority raise may defy a note.
- Sealing of reads by private brands: a visibility fact; sealed batches are inputs whose envelopes are checked.
- Token limits that are not numbers in `truncateContext`: the limit is a real number.
- Result rows, `requestIds`, `sourceAnchors` and byte counts of a context pack: accounting that no decision reads.
- HTTP, WebSocket and socket transports, the command line, bridges, the web interface and SQL text: plumbing.
