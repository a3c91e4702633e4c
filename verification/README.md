# FlowSplice: a verified model of its protocols

FlowSplice carries TCP flows from a Travel client to a Home over interchangeable Relays, under the
authority of one Server. This project models the parts of it that are protocols or long-lived
state, and proves properties of them that hold over every run.

| module | what it models |
|---|---|
| `Transfer`, `TransferLemmas` | one end of a TCP flow: segments, window, byte credit, the reader, `acknowledge` and `retransmit` |
| `HomeFlow`, `TravelFlow` | the event loops of Home and of Travel; `HomeFlow.Flow` is Home's loop state as a class |
| `FlowSystem`, `FlowInvariant`, `FlowLinks`, `FlowSteps` | Home, Travel and the Carriers between them as one system, its invariant, and its preservation |
| `FlowTheorems`, `FlowUpload`, `FlowEnding` | what holds of every reachable flow, the upload direction with its own invariant, and the end of Home's stream |
| `FlowProgress`, `FlowFinish`, `FlowWitness` | what each event achieves, exactly when an end can finish or gives up, a run that ends with success at both ends, and two runs in which a flow ends although nothing failed |
| `Directory`, `Generations` | the Relay directory, its validator, and the durable generation counter over crashes |
| `Credentials`, `Authorization`, `AuthorizationHistory` | signed objects, the Server's authorization state, and every run of it with failed stores and restarts |
| `Ledger`, `Issuance`, `IssuanceLoss` | a Home's issuance ledger, Homes approving requests against the Server, and when a request can never be approved again |
| `RelayRoutes`, `RouteEffects`, `RouteProtocol`, `RouteOpening` | a Relay's route table and pairing, the grant / store / announce / open protocol, and for both what each step achieves and exactly when |
| `Catalog`, `Discovery` | the Server's catalog filter, service-class discovery, and Home admission |
| `TravelSessions` | Travel session leases |
| `Requests`, `Tasks` | the Relay's request correlation table, and Home's task pool and its shutdown |

Every system is a state machine: a datatype of states, a datatype of actions, `Enabled`, `Apply`
and `Run`. Actions that cannot happen are skipped, so every finite interleaving is some trace. Parts
of the source that change fields in place are classes whose methods are proved equal to the step
functions the theorems are about.

How the outside world enters the model:

- A Carrier is a FIFO in each direction. Either direction may be cut at any moment, losing what is in
  flight. Frames repeat because both ends resend their window on a newly selected Carrier.
- An atomic file replacement ends in one of three ways (`StoreOutcome`): done, failed with the old
  file in place, or failed with the new file already in place. A crash may follow any step.
- A signature is the key it verifies under plus a salt; a MAC is what it authenticates plus its
  secret; a digest stands for the content it was taken of. UUIDs are fresh where the source draws
  them. Textual format checks of signed objects are boolean fields.
- Clocks are parameters. Only the lease and session clock has to be monotone.
- Both byte streams of a flow stay below 2^64 bytes (`FlowSystem.Fits`); offsets use saturating
  addition as in the source.

## Where the code does less than its documentation says

README.md:39-43 of FlowSplice says that after a Carrier fails the flow can continue over another Relay.
The model follows the code, and there a flow may end although no Carrier, peer or timer failed:

- `FlowWitness.OvertakenCandidateEndsFlow`: Travel treats the offset in a candidate's OPEN answer as
  an acknowledgement and bails when it is behind one already processed on the active Carrier.
- `FlowWitness.HandoverCanEndFlow`: data that Travel sent on the old Carrier before hearing of Home's
  selection is answered with Close, and Close ends Travel's loop.

`FlowTheorems.HomeClosesExactlyWhen`, `TravelEndsExactlyWhen` and `OpenedEndsExactlyWhen` give, for
every reachable state, the exact frames on which this happens; no other frame ends a flow between
these two ends. Nothing that was delivered is ever wrong: `ExactlyOnceInOrder` holds in those runs too,
and `FlowUpload.UploadLosesNothing` shows that refused data is never lost without a Close on its way.

The ledger exists so that a retry returns the credential issued first (homeagent/src/main.rs:2582-2603).
It does not always: `insert_pending` keeps the record in memory when its write fails, so a retry may
publish a credential that no file has, and a restart then forgets it.

- `IssuanceLoss.RequestCanBeLost`: such a run, in which the Server fails nothing and no message is lost.
- `IssuanceLoss.ApprovableExactlyWhenKnown`: once the Server holds a credential signed for a request,
  the request can be approved again if and only if some ledger still has that credential.

A Relay sweeps its stored routes when a snapshot arrives (relay/src/main.rs:2470-2478), so one would
expect that no stored route has a credential revoked in the published snapshot. The Relay does not look
at the snapshot when it stores a route (relay/src/main.rs:1969-1986): a grant that was asked for before
the snapshot may arrive after it.

- `RouteEffects.RevokedRouteCanBeStored`: such a run.
- `RouteEffects.NoRevokedRouteExactlyWhen`: over every run, no stored route ever has a credential that
  the published snapshot, or the one being applied, revokes or lacks, if and only if no route is stored
  for a grant whose credential was already so.
- No socket is let in on such a route: `RouteEffects.AdmittedExactlyWhen`.

## Model

| member | source | states |
|---|---|---|
| `FlowTheorems.ExactlyOnceInOrder` | crates/flowsplice-home-core/src/tcp_flow.rs:427-569 | in every reachable state, what each end wrote is exactly the prefix, of the length of its receive offset, of the stream read at the other end |
| `FlowTheorems.CleanEndIsComplete` | crates/flowsplice-home-core/src/tcp_flow.rs:414-425 | an end that returns success, or only fails to drain its Carriers in time, has received the whole peer stream and its own stream was received whole |
| `FlowTheorems.HandoverLosesNothing` | crates/flowsplice-home-core/src/tcp_flow.rs:485-518 | on the selected Carrier, while it is not cut, the queued frames take Travel exactly to Home's send offset, each Data frame accepted whole or answered as a duplicate |
| `FlowTheorems.DrainedMeansDelivered` | crates/flowsplice-home-core/src/tcp_flow.rs:485-518 | once Travel has taken what is queued on the selected Carrier, it has written every byte Home has sent, whatever was lost on earlier Carriers |
| `FlowUpload.UploadLosesNothing` | crates/flowsplice-travel-core/src/tcp_flow.rs:1113-1149 | while Travel runs, its active Carrier is uncut and no Close is queued for it, the frames queued there take Home exactly to Travel's send offset, each Data frame accepted whole or answered as a duplicate |
| `FlowUpload.UploadDrained` | crates/flowsplice-travel-core/src/tcp_flow.rs:802-855 | once Home has taken them, it has written every byte Travel has sent |
| `FlowUpload.AgreedCarrierRefusesOnlyStaleAcks` | crates/flowsplice-home-core/src/tcp_flow.rs:519-618 | if moreover Home has selected the same Carrier, it answers the next frame with Close exactly when that is a stale acknowledgement |
| `FlowUpload.UpStepKeeps` | crates/flowsplice-travel-core/src/tcp_flow.rs:428-990 | every action keeps the upload invariant: either the active Carrier carries all that Home misses, or it is cut or a Close is queued on it |
| `FlowTheorems.ResendServesAnyBoundary` | crates/flowsplice-home-core/src/tcp_flow.rs:771-811 | the resent window brings a receiver at any segment boundary of it to the send offset |
| `FlowTheorems.WindowAndCredit` | crates/flowsplice-home-core/src/tcp_flow.rs:349-392 | windows tile exactly, credit is conserved, a reader never needs more than the total, and neither the data limit nor a split ACK is ever met |
| `FlowTheorems.RacesAgree` | crates/flowsplice-home-core/src/tcp_flow.rs:470-518 | winners and order hold the same at most 32 ids without repeats, two selections of one race id are more than 32 selections apart, and Home has an attached active Carrier or a running deadline, never both or neither |
| `FlowTheorems.HomeOutlivesFrames` | crates/flowsplice-home-core/src/tcp_flow.rs:468-618 | no frame of an honest Travel ends Home's loop |
| `FlowTheorems.HomeClosesExactlyWhen` | crates/flowsplice-home-core/src/tcp_flow.rs:519-618 | Home answers Close exactly on a stale acknowledgement, a FIN ahead of its data, or unreceived data that is not next on the active Carrier |
| `FlowTheorems.TravelEndsExactlyWhen` | crates/flowsplice-travel-core/src/tcp_flow.rs:878-990 | a frame ends Travel's loop exactly when it is Close or a stale acknowledgement |
| `FlowTheorems.OpenedEndsExactlyWhen` | crates/flowsplice-travel-core/src/tcp_flow.rs:428-790 | a candidate's OPEN answer ends Travel's loop exactly when a later acknowledgement overtook it |
| `FlowProgress.HomeTakesFrame` | crates/flowsplice-home-core/src/tcp_flow.rs:468-618 | in every state of the invariant, whatever honest frame Home takes has its effect: a current acknowledgement moves the window, the next data on the selected Carrier is written and acknowledged, old data is answered as a duplicate, a FIN behind all data is noted and answered, every FIN-ACK is for Home's own end of stream and is noted, a new race selects its Carrier, gets the window and stops the deadline |
| `FlowProgress.TravelTakesFrame` | crates/flowsplice-travel-core/src/tcp_flow.rs:878-990 | the same for every frame that does not end Travel's loop; the answer to its race moves it to the winner, which gets the whole window |
| `FlowProgress.HomeNotes` | crates/flowsplice-home-core/src/tcp_flow.rs:582-675 | under every action Home notes the end of the peer stream, the FIN-ACK and its own end of stream exactly when it takes them, and forgets none |
| `FlowProgress.TravelNotes` | crates/flowsplice-travel-core/src/tcp_flow.rs:840-983 | the same for Travel |
| `FlowProgress.HomeFinishesExactlyWhen` | crates/flowsplice-home-core/src/tcp_flow.rs:414-425 | over every run Home can finish if and only if it still runs, both ends of stream and a FIN-ACK were taken along the run, and everything it sent is acknowledged |
| `FlowProgress.TravelFinishesExactlyWhen` | crates/flowsplice-travel-core/src/tcp_flow.rs:233-240 | the same for Travel, which must not be in a race |
| `FlowProgress.ExpiresExactlyWhen` | crates/flowsplice-home-core/src/tcp_flow.rs:619-681 | over every run Home gives a flow up if and only if it has had no selected Carrier, since its start or since the loss of the last one, for the detach timeout |
| `FlowProgress.HomeLocalTakesEffect` | crates/flowsplice-home-core/src/tcp_flow.rs:631-675 | what the target reader queued becomes the next segment or the end of stream, never fails, and is sent on the selected Carrier |
| `FlowProgress.TravelLocalTakesEffect` | crates/flowsplice-travel-core/src/tcp_flow.rs:802-855 | the same for Travel |
| `FlowProgress.HomeAttachesCarrier` | crates/flowsplice-home-core/src/tcp_flow.rs:427-460 | a Carrier that arrives is new to Home, is attached, and is told both offsets |
| `FlowProgress.LostCarrierIsDetached` | crates/flowsplice-home-core/src/tcp_flow.rs:619-630 | a closed Carrier is detached at either end, and only losing the selected one leaves none selected |
| `FlowProgress.OpenedCandidateRaces` | crates/flowsplice-travel-core/src/tcp_flow.rs:428-640 | an OPEN answer that is not stale makes its Carrier a candidate, counts as an acknowledgement, and asks for the race over that Carrier |
| `FlowUpload.LostRaceKeepsActive` | crates/flowsplice-travel-core/src/tcp_flow.rs:779-788 | in every reachable state losing a race keeps Travel on the Carrier it has and gives up only the candidates |
| `FlowEnding.EndIsNotLost` | crates/flowsplice-home-core/src/tcp_flow.rs:485-518 | once Home's stream ended, while its selected Carrier is not cut, Travel has noted the end or a FIN is queued there |
| `FlowEnding.DrainedEndIsDelivered` | crates/flowsplice-home-core/src/tcp_flow.rs:665-675 | once Travel has taken what is queued there, it has written Home's whole stream and knows that it ended |
| `FlowFinish.FlowCanFinish` | crates/flowsplice-home-core/src/tcp_flow.rs:414-425 | an undisturbed run uploads a byte and ends with success at both ends |
| `FlowWitness.OvertakenCandidateEndsFlow` | crates/flowsplice-travel-core/src/tcp_flow.rs:428-790 | an undisturbed run in which an overtaken candidate ends the flow |
| `FlowWitness.HandoverCanEndFlow` | crates/flowsplice-home-core/src/tcp_flow.rs:519-569 | an undisturbed run in which a handover ends the flow |
| `FlowSteps.StepKeeps` | crates/flowsplice-home-core/src/tcp_flow.rs:404-686 | every action of Home, Travel, the Carriers and the environment keeps the flow invariant |
| `FlowSteps.RunKeeps` | crates/flowsplice-home-core/src/tcp_flow.rs:404-686 | every finite run keeps it |
| `TransferLemmas.AckExactlyOnBoundaries` | crates/flowsplice-home-core/src/tcp_flow.rs:813-837 | an ACK inside the window is accepted if and only if it falls on a segment boundary |
| `TransferLemmas.AcknowledgeKeeps` | crates/flowsplice-home-core/src/tcp_flow.rs:813-837 | accepting it leaves a window that tiles exactly from the acknowledged offset |
| `TransferLemmas.AcknowledgeCredit` | crates/flowsplice-home-core/src/tcp_flow.rs:819-828 | the credit released is exactly the bytes that left the window |
| `TransferLemmas.CreditSuffices` | crates/flowsplice-home-core/src/tcp_flow.rs:631-640 | conserved credit keeps a queued event within the unacknowledged-data limit |
| `TransferLemmas.ReaderStepKeeps` | crates/flowsplice-home-core/src/tcp_flow.rs:349-392 | every step of the reader conserves credit and the order of what it read |
| `TransferLemmas.TakeLocalKeeps` | crates/flowsplice-home-core/src/tcp_flow.rs:631-675 | cutting a read into a segment keeps the window, the credit and the stream |
| `TransferLemmas.ConsumeReaches` | crates/flowsplice-home-core/src/tcp_flow.rs:519-569 | frames cut from a sender's log that start no later than a receiver stands are all taken or recognised, and bring it to their end |
| `Transfer.Acknowledge` | crates/flowsplice-home-core/src/tcp_flow.rs:813-837 | the pop loop computes the specified window, byte count, released credit and split verdict |
| `Transfer.Retransmit` | crates/flowsplice-home-core/src/tcp_flow.rs:771-811 | the loop sends the whole window in order, then FIN if the local stream ended |
| `HomeFlow.RememberKeeps` | crates/flowsplice-home-core/src/tcp_flow.rs:485-499 | remembering a new race keeps the memory bounded, exact and equal to the newest selections |
| `HomeFlow.FramesKeepRaces` | crates/flowsplice-home-core/src/tcp_flow.rs:468-618 | any frame from anyone keeps the race memory in order |
| `HomeFlow.Flow.HandleFrame` | crates/flowsplice-home-core/src/tcp_flow.rs:468-618 | the loop's handling of every frame is exactly the modelled step, whose effect on both ends of a flow is `FlowProgress.HomeTakesFrame` |
| `HomeFlow.Flow.HandleRace` | crates/flowsplice-home-core/src/tcp_flow.rs:470-518 | a known race is answered with its winner; a new one selects the Carrier, is remembered, and resends the window |
| `HomeFlow.Flow.HandleData` | crates/flowsplice-home-core/src/tcp_flow.rs:519-569 | accept, duplicate or Close, as modelled |
| `HomeFlow.Flow.HandleAck` | crates/flowsplice-home-core/src/tcp_flow.rs:570-581 | an accepted ACK moves the endpoint as `Acknowledged` says; a split one fails the flow with the covered segments popped and the acknowledged offset unmoved |
| `HomeFlow.Flow.HandleFin` | crates/flowsplice-home-core/src/tcp_flow.rs:582-597 | the end of the peer stream is recorded and answered |
| `HomeFlow.Flow.RememberRace` | crates/flowsplice-home-core/src/tcp_flow.rs:485-499 | the eviction loop computes the specified memory |
| `HomeFlow.Flow.Attach` | crates/flowsplice-home-core/src/tcp_flow.rs:427-460 | a new Carrier is attached once and told both offsets |
| `HomeFlow.Flow.CarrierClosed` | crates/flowsplice-home-core/src/tcp_flow.rs:619-630 | losing the active Carrier sets the detach deadline to the time of the loss plus the timeout |
| `HomeFlow.Flow.TargetData` | crates/flowsplice-home-core/src/tcp_flow.rs:631-664 | a read becomes the next segment and is sent on the active Carrier |
| `HomeFlow.Flow.TargetEof` | crates/flowsplice-home-core/src/tcp_flow.rs:665-675 | the end of the target stream is recorded and sent |
| `HomeFlow.Flow.CheckComplete` | crates/flowsplice-home-core/src/tcp_flow.rs:414-425 | the flow ends exactly when both streams have ended and everything is acknowledged, with success if the Carriers drain in time and an error otherwise |
| `Generations.GenerationsIncrease` | server/src/main.rs:251-268 | over crashes, failed stores and restarts every allocated generation is positive and larger than all before |
| `Generations.DrawnExactlyWhen` | server/src/main.rs:2132-2218 | a generation is handed out if and only if the counter is not exhausted and was stored; it is larger than every earlier one, and the directory built with it lists the Relay that advertised itself and no longer the one that withdrew or left |
| `Generations.StartsExactlyWhen` | server/src/main.rs:251-268 | the Server starts if and only if the counter file holds a usable generation and is advanced |
| `Generations.EqualGenerationsEqualDirectories` | server/src/main.rs:2132-2218 | two directories ever built with equal generation are equal |
| `Generations.RelayNeverRejects` | relay/src/main.rs:2524-2550 | whatever directory reaches a Relay in whatever order is valid and never conflicts with the one it holds |
| `Generations.RelayNeverGoesBack` | relay/src/main.rs:2524-2550 | a running Relay's directory generation never decreases |
| `Generations.NewestWins` | relay/src/main.rs:2524-2550 | under any arrival order a Relay ends with the newest valid directory it has seen |
| `Generations.ControlSigner.AllocateGeneration` | server/src/main.rs:251-268 | counter, file and result after each store outcome |
| `Directory.ListEndpoints` | server/src/main.rs:434-445 | the built list is complete, contains nothing else, and is strictly ordered by id |
| `Directory.ListingDetermined` | server/src/main.rs:434-445 | the list depends on the registry alone, not on the order of the map |
| `Directory.Registry.ReplaceSession` | server/src/main.rs:416-432 | the session is replaced and the listing of the new registry returned |
| `Directory.Registry.UpdateSession` | server/src/main.rs:447-462 | only the current session updates its endpoint; otherwise nothing changes |
| `Directory.Registry.UnregisterSession` | server/src/main.rs:464-480 | only the current session is removed; otherwise nothing changes |
| `Directory.Validate` | relay/src/main.rs:2489-2522 | comparing neighbours decides the whole strict order, and every endpoint is checked |
| `Directory.Relay.ApplyDirectory` | relay/src/main.rs:2524-2550 | stale, repeated, conflicting and newer directories are told apart, and only a newer one is adopted |
| `AuthorizationHistory.HistoryOnlyGrows` | server/src/authorization.rs:216-444 | over every run with restarts each state keeps everything of the earlier ones, fingerprints stay unique, and equal generations mean equal states |
| `AuthorizationHistory.GenerationMarksChange` | server/src/authorization.rs:216-444 | a proposed state is adopted if and only if it was stored; the generation rises by one exactly when memory changes; a failed operation changes nothing in memory |
| `AuthorizationHistory.RestartNeverFails` | server/src/authorization.rs:116-145 | whatever was persisted, even by a store that reported failure, passes all reload checks |
| `AuthorizationHistory.RevokedForGood` | server/src/authorization.rs:343-387 | a revoked credential is active in no later state at any time |
| `AuthorizationHistory.CredentialAcceptedExactlyWhen` | server/src/authorization.rs:389-444 | in a good state an import goes through if and only if the credential is genuine, of this deployment, from its authority's Home, new in id and request, and fits the limits; the re-verification of the whole state never refuses it; it is added behind the others, and answered as done if and only if its payload is held |
| `AuthorizationHistory.RevocationAcceptedExactlyWhen` | server/src/authorization.rs:343-387 | a known credential is revoked if and only if its authority's Home asks, it is not revoked yet, and reason, time and limits are in order; it is answered as done if and only if it is revoked already |
| `AuthorizationHistory.EndpointAcceptedExactlyWhen` | server/src/authorization.rs:216-259 | in a good state an endpoint is taken if and only if it is genuine and valid now, its Home's grant binds it, no stored endpoint of the Home is valid now, the authorities it delegates are new, and counter and limits allow it; it is added behind the others and nothing else changes; it is answered as done if and only if it is the one the Home holds |
| `AuthorizationHistory.BusinessAcceptedExactlyWhen` | server/src/authorization.rs:261-320 | the same for a business Home: endpoint and grant genuine and valid now, the Home without grant, valid endpoint or static trust, the endpoint not stored yet |
| `AuthorizationHistory.UnknownIsNotRevoked` | server/src/authorization.rs:349-352 | revoking an unknown credential is refused |
| `AuthorizationHistory.RelayAcceptsExactlyNewer` | internal/flowsplice-core/src/authorization.rs:678-706 | a Relay's cache accepts a published state if and only if it is not older than the one accepted before |
| `AuthorizationHistory.WrittenIsAccepted` | server/src/main.rs:2356-2373 | whatever order snapshots are queued in, all that a session writes is accepted by the Relay |
| `AuthorizationHistory.WrittenNext` | server/src/main.rs:2356-2373 | of the queued snapshots exactly those are written that no earlier one is newer than |
| `AuthorizationHistory.RelayWriter.Write` | server/src/main.rs:2356-2373 | older snapshots are withheld and the others written in order |
| `AuthorizationHistory.FreshStateLoads` | server/src/authorization.rs:28-43 | the initial empty state passes the reload checks |
| `Authorization.Verify` | internal/flowsplice-core/src/authorization.rs:446-528 | the verification loops decide signatures, unique ids and well-founded unique revocations |
| `Authorization.CollectAuthorities` | internal/flowsplice-core/src/deployment.rs:444-471 | root and delegated authorities are collected exactly when all endpoints are genuine and ids unique |
| `Authorization.CheckLoad` | server/src/authorization.rs:116-145 | the reload checks hold exactly when size, signatures, used fingerprints and grant bindings do |
| `Authorization.ServerAuthorization.ImportHomeEndpoint` | server/src/authorization.rs:216-259 | memory, file and answer after the import, for every store outcome; an endpoint is only added where the Home has none valid now |
| `Authorization.ServerAuthorization.ImportBusinessHome` | server/src/authorization.rs:261-320 | the same for a business Home with its grant |
| `Authorization.ServerAuthorization.RevokeFromHome` | server/src/authorization.rs:343-387 | the same for a revocation |
| `Authorization.ServerAuthorization.ImportTravelCredential` | server/src/authorization.rs:389-444 | the same for a credential |
| `Issuance.OneRequestOneCredential` | homeagent/src/main.rs:2581-2664 | any two successful approvals of a request return the same signed credential, and the Server holds it in memory and on disk |
| `Issuance.ServerHoldsOneCredential` | server/src/authorization.rs:389-444 | in no state does the Server hold two credentials for one request fingerprint |
| `Issuance.RepeatsAreRecognised` | server/src/authorization.rs:402-424 | publishing the held credential again is answered as done, publishing another for the same request is refused |
| `Issuance.LedgerAlwaysLoads` | homeagent/src/issuance_ledger.rs:205-256 | whatever a ledger write left behind loads at the next start |
| `Issuance.RetriedExactly` | homeagent/src/main.rs:2582-2603 | in every reachable state a retry changes nothing unless it is for the recorded intent and presentation and its credential is not known to be revoked or out of its validity; then a published credential is returned and another is sent to the Server again |
| `Issuance.FirstApproval` | homeagent/src/main.rs:2604-2664 | a request not issued before is refused if its id was used for other content; otherwise it is recorded, and published once the ledger is written |
| `Ledger.ValidateState` | homeagent/src/issuance_ledger.rs:205-256 | the load loop decides that records are well formed and share neither credential, fingerprint nor request id |
| `IssuanceLoss.ApprovableExactlyWhenKnown` | homeagent/src/main.rs:2581-2664 | once the Server holds a credential a Home signed for a request, some run approves the request again if and only if some Home still has that credential in its ledger |
| `IssuanceLoss.LostForGood` | homeagent/src/main.rs:2581-2664 | when all Homes have forgotten it, no run from there approves the request, at any Home |
| `IssuanceLoss.KnownIsApprovable` | homeagent/src/main.rs:2582-2603 | a Home that has it, in memory or on file, can be brought to approve the request |
| `IssuanceLoss.RequestCanBeLost` | homeagent/src/issuance_ledger.rs:142-166 | a run with one failed ledger write, a retry and a Home restart ends with a lost request |
| `Ledger.MarkedIs` | homeagent/src/issuance_ledger.rs:168-182 | marking changes the publication of one record with that credential and nothing else |
| `Ledger.IssuanceLedger.FindRecord` | homeagent/src/issuance_ledger.rs:127-140 | a reused request id, no record, or the first record of the content |
| `Ledger.IssuanceLedger.InsertPending` | homeagent/src/issuance_ledger.rs:142-166 | the record enters memory before the file, and stays when the write fails |
| `Ledger.IssuanceLedger.MarkPublished` | homeagent/src/issuance_ledger.rs:168-182 | memory, file and result after marking |
| `RelayRoutes.PairingSafety` | relay/src/main.rs:2157-2226 | no stored route holds both sockets, a route is paired at most once, each pair was admitted by route id and by the same route's work id before expiry under an active credential, and route permits are conserved |
| `RelayRoutes.SocketsUsedOnce` | relay/src/main.rs:2157-2226 | a socket belongs to one side of one pair only |
| `RelayRoutes.ResolvesToOne` | relay/src/main.rs:2278-2289 | a preface names at most one stored route |
| `RelayRoutes.RouteTable.Arrive` | relay/src/main.rs:2157-2226 | one data connection: resolved, checked, seated, and paired when it is the second |
| `RelayRoutes.RouteTable.AdmitTo` | relay/src/main.rs:2301-2332 | admission of a socket to a resolved route, with the pair it completes |
| `RelayRoutes.RouteTable.Resolve` | relay/src/main.rs:2278-2289 | finds a matching route whenever there is one |
| `RelayRoutes.RouteTable.Cleanup` | relay/src/main.rs:2350-2370 | a route stays if and only if it has not expired, and each that goes returns its permit |
| `RelayRoutes.Retained` | relay/src/main.rs:2350-2370 | the retain loop keeps exactly the routes that satisfy its test and counts the others |
| `RelayRoutes.RouteTable.ApplySnapshot` | relay/src/main.rs:2446-2487 | a snapshot that fails verification, the rollback check or the cache write changes nothing in memory; otherwise it is remembered, exactly the routes whose credential it finds active stay, and it is published |
| `RouteEffects.SweptExactly` | relay/src/main.rs:2470-2478 | after a snapshot exactly those routes are stored that were stored before and whose credential the snapshot lists, within its validity and not revoked; the others returned their permits |
| `RouteEffects.ExpiredExactly` | relay/src/main.rs:2350-2370 | after a cleanup exactly those routes are stored that were and have not expired |
| `RouteEffects.AdmittedExactlyWhen` | relay/src/main.rs:2301-2332 | over every run a connection is let in if and only if it names a stored, unexpired route by the identifier of its side, proves that side's secret, the published authorization covers the credential, and nobody was let in on that side before; otherwise nothing changes |
| `RouteEffects.PairedExactlyWhenBothAdmitted` | relay/src/main.rs:2157-2226 | over every run a route is paired if and only if a socket was let in on each side of it |
| `RouteEffects.NoRevokedRouteExactlyWhen` | relay/src/main.rs:1969-1986 | throughout a run no stored route has a credential revoked by or missing from the published snapshot, or the one being applied, if and only if no route is stored for a grant whose credential was already so |
| `RouteEffects.RevokedRouteCanBeStored` | relay/src/main.rs:1969-1986 | a run that ends with a stored route whose credential the published snapshot revokes |
| `RouteProtocol.OpeningSafety` | server/src/main.rs:2220-2337 | a Home is told to open a work id at most once, before the Server's grant of it expires, and only after the named Relay stored a route with that work, credential and Home, on a grant the Server authorized |
| `RouteProtocol.StoredRoutesAreGranted` | relay/src/main.rs:1940-1986 | every route a Relay ever stored carries the work, secret, credential and Home of one grant to that Relay, and lives no longer than that grant had left when the route was stored |
| `RouteProtocol.PairsAreGranted` | relay/src/main.rs:2157-2226 | at every Relay of the protocol no stored route holds both sockets, a route is paired at most once by two proper admissions, permits are conserved, and every pair is for a grant to that Relay, without assuming fresh work ids |
| `RouteProtocol.PendingGrants.Take` | server/src/main.rs:2375-2392 | readiness matches if and only if the entry under its request has the announcing Relay, the announced work and has not expired; what stays pending |
| `RouteOpening.GrantedExactlyWhen` | server/src/main.rs:2220-2317 | once lease and Home availability are settled, an ask is granted if and only if there is room and its Travel identity has an active credential that reaches the Home; the work then matches its own Relay's announcement, and no other, for its lifetime |
| `RouteOpening.OpensExactlyWhen` | server/src/main.rs:2319-2392 | an announcement makes the Server tell a Home if and only if the work pending under its request is its Relay's, is the announced work and has not expired, and the Home's queue takes it; it spends the entry if and only if Relay and work match |
| `RouteOpening.StoredExactlyWhen` | relay/src/main.rs:1940-1986 | in every reachable state a grant is stored as a route if and only if its asker still waits for that credential and Home and the grant has time left; the route lives as long as the grant has left or as long as routes may, whichever is less |
| `RouteOpening.RouteCanBePaired` | relay/src/main.rs:2157-2226 | a run in which work is granted, stored, announced and opened and its route paired |
| `RouteProtocol.PendingGrants.Insert` | server/src/main.rs:2269-2301 | pending work is bounded, and a repeated request id replaces the older entry |
| `Discovery.DiscoveryIgnoresFilter` | crates/flowsplice-travel-core/src/service_class.rs:295-352 | discovery over the filtered catalog returns the same targets, in order and by name, as over the whole catalog whenever the class is among the credentials |
| `Discovery.DiscoveredIsAdmitted` | crates/flowsplice-home-core/src/lib.rs:175-191 | every target found through the filter belongs to a Home whose grant holds and which admits the class to it |
| `Discovery.AdmittedExactlyWhenDiscovered` | crates/flowsplice-home-core/src/lib.rs:175-191 | a Home serving its catalog entry admits the class to a service if and only if discovery lists it |
| `Discovery.DiscoversExactly` | crates/flowsplice-travel-core/src/service_class.rs:295-352 | discovery runs if and only if the class is well formed and the trust valid now, and lists exactly the services that some Home of the catalog, whose grant holds, admits the class to |
| `Discovery.TargetsAreNamed` | crates/flowsplice-travel-core/src/service_class.rs:295-352 | a target carries its Home's id and alias, and its service's alias if and only if the Home offers several |
| `Discovery.Targets` | crates/flowsplice-travel-core/src/service_class.rs:295-352 | the loop computes the specified targets, or fails on a bad class or expired trust |
| `Catalog.FilterIdempotent` | server/src/main.rs:3127-3203 | filtering a filtered catalog changes nothing |
| `Catalog.FilteredHomes` | server/src/main.rs:3132-3203 | a filtered catalog holds exactly the entries that are shown, each cut to its shown services |
| `Catalog.FilterConcat` | server/src/main.rs:3132-3203 | filtering goes entry by entry and keeps the order |
| `Catalog.FilterUnion` | server/src/main.rs:3127-3203 | filtered by a union of credential sets the catalog lists exactly the Homes and services it lists under either |
| `Catalog.FilterMonotone` | server/src/main.rs:3127-3203 | more credentials never hide a Home or a service of the catalog |
| `Catalog.ShownServiceIs` | server/src/main.rs:3159-3178 | a service is shown exactly when listed, its Home's restriction holds, and some scope allows it |
| `Catalog.ShownHomeIs` | server/src/main.rs:3137-3196 | a Home is shown exactly when its restriction holds and a service of it is shown or a non-class scope reaches it |
| `Catalog.ScopeOffersExactly` | internal/flowsplice-core/src/authorization.rs:388-411 | credentials of one scope list exactly the services that scope is for, of Homes whose restriction holds; those of a service scope list that one service of that Home over that transport |
| `Catalog.ScopeShowsExactly` | server/src/main.rs:3137-3196 | credentials of one scope show a Home if and only if its restriction holds and the scope reaches it, a class through a service it lists |
| `TravelSessions.MutualExclusion` | server/src/main.rs:484-517 | when a session is authorized, every lease ever granted to another session of the Travel id has been released or has expired |
| `TravelSessions.LeaselessCallNeedsLiveLease` | server/src/main.rs:484-517 | a call without a lease succeeds if and only if its session holds a granted lease neither released nor expired |
| `TravelSessions.GrantedExactlyWhen` | server/src/main.rs:484-517 | over every run a call with a lease is granted if and only if the session id is not nil and every lease ever granted to another session of the Travel id was released or has expired; the lease then runs for 45 seconds |
| `TravelSessions.HeldUntilExpiry` | server/src/main.rs:484-526 | until then the lease is held, whatever is asked of the registry meanwhile, unless its own session gives it back |
| `TravelSessions.Registry.Authorize` | server/src/main.rs:484-526 | registry and verdict after a call |
| `TravelSessions.Registry.Release` | server/src/main.rs:528-539 | only a held lease is released, and the last one ends the session |
| `Requests.Correlated` | relay/src/requests.rs:25-112 | of all registrations under a key at most one is neither answered nor ended, the table holds exactly those waiters, a waiter gets at most one value, and an ended request leaves no entry |
| `Requests.CompletionReachesItsWaiter` | relay/src/requests.rs:56-69 | a value reaches the waiter registered under its key and no one else |
| `Requests.DropKeeps` | relay/src/requests.rs:98-112 | a dropped guard removes its own entry and never a replacement's |
| `Requests.PendingRequests.Register` | relay/src/requests.rs:32-54 | a duplicate is refused; otherwise a new token guards the entry |
| `Requests.PendingRequests.Complete` | relay/src/requests.rs:56-69 | the entry is taken and its waiter gets the value |
| `Requests.PendingRequests.DropGuard` | relay/src/requests.rs:98-112 | the entry goes only if it is still guarded by this token |
| `Tasks.ShutdownDrains` | crates/flowsplice-home-core/src/tasks.rs:31-109 | after stop no task is admitted, and once a `finish` returned no admitted task runs, then or later |
| `Tasks.AdmittedExactlyWhen` | crates/flowsplice-home-core/src/tasks.rs:31-51 | over every run a task is admitted if and only if shutdown was not signalled before, by a stop or a `finish` |
| `Tasks.FinishCanReturn` | crates/flowsplice-home-core/src/tasks.rs:72-86 | once all tasks and blocking work ended, a `finish` that gets the drain lock can join every child and return |
| `Tasks.ReturnsWhenIdle` | crates/flowsplice-home-core/src/tasks.rs:72-86 | `finish` returns only on seeing no child and no blocking work, while holding the drain lock |

## Left out

- Travel's loop is modelled by step functions and not by a class: update in place, candidate ranking, race timers and reevaluation intervals are not captured; any Carrier may be opened at any time during a race, and a race may be given up at any time.
- Queues between tasks are unbounded, so waiting for a full queue is not modelled; draining the Carriers of a finished flow either works or times out, and what they still deliver meanwhile is not followed.
- `TcpFlowRegistry` attach and remove, `HomeRegistry`, UDP sessions, enrollment forwarding and its installation acknowledgement: keyed maps guarded by session ids, easier than the registries modelled here.
- The session lease check, catalog check and Home availability inside the Server's route decision: the model lets the Server refuse any request at any time.
- Data-connection permits of a Relay, and the copying of bytes between paired sockets until the credential becomes inactive.
- Migration of a legacy authorization state, and a deployment trust that changes between restarts.
- Password prompts, key protection and the making of certificates: issuing is one step that yields a credential with a fresh id.
- TLS, framing, redb statistics, metrics, web interfaces, OpenWrt monitoring, packaging: I/O or tooling without a property of this kind.
- Liveness: the theorems are safety properties, exact conditions for single steps, and runs that exist; nothing is claimed about what must eventually happen.
