# Anymone core, modelled and proved in Dafny

Anymone routes anonymous messages through subnets of relays.  A committee schedules
the subnets; within one, clients send blinded or encrypted contributions and the
relays decode only their sum.  This project models the state machines of
`anymone-core` and proves what they promise.

- **Consensus client set** (`ClientSetTypes`, `SetServer`, `AbsorbFacts`, `ClientWindow`,
  `DolevStrong`, `AgreedPool`, `Submissions`, `PoolSpread`, `PlannedRun`,
  `FragmentWitnesses`, `EquivocationWitness`, `Finalize`, `SetAgreement`, `ShortLaneWitness`,
  `ClientSet`, `Codec`, `Repair`, `Plurality`): servers broadcast receipt batches and repair fragments for n-k+1 rounds,
  then each fixes the client set on its own.
- **Scheduled Panetiere** (`ScheduledClient`, `Conservation`, `Delivery`, `DeliveryRuns`): a client reserves
  a slot in one round and writes its payload two rounds later; the relay sees the sum.
- **Relay buckets** (`Relay`, `RelayRuns`, `Recover`): per-round state with an acceptance
  window and collection, the share emission rule, and the culprit-excluding decode loop.
- **Committee scheduler** (`Governance`, `OneConfig`, `Controller`, `Proposal`, `Cadence`):
  proposals, approvals, threshold assembly and adoption; sizing with hysteresis; the body
  generator against its validator; the round clock and its checkpoints.
- **ADCNet** (`Adcnet`, `AdcnetRuns`, `AdcnetRelay`, `AdcnetNetwork`, `AdcnetQueue`): the
  leader's set, shares and combination, where the blinding cancels, the relays that share, and
  the two-round client's queue.
- **Fault tracker and remote session** (`Faults`, `RemoteSession`).

Objects the program updates in place are classes here.  Each method is proved against
a specification function on the object's value (`View()` or `State()`), and the promises
are lemmas about those functions, over single steps and over whole runs.

## Assumptions

- Signatures are ideal: a valid one of an honest signer exists only once that signer made
  it, and statements of different kinds never coincide.  Hashes are injective.
- Upstream cryptography is a value with a contract: the erasure code rebuilds from any
  enough distinct samples, packings are fixed-width and canonical, the slot allocator keeps
  granted slots disjoint, within the cap and only for tags listed once, the verifier names
  entries it was given (and, for the exact results, false ones).
- Relay rounds are synchronous: what an honest server sends in one phase, every other
  honest server has in the next.
- Random draws, coin flips, clocks, and the success of cryptographic steps are parameters.

## What the proofs found

- The controller flaps for ever when `grow_at` is between 1 and 9, because the 10% margin is
  an integer division; it settles for every other value.
- A second `finalize_round` in one round replaces what the first reserved and loses those
  payloads (`Conservation.SecondFinalizeLoses`).  `RemoteAttestedSession` does not make that
  call once the first had a nonempty output (`RemoteSessions.SettledRoundsStay`).
- A scheduled client whose tag and length equal a granted entry takes that entry for its own,
  even when it was left out of the round's canonical set.  A payload survives the sum if and
  only if every other such claim on its slot is all zero (`Delivery.CutIsOwnExactly`).
- A lane short of a client that its own row names under another key serves that other
  bundle instead of abstaining, since `own_bundle` compares the client id alone
  (`Finalize.ShortLaneServes` says exactly when; `ShortLaneWitness.OtherKeyIsServed` is such a
  run, without a fault).
- A lane that signs two rows can leave honest servers with different matrices: each keeps the
  row it was sent first, though all accept both (`EquivocationWitness.TwoRowsSplit`).
- An ADCNet relay that cannot recover an announced member's key stores the set without it, finds
  no secret missing and shares over the shorter set; the comment at
  `crates/anymone-core/src/adcnet.rs:1778` has it stay silent
  (`AdcnetRelays.SharesOverAnnouncedExactly`).
- A client that signs two fragments for one index and hands them to two servers splits their
  pools, with no server at fault (`FragmentWitnesses.TwoSubmissionsSplit`).  A single submission
  leaves a server holding only what it forwards or has accepted if and only if the first and
  last vetted fragment of each index agree or the last was accepted before; one fragment at a
  time, as all callers submit, always does (`Submissions.SubmitBackedExactly`).
- Equal boot keys at the end do not make pools agree: a fragment sent before its key has
  reached the other servers is dropped there and not sent again
  (`FragmentWitnesses.LateKeySplits`).  Keys that arrive everywhere in the same phase do, and
  without faulty messages pools agree if and only if windows agree and keys arrive without a
  gap (`PoolSpread.PoolsAgreeExactly`).
- A round clock that goes back makes a relay emit a collected round a second time
  (`RelayRuns.EmitsTwice`).
- At k = n repair never rebuilds anything.

## Model

| member | source | states |
|---|---|---|
| DolevStrong.Agreement | crates/anymone-core/src/client_set.rs:801-886 | After the relay rounds every honest server has accepted exactly the same batch items, with at most n-k faulty servers that may send anything short of a forged signature |
| DolevStrong.CarriedAgreement | crates/anymone-core/src/client_set.rs:830-866 | An item that is always taken up once sent, accepted by one honest server at the end, is accepted by all: a last-round chain holds n-k+1 signers, one of them honest and earlier |
| DolevStrong.LongChain | crates/anymone-core/src/client_set.rs:830-866 | Every relay an honest server sends in phase r carries at least r+1 distinct valid signers, and a valid batch if it is a batch |
| DolevStrong.AcceptedIsEmitted | crates/anymone-core/src/client_set.rs:801-866 | An honest server has accepted exactly the items it has sent out under its own signature |
| DolevStrong.Forwarded | crates/anymone-core/src/client_set.rs:830-866 | Whatever an honest server sends in a relay round extends a relay it received, over an item new to it and not yet carrying its signature |
| AbsorbFacts.AbsorbAllFacts | crates/anymone-core/src/client_set.rs:830-866 | Absorbing never touches bundles or boot keys, only adds accepted items, and adds exactly those it forwards, each a justified extension |
| AbsorbFacts.BatchDelivered | crates/anymone-core/src/client_set.rs:728-737 | A validly signed batch with a long enough chain ends up accepted whatever else arrives in the round |
| ClientWindow.WindowHolds | crates/anymone-core/src/client_set.rs:671-826 | Over any sequence of window steps, accepted items are exactly those sent, each sent relay is self-signed, and the batch kept is the server's own |
| AgreedPool.HonestRowEverywhere | crates/anymone-core/src/client_set.rs:685-708 | Every honest lane's own row is in every honest server's final matrix |
| AgreedPool.MatrixAgreement | crates/anymone-core/src/client_set.rs:728-737 | When honest servers end having accepted at most one row per lane, all of them end with the same matrix of rows |
| EquivocationWitness.TwoRowsSplit | crates/anymone-core/src/client_set.rs:728-737 | In every system with k < n and two other servers, one faulty lane that signs any two different rows and sends them in opposite orders leaves two honest servers with different matrices, in a valid run with that one fault |
| AgreedPool.PoolAgreement | crates/anymone-core/src/client_set.rs:742-799 | A client whose one boot key honest servers come to know in the same phase, whichever it is, and who has one signed fragment per index has the same coded pieces at every honest server |
| AgreedPool.FragmentCarried | crates/anymone-core/src/client_set.rs:742-786 | Under that condition a fragment one honest server sends in a phase, every honest server has accepted in the next, because it was vetted under a key all of them hold by then |
| Submissions.SubmitBackedExactly | crates/anymone-core/src/client_set.rs:713-786 | Whatever is submitted, every fragment the server newly holds is one it forwards or had accepted, if and only if for each index the first and the last vetted fragment carry the same data or the last one had been accepted |
| Submissions.SingleSubmitBacked | crates/anymone-core/src/client_set.rs:713-726 | A submission of at most one fragment, as every caller makes it, is always backed |
| PoolSpread.PoolsAgreeExactly | crates/anymone-core/src/client_set.rs:713-866 | When faulty servers are silent, fragments come one a submission and the client's one key is known everywhere in the end: honest servers end with the same pools if and only if no two windows left different data under one index and, for each piece taken in, in every round in which some server still lacks it and the key, another server lacking it learns the key |
| PoolSpread.PieceReachesExactly | crates/anymone-core/src/client_set.rs:830-866 | With agreeing windows, one piece ends at every honest server if and only if there is no such gap for its index |
| PoolSpread.ForwardLearns | crates/anymone-core/src/client_set.rs:830-866 | Whoever forwards a piece in a relay round lacked it after its window and learned the client's key just before that round |
| PoolSpread.InStepPoolsAgree | crates/anymone-core/src/client_set.rs:742-799 | In particular pools agree when windows agree and the key reaches all honest servers in the same phase |
| PoolSpread.HeldForGood | crates/anymone-core/src/client_set.rs:742-786 | A fragment an honest server holds after its window it holds unchanged to the end of every run |
| FragmentWitnesses.TwoSubmissionsSplit | crates/anymone-core/src/client_set.rs:742-786 | For any two fragments a client signed for one index with different data, in any system of two or more servers: the fault-free run in which server 0 submits one and server 1 the other is valid, the client's key is known everywhere throughout, and the two servers end with different pools |
| FragmentWitnesses.LateKeySplits | crates/anymone-core/src/client_set.rs:742-799 | Equal boot keys at the end are not enough: in a valid fault-free run with one fragment, agreeing windows and one final key, which all servers but the sender are posted before the last round only, the pools differ |
| PlannedRuns.PlannedIsValid | crates/anymone-core/src/client_set.rs:801-886 | Every plan of windows, posts and unforged faulty messages in which each honest server originates and at most n-k are faulty gives a valid run |
| Finalize.DecisionHolds | crates/anymone-core/src/client_set.rs:892-988 | Included, excluded and conflicted partition the reported clients; at most n-k lanes abstain and every lane an included client is short of is one of them |
| Finalize.EnoughLanes | crates/anymone-core/src/client_set.rs:926-988 | At least k lanes lie outside the abstainers |
| Finalize.Membership | crates/anymone-core/src/client_set.rs:926-988 | A reported client is in if and only if it has one boot key and is covered everywhere, or rebuilds, or its missing lanes still fit the abstention budget left by smaller ids |
| Finalize.FullyCoveredIsIn | crates/anymone-core/src/client_set.rs:926-988 | A client with one boot key that every lane reported is in, whatever the others did |
| Finalize.CorrectLaneServesSet | crates/anymone-core/src/client_set.rs:926-1017 | An honest lane outside the abstainers fills its lane inbox for the whole set, in order, with bundles that verify for it |
| Finalize.ServesUnlessShort | crates/anymone-core/src/client_set.rs:1008-1017 | A lane serves every included client it is not short of |
| Finalize.ShortLaneServes | crates/anymone-core/src/client_set.rs:1008-1017 | A lane short of a client abstains exactly when its own row does not name that client; if it does, under another key, the lane serves that other bundle |
| ShortLaneWitness.OtherKeyIsServed | crates/anymone-core/src/client_set.rs:926-1017 | In every system with k < n: lane 0 receives the client's bundle under one key, all others under the key it posted, nobody submits a fragment. In this valid fault-free run every server admits the client with lane 0 to sit out, and lane 0 serves the bundle under the other key |
| SetAgreement.ViewAgreement | crates/anymone-core/src/client_set.rs:892-925 | Honest servers finalize over the same view: rows, boot keys and coded pieces |
| SetAgreement.SetsAgree | crates/anymone-core/src/client_set.rs:892-1005 | With one accepted row per lane, one fragment per index, and each client's boot key reaching honest servers in the same phase and the same bulletins at the end, included, excluded and conflicted are equal at all honest servers |
| SetAgreement.HonestLaneServes | crates/anymone-core/src/client_set.rs:926-1017 | In a run, every honest lane outside the abstainers serves every member of the set in order |
| SetAgreement.MissingMeansShort | crates/anymone-core/src/client_set.rs:926-988 | An honest lane without a bundle for an included client is one the client was admitted without |
| SetAgreement.HonestOwnRow | crates/anymone-core/src/client_set.rs:685-708 | An honest server ends with its own row, drawn from the bundles it still holds |
| Codec.UnpackRelay | crates/anymone-core/src/client_set.rs:414-465 | Reading a relay succeeds on the packings of relays and nothing else, and returns the one that was packed |
| Codec.UnpackItem | crates/anymone-core/src/client_set.rs:434-465 | Reading a tagged item succeeds exactly on packed items of that tag |
| Codec.UnpackLinks | crates/anymone-core/src/client_set.rs:434-465 | Reading a counted signature chain succeeds exactly on packed chains filling the bytes |
| Codec.UnpackBatch | crates/anymone-core/src/client_set.rs:264-294 | Reading a receipt batch succeeds exactly on packed batches, the count bounded by the bytes present |
| Codec.UnpackReceipts | crates/anymone-core/src/client_set.rs:275-294 | Reads n receipts off consecutive cells, consuming exactly their packing |
| Codec.FragmentPacked | crates/anymone-core/src/client_set.rs:334-345 | Unpacking a packed fragment gives the fragment back |
| Codec.FragmentUnpacked | crates/anymone-core/src/client_set.rs:347-368 | Whatever unpacks as a fragment is the packing of that fragment |
| Codec.BundleRoundTrip | crates/anymone-core/src/client_set.rs:151-202 | Unpacking a packed bundle followed by any bytes gives the bundle and its packed length |
| Codec.PackBatchInjective | crates/anymone-core/src/client_set.rs:264-274 | Different receipt batches have different packings |
| Repair.BlobRoundTrip | crates/anymone-core/src/client_set.rs:469-499 | A blob is a prefix of what its ring elements, and any padding after them, decode to |
| Repair.DecodeSlots | crates/anymone-core/src/client_set.rs:490-499 | Decoding a slot vector in place gives its five-byte little-endian cells in order |
| Repair.DecodeBlob | crates/anymone-core/src/client_set.rs:490-499 | Decoding elements in order gives their blob |
| Repair.RepairRoundTrip | crates/anymone-core/src/client_set.rs:571-606 | With k < n, any n-k or more of a client's fragments over a covered set rebuild exactly its own bundles for the missing lanes |
| Repair.FragmentsSigned | crates/anymone-core/src/client_set.rs:571-606 | The fragments built are one per lane and each verifies under the client's key |
| Repair.ParseSound | crates/anymone-core/src/client_set.rs:1024-1062 | Whatever bytes are rebuilt, each accepted bundle is for its missing lane, under the agreed key, and verifies |
| Repair.RebuildBundles | crates/anymone-core/src/client_set.rs:1024-1062 | Rebuilding in a loop gives the specified bundles or nothing |
| Repair.ReadLanes | crates/anymone-core/src/client_set.rs:1045-1062 | Parsing the blob lane by lane gives the specified bundles or nothing |
| ClientSet.SetServer.ReceiveBundle | crates/anymone-core/src/client_set.rs:671-683 | Receiving a bundle: new state and answer are the specified ones |
| ClientSet.SetServer.TakeFragments | crates/anymone-core/src/client_set.rs:742-786 | Storing fragments in order: new state and the novel ones are the specified ones |
| ClientSet.SetServer.SubmitFragments | crates/anymone-core/src/client_set.rs:713-726 | Submitting fragments: new state and relays are the specified ones |
| ClientSet.SetServer.OriginateRelays | crates/anymone-core/src/client_set.rs:801-826 | Originating: new state and first relays are the specified ones |
| ClientSet.SetServer.ChainLen | crates/anymone-core/src/client_set.rs:868-886 | The loop counts the distinct servers whose valid signature the chain holds |
| ClientSet.SetServer.AbsorbRelays | crates/anymone-core/src/client_set.rs:830-866 | One relay round: new state and forwards are the specified ones |
| ClientSet.SetServer.DecideSet | crates/anymone-core/src/client_set.rs:892-980 | The loops of finalize compute the specified decision |
| ClientSet.SetServer.FinalizeSet | crates/anymone-core/src/client_set.rs:892-990 | Finalizing gives the specified set, openings, lane inbox and repairs |
| Plurality.PluralitySet | crates/anymone-core/src/client_set.rs:1067-1078 | The set returned has most posts, then most members, then is lexicographically greatest |
| Plurality.SamePostsSameAnchor | crates/anymone-core/src/client_set.rs:1065-1078 | Recipients with the same posts in any order anchor on the same set |
| Plurality.MajorityWins | crates/anymone-core/src/client_set.rs:1065-1078 | A set posted by more than half of the servers wins whatever the rest post |
| ScheduledClients.ScheduledClient.AdvanceRound | crates/anymone-core/src/panetiere_scheduled.rs:418-454 | Stale reservations return to the deferred payloads in round order, old lists are pruned |
| ScheduledClients.ScheduledClient.AcceptReservations | crates/anymone-core/src/panetiere_scheduled.rs:468-534 | In the window and signed, the round's list is noted once and the round's reservations become grants or deferrals |
| ScheduledClients.ScheduledClient.FinalizeRound | crates/anymone-core/src/panetiere_scheduled.rs:559-670 | Grants due are written, overdue ones deferred, the coin-flip drain and cover applied, the staged payloads reserved |
| ScheduledClients.ScheduledClient.PlaceGrants | crates/anymone-core/src/panetiere_scheduled.rs:573-617 | The vector holds every due grant clipped to the width; overdue and later grants are sorted out |
| ScheduledClients.ScheduledClient.TakePendingMessages | crates/anymone-core/src/panetiere_scheduled.rs:402-416 | Everything held is returned oldest first, without cover, and the session is empty |
| ScheduledClients.ScheduledClient.Drop | crates/anymone-core/src/panetiere_scheduled.rs:373-399 | What was held goes to the front of the outbox in order |
| ScheduledClients.ScheduledClient.ReserveMessage | crates/anymone-core/src/panetiere_scheduled.rs:792-798 | A payload is staged exactly when it fits |
| Conservation.PayloadsConserved | crates/anymone-core/src/panetiere_scheduled.rs:402-670 | Over every run finalizing each round at most once, each payload is admitted as often as it is delivered or still held |
| Conservation.RunConservesExactly | crates/anymone-core/src/panetiere_scheduled.rs:402-670 | A run conserves every payload if and only if each of its finalizes, when it was made, was incomplete, had nothing to reserve, or found nothing but cover still reserved in its round |
| Conservation.RunBalances | crates/anymone-core/src/panetiere_scheduled.rs:402-670 | Over every run each payload is admitted as often as it is delivered, held or overwritten |
| Conservation.FinalizeConservesExactly | crates/anymone-core/src/panetiere_scheduled.rs:559-667 | A finalize loses nothing if and only if, judged before the call, it is incomplete, has nothing to reserve, or finds nothing but cover still reserved in its round |
| Conservation.FreshRoundConserves | crates/anymone-core/src/panetiere_scheduled.rs:559-667 | Finalizing a round with no reservations outstanding loses nothing |
| Conservation.SecondFinalizeLoses | crates/anymone-core/src/panetiere_scheduled.rs:664-667 | From every client state, with payloads staged before each of two finalizes of one round, the second loses exactly what the first reserved for, all that was staged before it included |
| Conservation.PendingIsOwed | crates/anymone-core/src/panetiere_scheduled.rs:373-416 | What a dropped session returns is every payload admitted and not delivered, and no cover |
| Conservation.AdvanceHeld | crates/anymone-core/src/panetiere_scheduled.rs:418-454 | Advancing changes the count of no payload held |
| Conservation.AcceptHeld | crates/anymone-core/src/panetiere_scheduled.rs:468-534 | Accepting a list changes the count of no payload held |
| Conservation.FinalizeHeld | crates/anymone-core/src/panetiere_scheduled.rs:559-667 | Held before = held after + delivered + overwritten |
| Delivery.SumDelivers | crates/anymone-core/src/panetiere_scheduled.rs:1064-1094 | When no granted slot is claimed twice, the sum of the clients' vectors unpacks to exactly the granted payloads that are not all zero, in list order |
| Delivery.ListedDelivers | crates/anymone-core/src/panetiere_scheduled.rs:1064-1094 | The same whenever the public list holds every delivering client's reservations |
| Delivery.ListedIsExclusive | crates/anymone-core/src/panetiere_scheduled.rs:499-513 | A listed reservation's slot is claimed by its own client only, since a granted tag is listed once |
| Delivery.SumIsTotal | crates/anymone-core/src/panetiere_scheduled.rs:559-617 | In a granted slot the sum of all vectors is the sum of all clients' claims on it, however many there are |
| Delivery.ClaimExactly | crates/anymone-core/src/panetiere_scheduled.rs:499-513 | A client claims a granted entry if and only if one of its reservations has that tag and length, whether or not it was listed |
| Delivery.CutIsOwnExactly | crates/anymone-core/src/panetiere_scheduled.rs:1064-1094 | The relay cuts a client's payload out unharmed if and only if every other client's claim on the slot, if it has one, is all zero |
| Delivery.ContestedSlotCorrupts | crates/anymone-core/src/panetiere_scheduled.rs:499-513 | Another client holding a reservation of the same tag and length, listed or not, with a nonzero byte: what is cut out is not the first client's payload, nor the other's unless the first is all zero |
| Delivery.VectorByte | crates/anymone-core/src/panetiere_scheduled.rs:573-606 | In a granted slot a client's vector carries its claim on that slot and nothing otherwise |
| Delivery.WidthCovers | crates/anymone-core/src/panetiere_scheduled.rs:85-96 | The width computed from the list covers every granted slot, so none is truncated |
| Delivery.AcceptPromises | crates/anymone-core/src/panetiere_scheduled.rs:485-513 | Accepting the round's list fixes the grants due two rounds later |
| Delivery.AcceptKeeps | crates/anymone-core/src/panetiere_scheduled.rs:485-513 | Other lists, and a second list for the same round, leave those grants alone |
| Delivery.FinalizeKeeps | crates/anymone-core/src/panetiere_scheduled.rs:583-617 | Finalizing other, earlier rounds leaves those grants alone |
| Delivery.PromiseDelivered | crates/anymone-core/src/panetiere_scheduled.rs:559-617 | Two rounds later the submitted vector is the one the sum theorem speaks of |
| DeliveryRuns.RunDelivers | crates/anymone-core/src/panetiere_scheduled.rs:418-670 | Over every run on the driver's clock that finalizes each round at most once, a client that finalized a round and then heard its list submits two rounds later exactly the vector of what it had reserved, whatever else it staged, heard and finalized |
| DeliveryRuns.UnheardUngranted | crates/anymone-core/src/panetiere_scheduled.rs:418-534 | In such a run nothing is granted for a round whose list, still in the window, has not come |
| DeliveryRuns.RunsDeliver | crates/anymone-core/src/panetiere_scheduled.rs:1064-1094 | Any number of clients, each in its own run: when the list holds every reservation they made, the sum of what they submit unpacks to exactly the granted payloads that are not all zero, in list order |
| DeliveryRuns.RunsDeliverExactly | crates/anymone-core/src/panetiere_scheduled.rs:1064-1094 | Listed or not, a client's payload is cut out of what all of them submit unharmed if and only if every other client's claim on the slot is all zero |
| Relays.RelaySession.BeginRound | crates/anymone-core/src/panetiere.rs:2501-2507 | The clock moves and the first round is remembered once |
| Relays.RelaySession.OnInbound | crates/anymone-core/src/panetiere.rs:2509-2590 | A message in the window and not before the first round is filed in its own round's bucket; all others change nothing |
| Relays.RelaySession.EmitServerPublics | crates/anymone-core/src/panetiere.rs:3292-3495 | The walk emits, in round order, exactly the buckets that are due and fully covered, and leaves the others |
| Relays.RelaySession.DecodeSettled | crates/anymone-core/src/panetiere.rs:3502-3560 | The walk decodes, in round order, exactly the undecoded buckets that can be recovered, and spends them |
| Relays.RelaySession.Gc | crates/anymone-core/src/panetiere.rs:3562-3585 | Buckets and sets below the retention window are collected |
| Relays.ScheduledRelay.OnReservations | crates/anymone-core/src/panetiere_scheduled.rs:962-989 | The first list heard for a round in the window is kept |
| Relays.ScheduledRelay.EndRound | crates/anymone-core/src/panetiere_scheduled.rs:1010-1140 | A round's end emits, decodes, splits, unpacks what is ready and ages out the rest as specified |
| RelayRuns.AtMostOncePerRound | crates/anymone-core/src/panetiere.rs:3287-3585 | With monotone rounds, a round end emits, decodes and unpacks only rounds never served before |
| RelayRuns.ExactlyOneFate | crates/anymone-core/src/panetiere_scheduled.rs:1055-1136 | Every decoded vector is unpacked, or waits, or aged out waiting: exactly one of the three |
| RelayRuns.UnpackedWhenBothArrived | crates/anymone-core/src/panetiere_scheduled.rs:1055-1070 | A vector is unpacked at a round end if and only if it and the list of two rounds before are both at hand, whichever came first |
| RelayRuns.ReopenedExactly | crates/anymone-core/src/panetiere.rs:920-928 | A round emitted or decoded in a run and since collected opens again, unserved, if and only if the clock is set to a round whose window holds it and it is not before the session's first; that clock is then behind the one that collected it |
| RelayRuns.EmitsAgain | crates/anymone-core/src/panetiere.rs:3287-3585 | Any run that emitted a round and collected it emits it again once the clock is back in its window and its messages come again |
| RelayRuns.EmitsTwice | crates/anymone-core/src/panetiere.rs:3287-3585 | After every ordered run to which a round is new, and for every pair of clocks past its window and back in it, the round is emitted twice |
| Recover.RecoverRs | crates/anymone-core/src/panetiere.rs:2401-2480 | The exclusion loop terminates, |servers|+|lanes| falling, and gives the specified plaintext and culprits |
| Recover.RecoverSound | crates/anymone-core/src/panetiere.rs:2401-2480 | A plaintext comes only from enough posts and lane sums over exactly the candidate set, all members' posts held; only excluded lanes are reported |
| Recover.RecoverExact | crates/anymone-core/src/panetiere.rs:2401-2480 | With an ideal verifier a round decodes if and only if the true posts and true lanes meet their thresholds; the plaintext is the true total and the lanes reported are the false ones |
| Recover.CandidateSets | crates/anymone-core/src/panetiere.rs:2482-2498 | Every distinct set the posts cover, largest first |
| Recover.RankedUnique | crates/anymone-core/src/panetiere.rs:2482-2484 | The candidate order is a function of the posts' sets |
| Recover.DecodeRound | crates/anymone-core/src/panetiere.rs:3515-3532 | The first candidate that decodes is kept: the foremost decodable one under the client cap |
| Governance.VerifyMultisig | crates/anymone-core/src/config.rs:534-562 | Accepts if and only if the threshold is valid and that many distinct committee members approved this body |
| Governance.SignWith | crates/anymone-core/src/config.rs:519-530 | Adds each identity once; on an unsigned config the backers are exactly the signing committee members |
| Governance.SchedulerCore.Propose | crates/anymone-core/src/scheduler_core.rs:1173-1207 | New content bumps the version, wrapping; the current pair is signed unless already published |
| Governance.SchedulerCore.OnDecodedBody | crates/anymone-core/src/scheduler_core.rs:1252-1348 | Only a fresh, reachable, valid proposal signed by the lead is approved |
| Governance.SchedulerCore.OnCommitteeSig | crates/anymone-core/src/scheduler_core.rs:1352-1394 | Only a committee member's verified approval is recorded |
| Governance.SchedulerCore.OnPublishedConfig | crates/anymone-core/src/scheduler_core.rs:1214-1243 | A verified config raises the round counters and nothing lowers them |
| Governance.SchedulerCore.TryAssembleNow | crates/anymone-core/src/scheduler_core.rs:1447-1495 | A body is published once, when its approvals verify at the threshold |
| OneConfig.OneConfigPerRound | crates/anymone-core/src/scheduler_core.rs:1175-1495 | In one run of an honest lead with fewer than threshold faulty members, any two configs that verify for a round have the same body |
| OneConfig.LeadProposed | crates/anymone-core/src/scheduler_core.rs:1257-1281 | Every config that verifies carries a body the lead signed |
| OneConfig.HonestBacker | crates/anymone-core/src/config.rs:534-562 | A threshold of backers includes an honest one |
| OneConfig.RunKeeps | crates/anymone-core/src/scheduler_core.rs:1175-1495 | Every run keeps: one signed content per round number, approvals only of lead-signed bodies, only known signatures held, published configs verify |
| OneConfig.PublishedConfigs | crates/anymone-core/src/scheduler_core.rs:1447-1495 | What honest cores publish verifies and is one body per round |
| OneConfig.AdoptionAgrees | crates/anymone-core/src/runtime.rs:1012-1040 | Nodes that end on the same round hold the same body, whatever they were offered in whatever order |
| Controller.Sizing.Size | crates/anymone-core/src/scheduler_core.rs:1101-1148 | One tick updates count, streaks and capacity as specified; afterwards observed < capacity or capacity = 300 |
| Controller.RunsStayInRange | crates/anymone-core/src/scheduler_core.rs:1101-1148 | In every run 1 <= count <= 16, and no subnet is left over-full below the cap |
| Controller.Converges | crates/anymone-core/src/scheduler_core.rs:1101-1148 | With strict hysteresis, 48 ticks of constant input reach a fixed point |
| Controller.ConvergesAfterAnyRun | crates/anymone-core/src/scheduler_core.rs:1101-1148 | After any run, 49 ticks of constant input reach the fixed point |
| Controller.OneGrowthStep | crates/anymone-core/src/scheduler_core.rs:1104-1128 | Only the first tick can add subnets; then the count never moves again, otherwise it only falls |
| Controller.FlapsForever | crates/anymone-core/src/scheduler_core.rs:1104-1128 | With a growth threshold of 1 to 9, two subnets flap for ever at that load |
| Controller.ConvergesExactlyWhenHysteretic | crates/anymone-core/src/scheduler_core.rs:1104-1148 | The controller settles under every constant input if and only if the threshold is 0 or at least 10 |
| Controller.GrowthSettles | crates/anymone-core/src/scheduler_core.rs:1107-1111 | After growing, the next tick neither grows nor shrinks |
| Controller.ShrinkSettles | crates/anymone-core/src/scheduler_core.rs:1112-1121 | After shrinking, the next tick does not grow |
| Proposals.GeneratorSatisfiesValidator | crates/anymone-core/src/scheduler_core.rs:1504-1810 | From every reachable state after sizing, the lead's body passes its own validation if and only if the parameters and roster are proposable |
| Proposals.MembersAccept | crates/anymone-core/src/scheduler_core.rs:1504-1624 | A member that has seen the lead's registrations accepts the lead's body under exactly the same condition |
| Proposals.StructureExact | crates/anymone-core/src/scheduler_core.rs:187-284 | The generated body is structurally valid if and only if it is proposable |
| Proposals.ProtocolExact | crates/anymone-core/src/scheduler_core.rs:212-276 | The generated protocol passes its checks if and only if duration, size and cadence are in range |
| Proposals.ThresholdInRange | crates/anymone-core/src/scheduler_core.rs:1707-1707 | The generated threshold is a majority, at most the roster, and at least the roster less two |
| Proposals.RunKeeps | crates/anymone-core/src/scheduler_core.rs:741-895 | Every run of registrations and faults keeps: registered relays have keys, cover rate in 0..1, sizing in range |
| Proposals.VectorTable.ResizeScheduledVectors | crates/anymone-core/src/scheduler_core.rs:1630-1661 | The loop resizes each subnet's width as specified |
| Proposals.VectorsSized | crates/anymone-core/src/scheduler_core.rs:1630-1661 | Widths are positive, a multiple of 8192 within the cap, and within a quarter of what is wanted |
| Cadence.CadenceExact | crates/anymone-core/src/scheduler_core.rs:158-170 | A consensus round passes the cadence test if and only if every gap of its schedule, ends included, is at least 150 ms |
| Cadence.ScheduleFits | crates/anymone-core/src/panetiere.rs:216-229 | All 3+(n-k+1) checkpoints are there, numbered in order, strictly ascending, 150 ms apart and clear of both ends |
| Cadence.ClockBrackets | crates/anymone-core/src/runtime.rs:1210-1227 | The boundary formula brackets now for the current round and no other |
| Cadence.ClocksAgree | crates/anymone-core/src/runtime.rs:1210-1215 | Clocks in one slot agree on the round, and later clocks never show earlier rounds |
| Cadence.RoundsDoNotOverlap | crates/anymone-core/src/panetiere.rs:233-241 | The checkpoints of one round precede those of the next by at least one hop on each side |
| Faults.OutputFaultTracker.NoteShare | crates/anymone-core/src/faults.rs:74-80 | Sharing from a roster index is recorded and moves the frontier |
| Faults.OutputFaultTracker.NoteOutput | crates/anymone-core/src/faults.rs:82-89 | Advancing output re-bases the stall test |
| Faults.OutputFaultTracker.SkipTo | crates/anymone-core/src/faults.rs:94-100 | A jump drops the streak and judges only from the new round |
| Faults.OutputFaultTracker.Culprits | crates/anymone-core/src/faults.rs:150-154 | The loop computes the relays missing from every failed round |
| Faults.OutputFaultTracker.JudgeRound | crates/anymone-core/src/faults.rs:126-168 | One round is judged, or waits, as specified |
| Faults.OutputFaultTracker.EvaluateRounds | crates/anymone-core/src/faults.rs:114-171 | The walk judges rounds in order and returns the faults reported |
| Faults.FaultsSound | crates/anymone-core/src/faults.rs:114-171 | Over every run a fault closes a streak of exactly threshold share-carrying, output-less rounds and names precisely the relays absent from all of them, a nonempty proper subset, or nobody |
| Faults.JudgedOnce | crates/anymone-core/src/faults.rs:114-130 | No round is judged twice, and judgements come in round order |
| Faults.ReportsSeparated | crates/anymone-core/src/faults.rs:126-148 | Between two reports lies a round with output or a jump |
| Faults.NewRoundsNeedAStall | crates/anymone-core/src/faults.rs:102-142 | A round newer than all output is judged failed only when output is frozen |
| Faults.StallDetected | crates/anymone-core/src/faults.rs:114-171 | When output is frozen, enough share-carrying rounds without output bring exactly one report |
| Adcnet.AdcnetLeader.BeginRound | crates/anymone-core/src/adcnet.rs:1411-1421 | The clock moves and everything more than three rounds old is pruned |
| Adcnet.AdcnetLeader.OnClient | crates/anymone-core/src/adcnet.rs:1612-1697 | One contribution per signer and round, in the window and under the cap, is filed |
| Adcnet.AdcnetLeader.OnShare | crates/anymone-core/src/adcnet.rs:1698-1745 | A share is filed under its signer's roster slot |
| Adcnet.AdcnetLeader.AnnounceSet | crates/anymone-core/src/adcnet.rs:1957-1995 | The current round's distinct keyed contributors are announced once, in key order |
| Adcnet.AdcnetLeader.LeaderCombine | crates/anymone-core/src/adcnet.rs:1476-1588 | A round is combined exactly when it is ready and accepted; the result is the sum of the members' contributions less the shares, modulo the order |
| Adcnet.AdcnetLeader.EndRound | crates/anymone-core/src/adcnet.rs:1900-2087 | A round's end announces, shares and combines every ready round |
| AdcnetRuns.CombinedIsTheSum | crates/anymone-core/src/adcnet.rs:1476-1588 | In every run whose clients blind and whose shares are over the announced set, a combined round yields the sum of the announced members' messages, each member once |
| AdcnetRuns.RunKept | crates/anymone-core/src/adcnet.rs:1612-1995 | Over every such run each filed share is over the one set announced for its round, however sets are announced and pruned meanwhile |
| AdcnetRuns.Exchange | crates/anymone-core/src/adcnet.rs:1476-1588 | Summing the masks client by client or relay by relay is the same |
| AdcnetRuns.CombinedOnce | crates/anymone-core/src/adcnet.rs:1411-1421 | No round is combined twice although old marks are pruned |
| AdcnetRuns.OneSetPerRound | crates/anymone-core/src/adcnet.rs:1957-1995 | A round's client set is announced once and never changes |
| AdcnetRuns.MembersNeverMissing | crates/anymone-core/src/adcnet.rs:1538-1568 | Only missing shares or the anonymity floor hold an announced round back, never a missing contribution |
| AdcnetRelays.AdcnetRelay.BeginRound | crates/anymone-core/src/adcnet.rs:1411-1421 | The relay's clock moves and everything more than three rounds old is pruned |
| AdcnetRelays.AdcnetRelay.OnClientSet | crates/anymone-core/src/adcnet.rs:1738-1790 | The first set the leader announces for a round in the window is kept, less the members whose keys do not recover; secrets are derived with those whose keys parse |
| AdcnetRelays.AdcnetRelay.ShareRounds | crates/anymone-core/src/adcnet.rs:1998-2074 | The loop shares over exactly the known rounds not shared over yet for which there is a secret with each of the stored members |
| AdcnetRelays.AdcnetRelay.HasSecrets | crates/anymone-core/src/adcnet.rs:2006-2028 | Counting the secrets against the set answers whether it is nonempty, free of repeats and covered |
| AdcnetRelays.SharesOverAnnouncedExactly | crates/anymone-core/src/adcnet.rs:1767-1790 | After the first announcement of a round, when recovered keys parse: the relay shares if and only if some member recovers, and over the announced set if and only if all do |
| AdcnetNetworks.SeenIsHonestRun | crates/anymone-core/src/adcnet.rs:1698-1790 | Over every run of leader, relays and delayed messages, relays store the announced sets and what the leader sees is an ordered run of honest clients and relays |
| AdcnetNetworks.NetworkCombines | crates/anymone-core/src/adcnet.rs:1476-1588 | Over every such run a combined round is the sum of the announced members' messages, each member once |
| AdcnetQueue.AdcnetClient.MessagesForCurrentRound | crates/anymone-core/src/adcnet.rs:2294-2350 | One submission step as specified |
| AdcnetQueue.AdcnetClient.ScheduleMessage | crates/anymone-core/src/adcnet.rs:2352-2358 | A payload that fits is padded and queued |
| AdcnetQueue.AdcnetClient.ProcessBroadcast | crates/anymone-core/src/adcnet.rs:2368-2395 | Only a leader's broadcast that is not older, not from the future and not contradictory is taken |
| AdcnetQueue.AdcnetClient.TakePendingMessages | crates/anymone-core/src/adcnet.rs:2402-2407 | Everything owed is returned, the payload in flight first |
| AdcnetQueue.QueueConserves | crates/anymone-core/src/adcnet.rs:2289-2407 | Over every run each payload is admitted as often as released or owed, and submissions name strictly rising rounds |
| AdcnetQueue.ReleasedAfterBid | crates/anymone-core/src/adcnet.rs:2294-2350 | In every run a submission releases a payload if and only if its bid won and was made in the run's latest submission, in the round just before |
| RemoteSessions.RemoteSession.CheckPins | crates/anymone-core/src/remote_session.rs:360-385 | An already finalized round answers from its pin or refuses |
| RemoteSessions.RemoteSession.ExecuteAction | crates/anymone-core/src/remote_session.rs:346-558 | One action's new state and result are the specified ones |
| RemoteSessions.RemoteSession.Execute | crates/anymone-core/src/remote_session.rs:311-344 | One numbered request's new state and result are the specified ones |
| RemoteSessions.RemoteSession.Apply | crates/anymone-core/src/remote_session.rs:305-309 | An unnumbered action runs unless the session is closed |
| RemoteSessions.RemoteSession.Close | crates/anymone-core/src/remote_session.rs:296-303 | Closing forgets pins and replies |
| RemoteSessions.RepeatIsIdempotent | crates/anymone-core/src/remote_session.rs:311-344 | Sending any request again changes nothing and gets the same answer |
| RemoteSessions.RunsInOrder | crates/anymone-core/src/remote_session.rs:328-344 | An action runs exactly when its number is next, and only then the counter moves, by one |
| RemoteSessions.EachRequestOnce | crates/anymone-core/src/remote_session.rs:311-344 | Over every run requests run in the order 0, 1, 2, each number once |
| RemoteSessions.OneOutputPerRound | crates/anymone-core/src/remote_session.rs:366-410 | All nonempty finalize outputs of a round are equal, and likewise all nonempty repair outputs |
| RemoteSessions.SettledRoundsStay | crates/anymone-core/src/remote_session.rs:346-410 | Once a round has a nonempty output, no action that would finalize it or an earlier round reaches the protocol client of an open session again |
| RemoteSessions.ForwardOnly | crates/anymone-core/src/remote_session.rs:346-566 | The round, the request counter and the pinned round never go back while the session is open |

## Left out

- DolevStrong.Agreement: the adversary may send anything, but within a phase messages arrive in the order given to `absorb`; delays across phases are outside the synchronous model.
- SetAgreement.SetsAgree: assumes one accepted row per lane and one signed fragment per index, since a server keeps the first it accepts, and that honest servers report each client's boot key from the same phase on (a key may arrive in any phase) and end with the same bulletins; `EquivocationWitness` and `FragmentWitnesses` have the runs that split otherwise.
- OneConfig.OneConfigPerRound: speaks of one run of the lead, without wrap-around of the 64-bit version; a lead that restarts with no memory may sign a version number again.
- Governance.SignWith: on a config that already carries signatures only growth is stated.
- Delivery.SumDelivers: the homomorphic layer is a pointwise sum of byte vectors; decoding a range of a sum that exceeds a byte is not modelled.
- PoolSpread.PoolsAgreeExactly: assumes that faulty servers send nothing; with a faulty sender the order of arrival within a phase decides which of two fragments a server stores.
- Delivery.CutIsOwnExactly: the cut is the unreduced sum of the bytes; what decoding makes of a sum beyond a byte is not part of this model.
- Delivery.FinalizeKeeps: says nothing of a round finalized a second time, which reserves afresh.
- AdcnetRuns.CombinedIsTheSum: that shares are over the announced set is a condition on its events, which `AdcnetNetworks.NetworkCombines` derives from the relays' own steps; clients and relays are honest; the direct flow only, since the aggregated flow sums groups first and the IBLT decoding of the sum is upstream.  The roster is taken to be the expected number of shares.
- Recover.RecoverRs: termination needs the verifier to name entries it was given; without that the loop need not end.
- Relays.RelaySession.OnInbound: messages arrive already verified and admitted; admission caps and owner binding are not modelled, and leader announcements and consensus sets both arrive as set messages.
- RelayRuns.AtMostOncePerRound: rounds begin in order and only begun rounds end; `RelayRuns.EmitsTwice` shows the order is needed.
- Controller.Sizing.Size: the floating-point `ceil(clients * 1.2)` is an integer ceiling, and counts are unbounded integers.
- Proposals.GeneratorSatisfiesValidator: cover rates are reals, so a NaN rate (which `clamp` lets through and the validator rejects) is outside the model; client addresses and watchers, which nothing validates, are left out; the wire-size estimator is a parameter.
- RemoteSessions.RemoteSession.ExecuteAction: the protocol client is a transition function; `reconfigure`, which starts a new session under the same id, is not modelled.
- Cadence.ClockBrackets: integer milliseconds; timers and their jitter are not modelled.
- Cryptography: Ed25519, P-256, ML-KEM, KAHE, Shamir, Reed-Solomon, IBLT and MSE internals are upstream and have contracts only.
- Transports, workers, subscriptions, pipes, chat, FFI, TOML and identity files: input and output plumbing.
- Attestation, TEE policy, watch sessions, the no-op protocol, logging and misbehaviour injection.
- Worker cutover and drain: what they guarantee depends on arrival timing.
- Integrity fault reports and observer grace: only their effect on the roster is modelled.
