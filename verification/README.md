# Prime Server registry: a verified model

Prime Server stores blobs as erasure-coded shards with independent providers.
A contract registers blobs, escrows payment, tracks placement and
acknowledgements, pays providers and refunds owners; a coordinator drives it
for uploads, reads and rebuilds. This project models that system in Dafny and
proves what its parts promise together.

- `Prelude`: results that mirror `require`, machine-width integers, digests as
  free constructors, finite sets and sums over maps.
- `Quote`, `Blob`, `Protocol`: the contract as a transition function over its
  storage, one case per external entry point, with the chain's clock and
  balance beside it. Every mapping keyed by a blob id is one record, since every
  write needs the blob to exist.
- `BlobInvariants`, `Ledgers`, `Invariants`: the invariant of one blob, of the
  books, and of the whole contract, kept by every call.
- `Acceptance`, `Reverts`: exactly when each entry point goes through and what
  it writes, in the stored fields alone, and what the reason of a revert says.
- `Runs`, `Histories`, `Evolution`, `Liveness`: whole histories with re-entrant
  transactions whose recipients take or refuse the ether, the calls behind what
  they left, what no history undoes, and where the money can still go.
- `Registry`: the contract as a mutable object; each method is proved to take
  exactly the step of the transition function.
- `Erasure`, `LinearCode`, `Storage`: the index pipelines around a k-of-n code
  stated by its law, one concrete code that satisfies it, and the providers'
  write-once shard directories, whose writes may stop at any point.
- `Nodes`, `Placement`, `Settling`, `Reading`, `Uploading`, `Rebuilding`: the
  coordinator's loops, verified against the registry's contracts.
- `LocalRegistry`, `Simulation`: the in-memory stand-in, and the proof that it
  follows the contract.
- `Witnesses`: runs from deployment that reach the edges named below.
- `EventIndexer`, `RecoveryQueue`: the bounded log indexer and the leased
  recovery queue.

Conventions. Digests (keccak256, SHA-256, EIP-712 `hashStruct`) are injective;
an access request stands for its own digest. A signature is the account or key
it verifies under. Clocks, heads, RPC faults and handler results are
parameters. A revert leaves no trace. The forced balance stands for ether that
reaches the contract without a call. The stand-in, which knows no payments, is
asked for a paid blob as for any other.

Some properties fail at the edges of the code. The exact condition is proved
for each, and a run that gets there is given where it needs one.

- The settlement pass of an upload reverts after a successful finalization when
  a shard costs one wei before expiry, because the reserve is rounded up to the
  whole price (`Settling.SettleClaims`, `Settling.FreshGains`,
  `Quote.RewardVanishesAtOneWei`). The blob is then active and its escrow
  claimable, and uploading again is refused rather than resumed
  (`Uploading.PlaceEncodedBlob`, `Uploading.RetryIsRefused`,
  `Witnesses.StuckUpload`). The same revert meets any group whose shards another
  claim has already paid.
- An escrow whose payer refuses ether stays in the contract for as long as it
  refuses and the blob is not finalized (`Liveness.EscrowWaitsForItsPayer`).
- A provider that stops inside a metadata write can neither complete nor serve
  that shard again (`Storage.RetryCompletes`, `Storage.TornForever`).
- The stand-in finalizes blobs that are no longer pending and refuses names with
  a NUL that the contract accepts (`Simulation.FinalizeAgreement`,
  `Simulation.NameAgreement`, `Witnesses.FinalizeParts`, `Witnesses.NameParts`).

## Model

The results that span calls and runs come first, module by module; the last
73 rows are about single entry points: exactly when each goes through and what
it writes, and that each method takes exactly the step of its transition
function.

| member | source | states |
|---|---|---|
| Runs.SolventForever | contracts/src/PrimeServerRegistry.sol:662-886 | After any re-entrant history the balance is what was forced in, plus what each escrowed or unsettled blob is still owed, plus the withdrawable fees; fees withdrawn and withdrawable are those of settled blobs; all ether received is accounted for |
| Runs.PaidAtMostOnce | contracts/src/PrimeServerRegistry.sol:830-846 | Over any history and any reassignments each shard's immediate reward and reserve are each paid at most once across all providers, and a shard never earns more than pool / totalShards |
| Runs.RefundExcludesPayout | contracts/src/PrimeServerRegistry.sol:865-877 | Over any history a blob is refunded at most once, providers have been paid exactly the settled sum, and never both |
| Runs.EveryPayeeWasEntitled | contracts/src/PrimeServerRegistry.sol:823-846 | Every provider payout in every history was made by an active provider that was placed with and had acknowledged every shard it was paid for at that moment, and reserves only after expiry |
| Runs.ChainIsARun | contracts/src/PrimeServerRegistry.sol:813-886 | Every history of blocks, forced sends and re-entrant transactions is a flat run |
| Runs.ReentrancyIsARun | contracts/src/PrimeServerRegistry.sol:813-886 | A transaction whose recipients call back into the contract, nested to any depth, equals separate calls one after the other |
| Runs.RunKeepsValid | contracts/src/PrimeServerRegistry.sol:222-922 | The invariant holds after every run of arbitrary callers |
| Runs.DeployedIsValid | contracts/src/PrimeServerRegistry.sol:222-922 | The invariant holds in every state reachable from deployment |
| Runs.ClaimEntitles | contracts/src/PrimeServerRegistry.sol:813-863 | One accepted claim appends one payout, to an entitled payee |
| Runs.AcceptedIsRun | contracts/src/PrimeServerRegistry.sol:813-886 | Conversely every flat run is the history in which each call is a transaction of its own and every transfer is taken |
| Histories.EveryTransferWasOwed | contracts/src/PrimeServerRegistry.sol:705-886 | Every transfer of every history is traced to the call that made it: a provider payout to the operator entitled to it, a refund to the owner of an escrowed, pending blob past its expiry, fees to whom the admin sent them out of what was withdrawable, change beyond the quoted price to the payer |
| Histories.EveryBlobWasCreated | contracts/src/PrimeServerRegistry.sol:603-719 | Every blob of every reachable state is traced to its one registration: owner, terms, origin, policy and price are still those of that call, at the quote of that moment, and its payer is its owner |
| Histories.EveryRequestWasAuthorized | contracts/src/PrimeServerRegistry.sol:301-346 | Every stored access request of every reachable state is traced to a call that its requester signed, when the blob was accessible to it for that purpose and the deadline within a day |
| Histories.ResultsAreOnce | contracts/src/PrimeServerRegistry.sol:348-357 | Over any history the number of accepted results for a request is one if it is consumed and zero otherwise, so never two |
| Histories.NothingWithoutAdmin | contracts/src/PrimeServerRegistry.sol:268-277 | Over any history without calls of the admin the roles, the pricing and the fees withdrawn stay as they are |
| Histories.OnlyThoseConcerned | contracts/src/PrimeServerRegistry.sol:763-922 | A call changes a blob only if its sender owns it, coordinates, or operates a provider that holds one of its shards; placement and status only in the first two cases, acknowledgements and payments only in the last, a refund only by the owner |
| Histories.UntouchedWithoutThem | contracts/src/PrimeServerRegistry.sol:763-922 | Over any history in which none of them acts a blob stays exactly as it is |
| Invariants.StepKeepsValid | contracts/src/PrimeServerRegistry.sol:268-922 | Every accepted call of every entry point, by any caller, keeps the whole invariant: providers, names, nonces, placements, per-blob accounts, solvency and recorded history |
| Invariants.InitValid | contracts/src/PrimeServerRegistry.sol:222-234 | A freshly deployed contract satisfies the invariant |
| Invariants.NeverShortOfFunds | contracts/src/PrimeServerRegistry.sol:705-886 | No call ever fails for lack of ether: every transfer that passes its guards is covered |
| Invariants.CreatePaidKeepsValid | contracts/src/PrimeServerRegistry.sol:662-719 | Escrow, change and registration of a paid blob keep the invariant, and the change is always covered |
| Invariants.AuthorizeKeepsNonces | contracts/src/PrimeServerRegistry.sol:301-346 | Storing an access request extends the used nonces by one and never overwrites a stored request |
| Liveness.EscrowCanBeRefunded | contracts/src/PrimeServerRegistry.sol:865-877 | From every reachable state the owner of an escrowed blob can wait and ask for the escrow: if the payer takes the ether, whatever re-entrant transactions it makes meanwhile, the whole payment is paid out to it and the payment is refunded for good; if it refuses, only time has passed |
| Liveness.ClaimableCanBeSettled | contracts/src/PrimeServerRegistry.sol:777-922 | From every reachable state a claimable or partly settled blob has an explicit history (register, recover, reassign every shard, acknowledge, record, wait, claim, every transfer taken) that pays exactly what is left of the pool and releases the fee |
| Liveness.ClaimAllSettles | contracts/src/PrimeServerRegistry.sol:813-863 | After expiry one claim by a provider holding every shard collects all that is left and settles the payment |
| Liveness.EscrowWaitsForItsPayer | contracts/src/PrimeServerRegistry.sol:865-877 | The converse: over any history in which no refund of the blob is taken, the payment is never refunded; and while the blob is not finalized either, the whole escrow stays, owed on the same terms and covered by the balance |
| Evolution.RunMoves | contracts/src/PrimeServerRegistry.sol:763-922 | No run takes back an acknowledgement, a marker, a payment, a history entry or a consumed request, changes the terms, or moves a status backwards |
| Evolution.FinalPaymentsStay | contracts/src/PrimeServerRegistry.sol:813-877 | A settled or refunded payment is never changed again by any run |
| Evolution.StatusLockstep | contracts/src/PrimeServerRegistry.sol:802-922 | In every reachable state: escrowed implies pending; claimable, partially settled and settled imply finalized with nothing, something less than, and exactly the pool settled; while active every current placement is acknowledged; revoked is unreachable |
| Evolution.NoncesAreUsedOnce | contracts/src/PrimeServerRegistry.sol:301-346 | In every reachable state the stored requests of a blob and requester carry exactly the nonces below the current one, one each |
| Evolution.RequestsAreNeverReplayed | contracts/src/PrimeServerRegistry.sol:301-369 | A stored request can never be stored again; recording a result consumes it; and a consumed one is never usable, nor takes a result, in any later state |
| BlobInvariants.SplitClaims | contracts/src/PrimeServerRegistry.sol:828-858 | For any sequence of index lists one provider claims one after the other at one time: all go through if and only if the blob is claimable, every listed shard is payable to it, and each list holds a shard whose reward or due reserve is unpaid and in no earlier list; the slots, markers, sums and fee together are then the closed form for the union |
| BlobInvariants.SplitIsOneClaim | contracts/src/PrimeServerRegistry.sol:828-858 | Claims that all go through, in however many parts, do exactly what one claim over the concatenated lists does; and an accepted claim may be split so if and only if each part has something left to gain at its turn |
| BlobInvariants.CounterCountsShards | contracts/src/PrimeServerRegistry.sol:777-800 | While a blob is pending its counter is the number of distinct shards whose placed provider acknowledged |
| BlobInvariants.FinalizeNeedsEveryShard | contracts/src/PrimeServerRegistry.sol:802-811 | A pending blob can be finalized if and only if every shard is placed and its placed provider has acknowledged it |
| BlobInvariants.ClaimLoopIsASetFunction | contracts/src/PrimeServerRegistry.sol:828-846 | The claim loop succeeds exactly when every listed shard is payable to the caller, and its markers and sums depend only on the set of listed shards |
| BlobInvariants.ClaimOutcome | contracts/src/PrimeServerRegistry.sol:813-863 | A claim succeeds if and only if the blob is claimable, every listed shard is placed with and acknowledged by the caller, and the sum is positive; then slots, markers, sum and released fee are the closed form; the reserve subtraction never underflows and the pool is never exhausted |
| BlobInvariants.ClaimIgnoresOrderAndRepeats | contracts/src/PrimeServerRegistry.sol:828-858 | Two index lists with the same members are accepted together and do exactly the same |
| BlobInvariants.ClaimsMerge | contracts/src/PrimeServerRegistry.sol:828-858 | The step: two successive claims at one instant equal one claim over both lists, with the same slots, markers, total and fee |
| BlobInvariants.PoolUsedUpByReserves | contracts/src/PrimeServerRegistry.sol:848-858 | The settled sum never exceeds the pool, and equals it exactly when every reserve has been paid |
| BlobInvariants.ClaimKeepsAccounts | contracts/src/PrimeServerRegistry.sol:829-858 | A claim keeps settled = reward x immediate markers + reserve x reserve markers, with reserve markers inside immediate markers |
| BlobInvariants.AfterClaimIsSound | contracts/src/PrimeServerRegistry.sol:813-863 | The whole per-blob invariant survives a claim, the payment being settled exactly when the pool is used up |
| BlobInvariants.AcknowledgeKeepsSound | contracts/src/PrimeServerRegistry.sol:777-800 | The per-blob invariant survives an acknowledgement, by a first-time or a repeated acknowledger, pending or recovering |
| BlobInvariants.FinalizeKeepsSound | contracts/src/PrimeServerRegistry.sol:802-811 | The per-blob invariant survives finalization; an escrow becomes claimable |
| BlobInvariants.ReassignKeepsSound | contracts/src/PrimeServerRegistry.sol:898-908 | Moving a shard to another provider keeps the markers and accounts in order |
| BlobInvariants.PaidEntryIsSound | contracts/src/PrimeServerRegistry.sol:662-719 | A freshly paid blob satisfies the per-blob invariant, whatever the quote |
| Ledgers.ClaimPays | contracts/src/PrimeServerRegistry.sol:848-862 | What a claim pays, plus the fee it releases, is exactly what the blob is no longer owed, and pays for exactly the shards it marks |
| Ledgers.PayoutKeepsBooks | contracts/src/PrimeServerRegistry.sol:813-877 | Any covered payout keeps balance, debts, fees and the payment history in agreement |
| Ledgers.RefundPays | contracts/src/PrimeServerRegistry.sol:865-877 | A refund pays out the blob's whole debt |
| Quote.QuoteInNumbers | contracts/src/PrimeServerRegistry.sol:404-446 | The whole quote in plain numbers: over the least MiB that cover the size and the least days that cover the stay, a shard costs rate x MiB x days in public storage, 12/10 of that in private and 15/10 in confidential storage, rounded up; its reserve is a tenth rounded up, the reward the rest, the fee its share of the pool rounded up; and the request is refused exactly when one of two sums leaves 256 bits |
| Quote.QuoteShape | contracts/src/PrimeServerRegistry.sol:404-446 | A quote exists only for a positive size, at least one shard and a future expiry; dividing the pool by the shard count gives the per-shard price back exactly, reward plus reserve is that price, the reserve is its tenth rounded up, each ceiling is within one unit of the exact price, and the fee never exceeds the pool |
| Quote.TermsSplitExactly | contracts/src/PrimeServerRegistry.sol:422-440 | The same split for any positive price, with the fee the least whole amount covering its share |
| Quote.TermsFit | contracts/src/PrimeServerRegistry.sol:404-446 | Beyond the two checked steps no intermediate value of the split can leave 256 bits while the fee is at most 100% |
| Quote.RewardVanishesAtOneWei | contracts/src/PrimeServerRegistry.sol:422-428 | The immediate reward is zero exactly when the price of a shard is at most one wei |
| Quote.QuoteMonotone | contracts/src/PrimeServerRegistry.sol:404-446 | A smaller blob, fewer shards, a nearer expiry or a later block is quoted whenever the larger one is, and never for more in total, pool or fee |
| Quote.PoolStrictlyIncreasesInDays | contracts/src/PrimeServerRegistry.sol:412-424 | One more whole day always raises the provider pool |
| Quote.DefaultRateNeverOverflows | contracts/src/PrimeServerRegistry.sol:757-761 | At the default rate every admissible request is quoted, for every storage mode and fee |
| Quote.QuoteRefusals | contracts/src/PrimeServerRegistry.sol:415-417 | A missing size, missing shards and a past expiry are refused, in that order, and for no other input |
| Uploading.UploadRegisteredBlob | rpc/src/server.mjs:787-806 | Nothing changes unless the registration agrees with the upload, field by field and in its commitment; then the blob ends finalized, readable as the input with nothing missing and closed to another upload, or as before but for placements and acknowledgements; with ready providers it ends finalized, and the call succeeds if and only if no payment is due or there is something to claim; with distinct providers and directories, and nothing placed out of position before, the blob then survives the loss of any n - k providers |
| Uploading.LossTolerance | rpc/src/server.mjs:586-633 | Once shard i is kept by provider i, emptying the directories of some providers leaves the blob readable, as the input, if and only if no more than n - k are emptied |
| Uploading.PlaceEncodedBlob | rpc/src/server.mjs:680-755 | Placement followed by settlement. A failure leaves the blob either as it was but for placements and acknowledgements, with no money moved, or finalized and stored. From a resumable state with ready providers it is always finalized and stored; it succeeds if and only if no payment is due or there is something to claim, settling as far as the clock allows; otherwise the escrow is claimable, unpaid, and no money has moved |
| Uploading.RetryIsRefused | rpc/src/server.mjs:794 | After finalization the same upload is refused at any later time because the blob is no longer pending, so a failed settlement is not taken up again by retrying |
| Uploading.NotRefused | rpc/src/server.mjs:787-805 | The checks pass if and only if blob id, user origin, owner, name, pending status, expiry, size, the commitment of the encoded input, chunk size, data shards and total shards all agree |
| Uploading.RefusedForReason | rpc/src/server.mjs:787-805 | Each refusal names a field that really disagrees |
| Uploading.SpreadSurvives | rpc/src/server.mjs:586-633 | The read still returns the input when any n - k providers are lost or serve anything else |
| Settling.SettleClaims | rpc/src/server.mjs:757-785 | From any claimable or partly settled blob whose placed providers are ready, the pass goes through exactly the groups before the first with nothing to gain, one transfer each in order, and succeeds if and only if there is no such group; a pass stopped at its first group leaves the contract untouched |
| Settling.GroupShards | rpc/src/server.mjs:762-769 | The insertion-ordered map groups every placed shard exactly once, ascending, under its provider, the groups in the order in which their providers first appear |
| Settling.GroupMayClaim | rpc/src/server.mjs:772-775 | Midway through the pass, whatever was claimed before it began, the next group's claim meets its guard if and only if one of its shards has an unpaid reward or an unpaid reserve that is due; the other groups do not matter |
| Settling.WriteClaim | contracts/src/PrimeServerRegistry.sol:813-863 | Exactly when an operator's claim goes through, the one payout it makes, and that only payment slots and money change |
| Settling.PassTotals | rpc/src/server.mjs:776-782 | From any starting point a whole pass marks every shard, pays exactly what was still due, settles the payment in full from expiry on, and records the reward of every shard whether it was due or not |
| Settling.FreshGains | rpc/src/server.mjs:772-775 | On a freshly finalized blob either every group has something to gain or, with no immediate reward before expiry, none has |
| Settling.FreshTotals | rpc/src/server.mjs:776-782 | From a fresh payment before expiry the recorded amounts sum to the settled amount, and the payment is partially settled; from expiry on it is settled in full and the recorded amounts fall short of it |
| Placement.PlaceShards | rpc/src/server.mjs:680-739 | On success the blob is active, every shard stays where it was placed or else is with the provider in its own position, acknowledged and stored under its encoded commitment, with one receipt each; any number of providers but four is refused; from every resumable state with ready providers it succeeds; and any failure leaves the blob not finalized, with its terms and payment as they were, and a resumable one resumable |
| Placement.PlaceOne | rpc/src/server.mjs:687-736 | One shard: assign unless placed, upload, compare or acknowledge; success leaves it confirmed where chosen and on its disk, failure leaves nothing a later run cannot take up, and it succeeds from every resumable state |
| Placement.PlaceNext | rpc/src/server.mjs:686-737 | One turn of the loop on a snapshot taken before it extends the confirmed prefix by one shard, and meets every guard when providers are ready and the state is resumable |
| Placement.StoppedRunResumes | rpc/src/server.mjs:680-739 | Wherever a run stopped, the choices a fresh run makes are the ones the stopped run had made |
| Placement.CutPutResumes | provider/src/storage.mjs:59-76 | A provider stopping between the two files of a shard leaves the placement resumable |
| Placement.FreshResumes | rpc/src/server.mjs:680-739 | A just-registered blob with none of its shards on disk is resumable |
| Placement.PlacedIsKept | rpc/src/server.mjs:680-739 | After placement the provider a shard is placed with is the one that acknowledged it and holds it |
| Placement.PlacedInPosition | rpc/src/server.mjs:687-692 | After placement shard i is where an earlier run placed it, or else with providers[i] |
| Rebuilding.RebuildBlob | rpc/src/server.mjs:635-678 | For an encoded blob the rebuild succeeds if and only if enough shards are healthy and either nothing is missing, or recovery may start and every missing shard can be brought back; then placement, terms and payment are unchanged, nothing is missing and the bytes are the input; and however it ends, no shard that could be read is lost and what could be read back still can |
| Rebuilding.RebuildShard | rpc/src/server.mjs:643-672 | Recover, reassign, upload, acknowledge and record one shard: succeeds if and only if recovery may start, the provider is ready and its directory accepts the chunk |
| Rebuilding.ReadAfterRebuild | rpc/src/server.mjs:675-677 | After the loop the read returns the input, and finds nothing missing exactly when every lost shard was written or is served intact |
| Rebuilding.LostShardsComeBack | rpc/src/server.mjs:635-678 | With enough healthy shards, an active or rebuilt blob whose other shards were lost with their metadata can be rebuilt as soon as their providers are back |
| Reading.ReadsBack | rpc/src/server.mjs:586-633 | For an encoded blob and any disks at all the read succeeds if and only if at least dataShards shards verify, and then returns the input |
| Reading.ReadBlob | rpc/src/server.mjs:586-633 | The loop over placements, acknowledgements and provider responses yields exactly the available and missing lists of verified shards, and the assembled content |
| Reading.VerifiedIsFaithful | rpc/src/server.mjs:576-584 | Whatever the providers' disks hold, a shard that passes the size and digest checks is the chunk that was encoded |
| Reading.VerifiedExactly | rpc/src/server.mjs:576-604 | A shard is read exactly when it is placed and acknowledged by its placed, known provider, and that provider serves bytes of the acknowledged size and digest |
| Erasure.ReadReturnsInput | rpc/src/server.mjs:586-633 | For every input up to capacity and every loss pattern the read succeeds if and only if at least k shards verified, and then returns the input and the true missing list |
| Erasure.DecodeRecovers | provider/src/erasure.mjs:71-116 | From any faithful selection of at least k chunks, in whatever pattern the others are lost, decoding yields every chunk and the original input |
| Erasure.PadInput | provider/src/erasure.mjs:30-39 | Copying into a zeroed buffer gives the input followed by zeros up to capacity, and refuses an input over capacity |
| Erasure.OrderPicks | provider/src/erasure.mjs:86-91 | Collecting shards in a map and listing them by available index gives the surviving chunks in index order |
| Erasure.MissingIsTheRest | rpc/src/server.mjs:590-607 | The missing list is exactly the indexes that did not verify, in order |
| Erasure.FastPathRecovers | rpc/src/server.mjs:613-619 | Without loss, concatenating the data shards and truncating gives the input, as decoding would |
| Erasure.EncodedIs | provider/src/erasure.mjs:30-66 | Encoding yields n chunks of the chunk size under their own digests, the first k of which are the input and zeros; only an input over k chunks is refused |
| Erasure.DecodeChecks | provider/src/erasure.mjs:71-104 | Decoding gets as far as the comparison if and only if some chunks are declared lost, none beyond the code, and exactly the others, at least k, are handed in; and it succeeds only with chunks that are the code's own spread of the data they begin with |
| LinearCode.TwoOfFourIsLawful | provider/src/erasure.mjs:4-9 | A concrete 2-of-4 code over the field of 257 elements satisfies the k-of-n law for every chunk size, input and erasure pattern |
| Storage.StoredOnce | provider/src/storage.mjs:41-77 | Over any sequence of puts, conflicting, stopped between the two files or stopped inside the second, a stored shard is served for ever as first stored |
| Storage.RetryCompletes | provider/src/storage.mjs:48-76 | A stopped put is completed by trying again, and then served, if and only if it did not stop inside the metadata file or the shard was described before |
| Storage.TornForever | provider/src/storage.mjs:41-77 | A metadata file whose write was cut off is never repaired: no later put of the shard succeeds and it is never served |
| Storage.PutOutcome | provider/src/storage.mjs:41-77 | A put succeeds if and only if the bytes are those announced and are those described, or new and written to the end; what it leaves on disk in each case |
| Storage.ServedUpToSize | provider/src/server.mjs:110-134 | A shard is served if and only if it is described and its file is there, up to the described size |
| Simulation.ContractRunsAreLocalRuns | rpc/src/memory-registry.mjs:20-215 | From deployment every run of the contract without NUL names, paid blobs included, is accepted step for step by the stand-in, with equal owner, terms, status, placement and acknowledgements of every blob |
| Simulation.RunSimulated | rpc/src/memory-registry.mjs:20-238 | The same for every run from matching states |
| Simulation.StepSimulated | rpc/src/memory-registry.mjs:20-215 | Every call the contract accepts, paid creations included, is one request the stand-in accepts, or none, and the two still match |
| Simulation.FinalizeAgreement | rpc/src/memory-registry.mjs:141-146 | The two agree on a finalization by whoever controls the blob if and only if it is pending or the acknowledgement count is wrong |
| Simulation.NameAgreement | rpc/src/memory-registry.mjs:71-74 | A name the contract lets through is taken by the stand-in if and only if it holds no NUL |
| Witnesses.OneWeiQuote | contracts/src/PrimeServerRegistry.sol:404-446 | One byte, four shards, one day at a rate of one wei is quoted at four wei with no immediate reward |
| Witnesses.FundedIsReached | contracts/src/PrimeServerRegistry.sol:396-719 | The state that quote leads to, with four ready providers and the escrow paid, is reached from deployment and satisfies the invariant |
| Witnesses.StuckUpload | rpc/src/server.mjs:680-806 | On it, for every lawful 2-of-4 code, the coordinator's own methods finalize the blob and then fail to settle it; the escrow is claimable with a reward of zero, and the second upload is refused as no longer pending |
| Witnesses.FinalizeParts | rpc/src/memory-registry.mjs:141-146 | A concrete run, with the stand-in alongside and matching, ends in a recovering blob that the stand-in finalizes and the contract does not |
| Witnesses.NameParts | rpc/src/memory-registry.mjs:71-74 | A name with a NUL inside is registered by the contract and refused by the stand-in |
| Witnesses.DefaultQuotes | contracts/src/PrimeServerRegistry.sol:222-234 | What deployment sets, and what one byte then costs for a day in each storage mode |
| EventIndexer.PollsCollectOneQuery | rpc/src/event-indexer.mjs:34-60 | Whatever failed on the way, the collected events are one query from the start to the next block, and the stored cursor is the last one that could be stored |
| EventIndexer.JourneyTiles | rpc/src/event-indexer.mjs:34-60 | Over any sequence of polls, failures and heads the windows kept tile the chain from the start to the next block |
| EventIndexer.PollTiles | rpc/src/event-indexer.mjs:39-44 | The windows of a poll are contiguous, at most maxBlockRange long, at most maxRangesPerPoll many, and end at the poll's target |
| EventIndexer.JourneyBudget | rpc/src/event-indexer.mjs:39-41 | No sequence of polls asks for more windows than its budget |
| EventIndexer.JourneyBelowHead | rpc/src/event-indexer.mjs:36-44 | Nothing above the highest reported head is ever asked for |
| EventIndexer.EachBlockOnce | rpc/src/event-indexer.mjs:41-56 | Every block below the next one lies in exactly one kept window |
| EventIndexer.CursorIsBehind | rpc/src/event-indexer.mjs:56-57 | A stored cursor is never ahead of what was collected, and is level with it unless storing failed |
| EventIndexer.RestartCovers | rpc/src/event-indexer.mjs:21-32 | A restart from the stored cursor leaves no gap |
| EventIndexer.PlanTiles | rpc/src/event-indexer.mjs:36-44 | The windows of one poll are contiguous, within budget, and reach to the head or to range x ranges blocks on, whichever is less |
| EventIndexer.PollReports | rpc/src/event-indexer.mjs:34-60 | A poll reports exactly what it adds, reaches the head or the end of its budget, and fails exactly when no head is known or the RPC or the store fails within its windows, naming the block |
| EventIndexer.CleanPollsReach | rpc/src/event-indexer.mjs:34-60 | Polls without faults reach start + polls x range x ranges, or just past the head |
| EventIndexer.QueryHolds | rpc/src/event-indexer.mjs:41-56 | A query holds the logs of each of its blocks, in order |
| RecoveryQueue.EnqueuedIsServed | rpc/src/operational-store.mjs:158-239 | If failures are retried, a job once enqueued has succeeded or can be claimed as soon as its present lease is over |
| RecoveryQueue.SucceededForever | rpc/src/operational-store.mjs:158-239 | A succeeded job is never changed by any later operation |
| RecoveryQueue.FirstResultStays | rpc/src/operational-store.mjs:213-226 | The first completion fixes the result for every later state |
| RecoveryQueue.AttemptsCountClaims | rpc/src/operational-store.mjs:187-211 | In every run a job's attempts are the number of times it was handed out |
| RecoveryQueue.LeaseHolds | rpc/src/operational-store.mjs:187-211 | While its lease runs and nobody fails it, a running job is handed to no one else and stays as it is until it succeeds |
| RecoveryQueue.ClaimedInTurn | rpc/src/operational-store.mjs:199-210 | A claimable job is handed out after at most the claimable jobs ahead of it |
| RecoveryQueue.ClaimedWithinQueueLength | rpc/src/operational-store.mjs:187-211 | Any queued or lease-expired job is handed out within as many successive claims at one instant as there are jobs |
| RecoveryQueue.ProcessNext | rpc/src/recovery-coordinator.mjs:17-29 | Claims one job, runs the handler on its blob, and leaves it succeeded with that result or queued again |
| RecoveryQueue.ClaimLeases | rpc/src/operational-store.mjs:187-211 | From the claim itself: until now + leaseMs the job is handed to no one else unless somebody fails it, and from then on, if it is still running, it can be claimed |
| RecoveryQueue.GivenUp | rpc/src/operational-store.mjs:228-239 | A job failed without retry is handed to nobody until it is enqueued again |
| RecoveryQueue.EnqueuedAs | rpc/src/operational-store.mjs:158-185 | An unknown or failed blob is queued with the new reason and shards, keeping its age and attempts; any other is left alone |
| RecoveryQueue.EndedAs | rpc/src/operational-store.mjs:213-239 | What a completion and a failure write, to their own job only |
| Reverts.RevertsForReason | contracts/src/PrimeServerRegistry.sol:268-922 | In every reachable state and for every call, the reason given for a revert is true of the caller, the arguments and the stored fields; arithmetic panics, exhausted pools and failed transfers are never the reason |
| Registry.LoopStopsAtFault | contracts/src/PrimeServerRegistry.sol:828-846 | The first faulty index decides the outcome of the whole claim loop |
| LocalRegistry.EveryAckWasSigned | rpc/src/memory-registry.mjs:106-139 | Over any history of the stand-in, every acknowledgement it holds was signed for exactly that blob, owner, name, provider, shard, digest and size by the active provider the shard was then placed with |
| Storage.ProviderStorage.PutShard | provider/src/storage.mjs:41-77 | Checks the commitment, returns early on equal metadata, refuses different content, and otherwise writes data then metadata |
| Storage.ProviderStorage.ReadShard | provider/src/storage.mjs:84-98 | Returns the file between the bounds after clamping, filled byte by byte |
| Storage.ProviderStorage.GetShard | provider/src/server.mjs:110-134 | Serves a shard only if it is described, cut to the described size |
| EventIndexer.PrimeServerEventIndexer.Ready | rpc/src/event-indexer.mjs:21-32 | On first use a stored cursor replaces the configured block |
| EventIndexer.PrimeServerEventIndexer.Poll | rpc/src/event-indexer.mjs:34-60 | The loop keeps exactly the planned windows up to the first fault, appends their logs, advances, stores the cursor window by window, and returns the logs or the fault |
| RecoveryQueue.JsonOperationalStore.EnqueueRecovery | rpc/src/operational-store.mjs:158-185 | Adds a job, revives a failed one, and returns any other as it is |
| RecoveryQueue.JsonOperationalStore.ClaimRecovery | rpc/src/operational-store.mjs:187-211 | Releases expired leases in place, then leases the oldest queued job |
| RecoveryQueue.JsonOperationalStore.CompleteRecovery | rpc/src/operational-store.mjs:213-226 | Records the first result of a known job |
| RecoveryQueue.JsonOperationalStore.FailRecovery | rpc/src/operational-store.mjs:228-239 | Requeues or fails a known job that has not succeeded |
| Acceptance.BlobRefunded | contracts/src/PrimeServerRegistry.sol:865-877 | A refund goes through if and only if the blob is known, the caller owns it, its payment is in escrow, it is pending, and the clock is past its expiry, which is not zero; it then pays out the whole escrow and changes nothing else |
| Acceptance.ClaimAccepted | contracts/src/PrimeServerRegistry.sol:813-858 | A claim goes through if and only if the caller operates an active provider, the blob is finalized and payable, every listed shard is placed with and acknowledged by that provider, and one of them has an unpaid reward or an unpaid reserve that is due |
| Acceptance.ClaimWritten | contracts/src/PrimeServerRegistry.sol:828-862 | What an accepted claim writes and pays, in the stored fields alone: markers, settled sum, status, time, released fee, balance and the one payout |
| Acceptance.PaidBlobCreated | contracts/src/PrimeServerRegistry.sol:544-719 | A paid creation goes through if and only if its registration, name, policy and expiry are in order and the value covers the quote; exactly the quoted total stays in escrow for the sender, who gets the rest back |
| Acceptance.BlobCreated | contracts/src/PrimeServerRegistry.sol:482-660 | A creation goes through if and only if sender and origin agree, the registration is well formed, unexpired and new, and the name is proper, free and announced; the blob starts pending and empty |
| Acceptance.AccessAuthorized | contracts/src/PrimeServerRegistry.sol:301-346 | An access request is stored if and only if the blob is encrypted, unrevoked and unexpired, the requester is its owner or a selected wallet and signed, the purpose is the one its policy demands, the deadline is within a day, and the nonce is the next; it takes that nonce |
| Acceptance.ResultRecorded | contracts/src/PrimeServerRegistry.sol:348-369 | A result is accepted if and only if a controller brings a non-zero one for a stored, unconsumed, unexpired request that is still accessible; it consumes the request and changes nothing else |
| Acceptance.WalletSelected | contracts/src/PrimeServerRegistry.sol:279-284 | Only the owner of a blob under the selected-wallets policy adds or removes a wallet |
| Acceptance.CoordinatorSet | contracts/src/PrimeServerRegistry.sol:268-271 | Only the admin, and only for an account other than zero |
| Acceptance.ControllerSet | contracts/src/PrimeServerRegistry.sol:273-277 | Only the admin, and only for an account other than zero |
| Acceptance.PricingSet | contracts/src/PrimeServerRegistry.sol:396-402 | Only the admin, with a positive rate and a fee of at most 100% |
| Acceptance.FeesWithdrawn | contracts/src/PrimeServerRegistry.sol:879-886 | Only the admin, to an account other than zero, and at most what is withdrawable; balance and fees fall by the amount |
| Acceptance.ProviderRegistered | contracts/src/PrimeServerRegistry.sol:456-473 | An account registers once, with an endpoint and a key, and gets the next id |
| Acceptance.ProviderStatusSet | contracts/src/PrimeServerRegistry.sol:475-480 | Only the operator of a provider switches it |
| Acceptance.ShardAssigned | contracts/src/PrimeServerRegistry.sol:763-775 | A shard of a pending blob is assigned once, by its owner or a coordinator, to an active provider |
| Acceptance.ShardAcknowledged | contracts/src/PrimeServerRegistry.sol:777-800 | Only the placed, active provider acknowledges a shard, while the blob is pending or recovering; a repetition replaces the acknowledgement and is not counted |
| Acceptance.BlobFinalized | contracts/src/PrimeServerRegistry.sol:802-811 | The owner or a coordinator finalizes a pending blob whose counter is its shard count; an escrow becomes claimable |
| Acceptance.RecoveryStarted | contracts/src/PrimeServerRegistry.sol:888-896 | The owner or a coordinator starts recovery of an active or rebuilt blob with that shard placed |
| Acceptance.ShardReassigned | contracts/src/PrimeServerRegistry.sol:898-908 | The owner or a coordinator moves a shard of a recovering blob to an active provider |
| Acceptance.RebuiltRecorded | contracts/src/PrimeServerRegistry.sol:910-922 | The owner or a coordinator ends recovery for the provider the shard is placed with, under a commitment |
| Registry.PrimeServerRegistry.constructor | contracts/src/PrimeServerRegistry.sol:222-234 | Deployment sets every storage variable to its initial value and establishes the invariant |
| Registry.PrimeServerRegistry.SetCoordinator | contracts/src/PrimeServerRegistry.sol:268-271 | The method takes exactly the protocol step, reverts without a trace otherwise, and keeps the invariant |
| Registry.PrimeServerRegistry.SetConfidentialAccessController | contracts/src/PrimeServerRegistry.sol:273-277 | Takes exactly the protocol step or reverts, keeping the invariant |
| Registry.PrimeServerRegistry.SetBlobWalletAccess | contracts/src/PrimeServerRegistry.sol:279-284 | Takes exactly the protocol step or reverts, keeping the invariant |
| Registry.PrimeServerRegistry.AuthorizeConfidentialAccess | contracts/src/PrimeServerRegistry.sol:301-346 | Takes exactly the protocol step or reverts in the order of the guards, and returns the stored request |
| Registry.PrimeServerRegistry.RecordConfidentialAccessResult | contracts/src/PrimeServerRegistry.sol:348-357 | Takes exactly the protocol step or reverts, keeping the invariant |
| Registry.PrimeServerRegistry.SetNativePricing | contracts/src/PrimeServerRegistry.sol:396-402 | Takes exactly the protocol step or reverts, keeping the invariant |
| Registry.PrimeServerRegistry.RegisterProvider | contracts/src/PrimeServerRegistry.sol:456-473 | Takes exactly the protocol step or reverts, and returns the fresh id the sender now owns |
| Registry.PrimeServerRegistry.SetProviderStatus | contracts/src/PrimeServerRegistry.sol:475-480 | Takes exactly the protocol step or reverts, keeping the invariant |
| Registry.PrimeServerRegistry.CreateBlob | contracts/src/PrimeServerRegistry.sol:482-660 | User and operator creation, named or not, take exactly the protocol step or revert |
| Registry.PrimeServerRegistry.CreateBlobPaid | contracts/src/PrimeServerRegistry.sol:544-719 | Quote, escrow, registration and change take exactly the protocol step or revert as a whole |
| Registry.PrimeServerRegistry.AssignShard | contracts/src/PrimeServerRegistry.sol:763-775 | Takes exactly the protocol step or reverts, keeping the invariant |
| Registry.PrimeServerRegistry.AcknowledgeShard | contracts/src/PrimeServerRegistry.sol:777-800 | Takes exactly the protocol step or reverts, counting a repeated acknowledgement once |
| Registry.PrimeServerRegistry.FinalizeBlob | contracts/src/PrimeServerRegistry.sol:802-811 | Takes exactly the protocol step or reverts, keeping the invariant |
| Registry.PrimeServerRegistry.ClaimProviderSettlement | contracts/src/PrimeServerRegistry.sol:813-863 | Guards, loop, checks, write-back and transfer together take exactly the protocol step or revert |
| Registry.PrimeServerRegistry.ClaimShards | contracts/src/PrimeServerRegistry.sol:828-846 | The loop with its four running variables computes the recursive claim over the index list, and stops at the first fault |
| Registry.PrimeServerRegistry.RefundPaidBlob | contracts/src/PrimeServerRegistry.sol:865-877 | Takes exactly the protocol step or reverts, keeping the invariant |
| Registry.PrimeServerRegistry.WithdrawProtocolFees | contracts/src/PrimeServerRegistry.sol:879-886 | Takes exactly the protocol step or reverts, keeping the invariant |
| Registry.PrimeServerRegistry.StartRecovery | contracts/src/PrimeServerRegistry.sol:888-896 | Takes exactly the protocol step or reverts, keeping the invariant |
| Registry.PrimeServerRegistry.ReassignShard | contracts/src/PrimeServerRegistry.sol:898-908 | Takes exactly the protocol step or reverts, keeping the invariant |
| Registry.PrimeServerRegistry.RecordRebuiltShard | contracts/src/PrimeServerRegistry.sol:910-922 | Takes exactly the protocol step or reverts, keeping the invariant |
| Nodes.WriteAssign | contracts/src/PrimeServerRegistry.sol:763-775 | Exactly when the coordinator's assignment goes through, and the slots it leaves; nothing else of the contract changes |
| Nodes.WriteAcknowledge | contracts/src/PrimeServerRegistry.sol:777-800 | Exactly when an operator's acknowledgement goes through, and the slots it leaves |
| Nodes.WriteFinalize | contracts/src/PrimeServerRegistry.sol:802-811 | Exactly when finalization goes through, and the slots it leaves |
| Nodes.WriteStartRecovery | contracts/src/PrimeServerRegistry.sol:888-896 | Exactly when recovery starts, and the slots it leaves |
| Nodes.WriteReassign | contracts/src/PrimeServerRegistry.sol:898-908 | Exactly when a reassignment goes through, and the slots it leaves |
| Nodes.WriteRecordRebuilt | contracts/src/PrimeServerRegistry.sol:910-922 | Exactly when a rebuilt shard is recorded, and the slots it leaves |
| LocalRegistry.MemoryRegistry.RegisterProvider | rpc/src/memory-registry.mjs:20-24 | Adds an active provider, or refuses a known id |
| LocalRegistry.MemoryRegistry.CreateBlob | rpc/src/memory-registry.mjs:26-69 | Adds a pending unnamed blob, or refuses a known id |
| LocalRegistry.MemoryRegistry.CreateBlobNamed | rpc/src/memory-registry.mjs:71-84 | Checks the name, its freshness for the owner and the id, in that order |
| LocalRegistry.MemoryRegistry.CreateOperatorBlobNamed | rpc/src/memory-registry.mjs:91-94 | As for users, with the coordinator as owner |
| LocalRegistry.MemoryRegistry.AssignShard | rpc/src/memory-registry.mjs:96-104 | Places a shard of a pending blob with an active provider once |
| LocalRegistry.MemoryRegistry.AcknowledgeShard | rpc/src/memory-registry.mjs:106-139 | Accepts an acknowledgement only from the placed active provider, signed by its key over the expected text |
| LocalRegistry.MemoryRegistry.FinalizeBlob | rpc/src/memory-registry.mjs:141-146 | Activates any blob with the right number of acknowledgements, whatever its status |
| LocalRegistry.MemoryRegistry.StartRecovery | rpc/src/memory-registry.mjs:192-198 | Moves an active or rebuilt blob with that shard placed to recovering |
| LocalRegistry.MemoryRegistry.ReassignShard | rpc/src/memory-registry.mjs:200-206 | Moves a shard of a recovering blob to an active provider |
| LocalRegistry.MemoryRegistry.RecordRebuiltShard | rpc/src/memory-registry.mjs:208-215 | Ends recovery for the placed provider with a commitment |
| LocalRegistry.MemoryRegistry.CreateOperatorBlob | rpc/src/memory-registry.mjs:86-89 | As for users, unnamed, with the coordinator as owner |
| LocalRegistry.ShardConfirmed | rpc/src/memory-registry.mjs:106-139 | An acknowledgement is accepted if and only if the blob is writable, the provider placed and active, and text, context and signature are right |
| LocalRegistry.BlobAdded | rpc/src/memory-registry.mjs:26-94 | A creation is accepted if and only if the id is new and a given name is proper, NUL-free and unused by its holder |
| LocalRegistry.ShardPlaced | rpc/src/memory-registry.mjs:96-104 | A placement is accepted if and only if the blob is pending, the shard unplaced and the provider active |
| LocalRegistry.BlobCompleted | rpc/src/memory-registry.mjs:141-146 | A finalization is accepted if and only if the number of acknowledgements is the shard count |
| LocalRegistry.RecoveryServed | rpc/src/memory-registry.mjs:192-215 | Exactly when recovery is begun, a shard moved, and recovery ended |
| LocalRegistry.ProviderAdded | rpc/src/memory-registry.mjs:20-24 | A provider is added if and only if its id is new |

## Left out

- Hash functions, signature recovery and the Clay code are not computed: digests are free constructors, signatures are the key they verify under, and the code is any code with the k-of-n law.
- Shard contents are symbols of the field with 257 elements rather than bytes, so that the concrete code is over a prime field; every byte is one. The Clay parameter d and its repair bandwidth are not modelled.
- The decoder's Merkle-root comparison (provider/src/erasure.mjs:97-104) is modelled as re-encoding the recovered data and comparing the chunks.
- Events, the quote commitment, the payment asset enum with its single member, and the view functions that only return a stored record.
- Gas, and overflow of the 256-bit nonces, provider ids, acknowledgement counter, received ether and fee total, which the number of calls and the ether supply bound.
- `_createUserBlob` and `_createBlob` share one registration function; the paid path's two entry points differ only in the name check and are one call with a flag.
- HTTP, routing, sessions, ranges, file names and the viem client. `parseRange` and `listObjects` are not modelled: their ordering and suffix forms follow neither each other nor section 14.1.2 of RFC 9110.
- Other parties acting between two registry calls of one coordinator loop. The loops run against a registry that only they change; what others did before a loop began is covered (the settlement pass starts from any partly settled payment), and the registry itself is proved against arbitrary interleavings of calls.
- Placement, reading and rebuilding over a network that fails: a provider that cannot be reached is a failed upload or a missing shard, and what a failed placement leaves is covered for every point between two writes. A stop inside a metadata write is not resumable, as `TornForever` states.
- Resuming a rebuild that stopped while the blob was recovering: the next start of recovery is refused, which the exact success condition of `RebuildBlob` shows.
- Repair of a damaged data file whose metadata is intact: the put returns early; the exact success condition of `RebuildBlob` excludes it.
- The access-request half, payments and wallets of the in-memory registry, and its missing provider status: a provider that the contract deactivates stays active there.
- Configuration errors thrown by constructors (rpc/src/event-indexer.mjs:6-9, provider/src/erasure.mjs:21-28) are preconditions.
- Overlapping polls of one indexer, chain reorganisations, and log parsing.
- The operational store's persistence to disk, its object index, and operations of other workers between a worker's claim and its completion. A worker whose lease is over may still fail the job of its successor.
- `recoverBlob`'s polling loop (rpc/src/recovery-coordinator.mjs:31-54).
- The FCC sender and verifier contracts, the SDK, the UI and deployment.
