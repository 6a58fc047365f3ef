// One blob's slots in the registry's storage: its registration, placement,
// acknowledgements, payment and settlement markers, and what each entry point
// does to them. Every mapping keyed by blob id is one record here.
module Blob {
  import opened Prelude
  import opened Quote

  datatype BlobStatus = Pending | Active | Recovering | Rebuilt | Revoked

  datatype BlobOrigin = User | Operator

  datatype AccessPolicy = OwnerOnly | SelectedWallets | ComputeOnly

  datatype PaymentStatus = NoPayment | Escrowed | Claimable | PartiallySettled | Settled | Refunded

  // Why a call reverts.
  datatype Error =
    | NotAdmin | NotCoordinator | CoordinatorMustUseOperatorCreation | NotBlobOwner | NotBlobController
    | NotAccessController | NotProviderOperator | InvalidAddress
    | BlobMissing | BlobExists | BlobIdRequired | CommitmentRequired | SizeRequired | ChunkSizeRequired
    | DataShardsRequired | InvalidShardCount | InvalidExpiry | InvalidBlobName | BlobNameTaken | UnexpectedBlobName
    | PaidExpiryRequired | InvalidPolicy | QuoteFailed(reason: QuoteError) | IncorrectPayment
    | InvalidPricing | ProviderAlreadyRegistered | EndpointRequired | SigningKeyRequired
    | ProviderNotRegistered | ProviderInactive | BlobNotPending | BlobNotWritable | BlobNotActive | RecoveryNotActive
    | InvalidShardIndex | ShardAlreadyAssigned | ShardNotAssigned | ProviderNotAssigned | ShardNotAcknowledged
    | MissingAcknowledgements | BlobNotSettled | PaymentNotClaimable | ShardsRequired | SettlementEmpty
    | PoolExhausted | ArithmeticPanic | PaymentNotRefundable | BlobAlreadyActive | RefundWindowClosed
    | InvalidFeeAmount | TransferFailed
    | EncryptedStorageRequired | RequesterRequired | DeviceKeyRequired | BlobRevoked | AccessExpired | DeadlineTooFar
    | InvalidNonce | WrongPurpose | NotAuthorized | InvalidSignature | ResponseRequired | AccessUnusable
    | SelectedWalletPolicyRequired

  datatype Registration = Registration(
    blobId: Hash, name: seq<Byte>, commitment: Hash, size: uint64, chunkSize: uint32,
    dataShards: uint8, totalShards: uint8, expiresAt: uint64)

  datatype Policy = Policy(
    storageMode: StorageMode, accessPolicy: AccessPolicy,
    policyCommitment: Hash, keyEnvelopeCommitment: Hash, metadataCommitment: Hash)

  const NO_POLICY := Policy(Public, OwnerOnly, ZeroHash, ZeroHash, ZeroHash)

  datatype Payment = Payment(
    status: PaymentStatus, payer: Address, totalPaid: nat, providerPool: nat, rewardPerShard: nat,
    protocolFee: nat, providerSettled: nat, paidAt: uint64, settledAt: uint64)

  const NO_PAYMENT := Payment(NoPayment, 0, 0, 0, 0, 0, 0, 0, 0)

  datatype Acknowledgement = Acknowledgement(commitment: Hash, size: uint64, acknowledgedAt: uint64)

  // `placement` and `acks` hold only written slots; provider id 0 is an absent
  // placement. `immediate` and `reserve` are the shards whose global claim
  // markers are set.
  datatype Entry = Entry(
    owner: Address, terms: Registration, origin: BlobOrigin, status: BlobStatus,
    ackCount: nat, placement: map<nat, nat>, acks: map<(nat, nat), Acknowledgement>,
    policy: Policy, payment: Payment, immediate: set<nat>, reserve: set<nat>)

  // uint64(block.timestamp)
  function Stamp(now: nat): uint64 {
    now % 0x1_0000_0000_0000_0000
  }

  function NewEntry(owner: Address, r: Registration, origin: BlobOrigin, policy: Policy, payment: Payment): Entry {
    Entry(owner, r, origin, Pending, 0, map[], map[], policy, payment, {}, {})
  }

  function Escrow(payer: Address, t: Terms, now: nat): Payment {
    Payment(Escrowed, payer, t.total, t.providerPool, t.rewardPerShard, t.protocolFee, 0, Stamp(now), 0)
  }

  // ---- Placement and acknowledgement ----

  // Shard `i` is placed, and its placed provider has acknowledged it.
  predicate Acked(placement: map<nat, nat>, acks: map<(nat, nat), Acknowledgement>, i: nat) {
    i in placement && (placement[i], i) in acks
  }

  function Assign(e: Entry, i: uint8, pid: nat, active: bool): Result<Entry, Error> {
    var total := e.terms.totalShards;
    :- Require(e.status.Pending?, BlobNotPending);
    :- Require(i < total, InvalidShardIndex);
    :- Require(active, ProviderInactive);
    :- Require(i !in e.placement, ShardAlreadyAssigned);
    Ok(e.(placement := e.placement[i := pid]))
  }

  // `caller` is the sender's active provider id, or why it has none.
  function Acknowledge(
    e: Entry, i: uint8, caller: Result<nat, Error>, commitment: Hash, size: uint64, now: nat
  ): Result<Entry, Error>
  {
    var total := e.terms.totalShards;
    :- Require(e.status.Pending? || e.status.Recovering?, BlobNotWritable);
    :- Require(i < total, InvalidShardIndex);
    :- Require(commitment != ZeroHash, CommitmentRequired);
    :- Require(size > 0, Error.SizeRequired);
    var pid :- caller;
    :- Require(i in e.placement && e.placement[i] == pid, ProviderNotAssigned);
    Ok(e.(ackCount := if (pid, i) in e.acks then e.ackCount else e.ackCount + 1,
          acks := e.acks[(pid, i) := Acknowledgement(commitment, size, Stamp(now))]))
  }

  function Finalize(e: Entry): Result<Entry, Error> {
    var p := e.payment;
    :- Require(e.status.Pending?, BlobNotPending);
    :- Require(e.ackCount == e.terms.totalShards, MissingAcknowledgements);
    Ok(e.(status := Active,
          payment := if p.status.Escrowed? then p.(status := Claimable) else p))
  }

  // ---- Recovery ----

  function StartRecovery(e: Entry, i: uint8): Result<Entry, Error> {
    var total := e.terms.totalShards;
    :- Require(e.status.Active? || e.status.Rebuilt?, BlobNotActive);
    :- Require(i < total, InvalidShardIndex);
    :- Require(i in e.placement, ShardNotAssigned);
    Ok(e.(status := Recovering))
  }

  function Reassign(e: Entry, i: uint8, pid: nat, active: bool): Result<Entry, Error> {
    var total := e.terms.totalShards;
    :- Require(e.status.Recovering?, RecoveryNotActive);
    :- Require(i < total, InvalidShardIndex);
    :- Require(active, ProviderInactive);
    Ok(e.(placement := e.placement[i := pid]))
  }

  function RecordRebuilt(e: Entry, i: uint8, pid: nat, commitment: Hash): Result<Entry, Error> {
    var total := e.terms.totalShards;
    :- Require(e.status.Recovering?, RecoveryNotActive);
    :- Require(i < total, InvalidShardIndex);
    :- Require((if i in e.placement then e.placement[i] else 0) == pid, ProviderNotAssigned);
    :- Require(pid != 0, ShardNotAssigned);
    :- Require(commitment != ZeroHash, CommitmentRequired);
    Ok(e.(status := Rebuilt))
  }

  // ---- Settlement ----

  // The running state of the claim loop: both marker sets and both accumulators.
  datatype Marks = Marks(immediate: set<nat>, reserve: set<nat>, amount: nat, reserveAmount: nat)

  function ReservePerShard(e: Entry): Result<nat, Error> {
    var n, p := e.terms.totalShards, e.payment;
    :- Require(n > 0, ArithmeticPanic);
    :- Require(p.providerPool / n >= p.rewardPerShard, ArithmeticPanic);
    Ok(p.providerPool / n - p.rewardPerShard)
  }

  function ClaimOne(e: Entry, pid: nat, perShard: nat, now: nat, m: Marks, i: uint8): Result<Marks, Error> {
    var total := e.terms.totalShards;
    :- Require(i < total, InvalidShardIndex);
    :- Require(i in e.placement && e.placement[i] == pid, ProviderNotAssigned);
    :- Require((pid, i) in e.acks, ShardNotAcknowledged);
    var m1 := if i in m.immediate then m
              else m.(immediate := m.immediate + {i}, amount := m.amount + e.payment.rewardPerShard);
    Ok(if now >= e.terms.expiresAt && i !in m1.reserve
       then m1.(reserve := m1.reserve + {i}, reserveAmount := m1.reserveAmount + perShard)
       else m1)
  }

  function ClaimLoop(e: Entry, pid: nat, perShard: nat, now: nat, indices: seq<uint8>): Result<Marks, Error> {
    if indices == [] then Ok(Marks(e.immediate, e.reserve, 0, 0))
    else
      var m :- ClaimLoop(e, pid, perShard, now, indices[..|indices| - 1]);
      ClaimOne(e, pid, perShard, now, m, indices[|indices| - 1])
  }

  // What one successful claim does: the new slots, the shards newly marked,
  // the sum paid out, and the protocol fee it releases.
  datatype Claimed = Claimed(
    entry: Entry, provider: nat, immediate: set<nat>, reserve: set<nat>, amount: nat, feeReleased: nat)

  function Settle(e: Entry, m: Marks, settled: nat, now: nat): Entry {
    e.(immediate := m.immediate, reserve := m.reserve,
       payment := if settled == e.payment.providerPool
                  then e.payment.(providerSettled := settled, status := Settled, settledAt := Stamp(now))
                  else e.payment.(providerSettled := settled, status := PartiallySettled))
  }

  // The checks after the loop, and the write-back.
  function Conclude(e: Entry, pid: nat, m: Marks, now: nat): Result<Claimed, Error> {
    var pool, amount := e.payment.providerPool, m.amount + m.reserveAmount;
    :- Require(amount > 0, SettlementEmpty);
    var settled := e.payment.providerSettled + amount;
    :- Require(settled <= pool, PoolExhausted);
    Ok(Claimed(Settle(e, m, settled, now), pid, m.immediate - e.immediate, m.reserve - e.reserve, amount,
               if settled == pool then e.payment.protocolFee else 0))
  }

  predicate ClaimOpen(e: Entry) {
    && (e.status.Active? || e.status.Rebuilt?)
    && (e.payment.status.Claimable? || e.payment.status.PartiallySettled?)
  }

  function Claim(e: Entry, caller: Result<nat, Error>, indices: seq<uint8>, now: nat): Result<Claimed, Error> {
    var status := e.payment.status;
    :- Require(e.status.Active? || e.status.Rebuilt?, BlobNotSettled);
    :- Require(status.Claimable? || status.PartiallySettled?, PaymentNotClaimable);
    var pid :- caller;
    :- Require(|indices| > 0, Error.ShardsRequired);
    var perShard :- ReservePerShard(e);
    var m :- ClaimLoop(e, pid, perShard, now, indices);
    Conclude(e, pid, m, now)
  }

  function Refund(e: Entry, now: nat): Result<Entry, Error> {
    var p := e.payment;
    :- Require(p.status.Escrowed?, PaymentNotRefundable);
    :- Require(e.status.Pending?, BlobAlreadyActive);
    :- Require(e.terms.expiresAt > 0 && now > e.terms.expiresAt, RefundWindowClosed);
    Ok(e.(payment := p.(status := Refunded)))
  }
}
