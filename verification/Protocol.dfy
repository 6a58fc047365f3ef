// The registry contract as a transition function: its storage, the ether it
// holds, and one case per external entry point. A call either reverts with a
// reason or yields the next state.
module Protocol {
  import opened Prelude
  import opened Quote
  import opened Blob

  datatype Provider = Provider(operator: Address, endpoint: string, signingKey: Hash, active: bool, registeredAt: uint64)

  datatype AccessPurpose = View | Compute

  // EIP-712 digests are taken to be injective, so a request stands for its own
  // digest and is the key under which it is stored.
  datatype AccessRequest = AccessRequest(
    blobId: Hash, requester: Address, deviceKey: Hash, nonce: nat, deadline: uint64, purpose: AccessPurpose)

  // One outgoing transfer. A provider payout lists the shards it marked.
  datatype Payout =
    | ToProvider(blobId: Hash, provider: nat, operator: Address, immediate: set<nat>, reserve: set<nat>, amount: nat)
    | RefundTo(blobId: Hash, payer: Address, amount: nat)
    | FeesTo(recipient: Address, amount: nat)
    | ChangeTo(payer: Address, amount: nat)

  // `withdrawable` is the contract's own variable. The rest is bookkeeping
  // about the chain: its balance, what callers sent, what was forced upon it,
  // and every transfer out, oldest first.
  datatype Ledger = Ledger(
    withdrawable: nat, balance: nat, received: nat, forced: nat, feesWithdrawn: nat, history: seq<Payout>)

  datatype State = State(
    now: nat,
    admin: Address, coordinators: set<Address>, controllers: set<Address>,
    rate: nat, feeBps: nat,
    nextProviderId: nat, providers: map<nat, Provider>, providerIdOf: map<Address, nat>,
    entries: map<Hash, Entry>, names: map<(Address, Hash), Hash>,
    nonces: map<(Hash, Address), nat>, requests: map<AccessRequest, bool>, selected: set<(Hash, Address)>,
    ledger: Ledger)

  datatype Call =
    | SetCoordinator(sender: Address, account: Address, allowed: bool)
    | SetAccessController(sender: Address, account: Address, allowed: bool)
    | SetNativePricing(sender: Address, newRate: nat, newFeeBps: nat)
    | SetBlobWalletAccess(sender: Address, blobId: Hash, wallet: Address, allowed: bool)
    | AuthorizeAccess(sender: Address, request: AccessRequest, signer: Option<Address>)
    | RecordAccessResult(sender: Address, request: AccessRequest, response: Hash)
    | RegisterProvider(sender: Address, endpoint: string, signingKey: Hash)
    | SetProviderStatus(sender: Address, providerId: nat, active: bool)
    | CreateBlob(sender: Address, terms: Registration, named: bool, origin: BlobOrigin)
    | CreateBlobPaid(sender: Address, value: nat, terms: Registration, named: bool, policy: Policy)
    | AssignShard(sender: Address, blobId: Hash, shard: uint8, providerId: nat)
    | AcknowledgeShard(sender: Address, blobId: Hash, shard: uint8, commitment: Hash, size: uint64)
    | FinalizeBlob(sender: Address, blobId: Hash)
    | ClaimProviderSettlement(sender: Address, blobId: Hash, shards: seq<uint8>)
    | RefundPaidBlob(sender: Address, blobId: Hash)
    | WithdrawProtocolFees(sender: Address, recipient: Address, amount: nat)
    | StartShardRecovery(sender: Address, blobId: Hash, shard: uint8)
    | ReassignShard(sender: Address, blobId: Hash, shard: uint8, providerId: nat)
    | RecordRebuiltShard(sender: Address, blobId: Hash, shard: uint8, providerId: nat, commitment: Hash)

  const MAX_ACCESS_LIFETIME: nat := 86_400
  const SLASH: Byte := 0x2f

  function Init(deployer: Address, now: nat): State {
    State(now, deployer, {deployer}, {}, DEFAULT_RATE, 500, 1, map[], map[], map[], map[], map[], map[], {},
          Ledger(0, 0, 0, 0, 0, []))
  }

  // ---- Shared guards and writes ----

  function Lookup(s: State, blobId: Hash): Result<Entry, Error> {
    if blobId in s.entries then Ok(s.entries[blobId]) else Err(BlobMissing)
  }

  // onlyBlobOwner
  function Owned(s: State, sender: Address, blobId: Hash): Result<Entry, Error> {
    var e :- Lookup(s, blobId);
    :- Require(e.owner == sender, NotBlobOwner);
    Ok(e)
  }

  // onlyBlobOwnerOrCoordinator
  function Controlled(s: State, sender: Address, blobId: Hash): Result<Entry, Error> {
    var e :- Lookup(s, blobId);
    :- Require(e.owner == sender || sender in s.coordinators, NotBlobController);
    Ok(e)
  }

  predicate IsActive(s: State, providerId: nat) {
    providerId in s.providers && s.providers[providerId].active
  }

  // The sender's provider id, if it is registered and active.
  function CallerProvider(s: State, sender: Address): Result<nat, Error> {
    if sender !in s.providerIdOf then Err(ProviderNotRegistered)
    else if !IsActive(s, s.providerIdOf[sender]) then Err(ProviderInactive)
    else Ok(s.providerIdOf[sender])
  }

  function Put(s: State, blobId: Hash, e: Entry): State {
    s.(entries := s.entries[blobId := e])
  }

  function PayoutOf(l: Ledger, p: Payout): Ledger
    requires l.balance >= p.amount
  {
    l.(balance := l.balance - p.amount, history := l.history + [p])
  }

  // The final `call{value: amount}` of a method.
  function Pay(s: State, p: Payout): Result<State, Error> {
    if s.ledger.balance < p.amount then Err(TransferFailed)
    else Ok(s.(ledger := PayoutOf(s.ledger, p)))
  }

  // ---- Registration ----

  function CheckName(s: State, owner: Address, r: Registration, named: bool): Check<Error> {
    if !named then Require(r.name == [], UnexpectedBlobName)
    else if !(0 < |r.name| <= 1024) || r.name[0] == SLASH || r.name[|r.name| - 1] == SLASH then Fail(InvalidBlobName)
    else Require((owner, Keccak(r.name)) !in s.names, BlobNameTaken)
  }

  function AddBlob(
    s: State, owner: Address, r: Registration, named: bool, origin: BlobOrigin, policy: Policy, payment: Payment
  ): Result<State, Error>
  {
    var taken := r.blobId in s.entries;
    :- Require(owner != 0, InvalidAddress);
    :- Require(!taken, BlobExists);
    :- Require(r.blobId != ZeroHash, BlobIdRequired);
    :- Require(r.commitment != ZeroHash, CommitmentRequired);
    :- Require(r.size > 0, Error.SizeRequired);
    :- Require(r.chunkSize > 0, ChunkSizeRequired);
    :- Require(r.dataShards > 0, DataShardsRequired);
    :- Require(r.totalShards >= r.dataShards, InvalidShardCount);
    :- Require(r.expiresAt == 0 || r.expiresAt > s.now, InvalidExpiry);
    :- CheckName(s, owner, r, named);
    Ok(s.(entries := s.entries[r.blobId := NewEntry(owner, r, origin, policy, payment)],
          names := if named then s.names[(owner, Keccak(r.name)) := r.blobId] else s.names))
  }

  // User creation is closed to coordinators, operator creation to users.
  function Create(s: State, c: Call): Result<State, Error>
    requires c.CreateBlob?
  {
    if c.origin.User? && c.sender in s.coordinators then Err(CoordinatorMustUseOperatorCreation)
    else if c.origin.Operator? && c.sender !in s.coordinators then Err(NotCoordinator)
    else AddBlob(s, c.sender, c.terms, c.named, c.origin, NO_POLICY, NO_PAYMENT)
  }

  predicate ValidPolicy(p: Policy) {
    && p.policyCommitment != ZeroHash
    && (p.storageMode.Public? <==> p.keyEnvelopeCommitment == ZeroHash)
    && (p.accessPolicy.ComputeOnly? <==> p.storageMode.Confidential?)
  }

  function Receive(s: State, value: nat): State {
    s.(ledger := s.ledger.(balance := s.ledger.balance + value, received := s.ledger.received + value))
  }

  function CreatePaid(s: State, c: Call): Result<State, Error>
    requires c.CreateBlobPaid?
  {
    var r, p := c.terms, c.policy;
    :- Require(c.sender !in s.coordinators, CoordinatorMustUseOperatorCreation);
    :- Require(c.named <==> r.name != [], InvalidBlobName);
    :- Require(r.expiresAt > s.now, PaidExpiryRequired);
    :- Require(ValidPolicy(p), InvalidPolicy);
    match QuoteNativePayment(r.size, r.totalShards, p.storageMode, r.expiresAt, s.now, s.rate, s.feeBps)
    case Err(reason) => Err(QuoteFailed(reason))
    case Ok(t) =>
      if c.value < t.total then Err(IncorrectPayment)
      else
        var s1 :- AddBlob(Receive(s, c.value), c.sender, r, c.named, User, p, Escrow(c.sender, t, s.now));
        ReturnChange(s1, c.sender, c.value - t.total)
  }

  function ReturnChange(s: State, payer: Address, excess: nat): Result<State, Error> {
    if excess == 0 then Ok(s) else Pay(s, ChangeTo(payer, excess))
  }

  // ---- Settlement ----

  // Write the slots back, release the fee, and pay the provider's operator.
  function PayClaim(s: State, blobId: Hash, operator: Address, c: Claimed): Result<State, Error> {
    Pay(Put(s, blobId, c.entry).(ledger := s.ledger.(withdrawable := s.ledger.withdrawable + c.feeReleased)),
        ToProvider(blobId, c.provider, operator, c.immediate, c.reserve, c.amount))
  }

  function ClaimStep(s: State, c: Call): Result<State, Error>
    requires c.ClaimProviderSettlement?
  {
    var e :- Lookup(s, c.blobId);
    var claimed :- Claim(e, CallerProvider(s, c.sender), c.shards, s.now);
    PayClaim(s, c.blobId, c.sender, claimed)
  }

  function RefundStep(s: State, c: Call): Result<State, Error>
    requires c.RefundPaidBlob?
  {
    var e :- Owned(s, c.sender, c.blobId);
    var refunded :- Refund(e, s.now);
    Pay(Put(s, c.blobId, refunded), RefundTo(c.blobId, e.payment.payer, e.payment.totalPaid))
  }

  function WithdrawStep(s: State, c: Call): Result<State, Error>
    requires c.WithdrawProtocolFees?
  {
    var l := s.ledger;
    :- Require(c.sender == s.admin, NotAdmin);
    :- Require(c.recipient != 0, InvalidAddress);
    :- Require(0 < c.amount <= l.withdrawable, InvalidFeeAmount);
    Pay(s.(ledger := l.(withdrawable := l.withdrawable - c.amount, feesWithdrawn := l.feesWithdrawn + c.amount)),
        FeesTo(c.recipient, c.amount))
  }

  // ---- Confidential access ----

  predicate Authorized(s: State, e: Entry, blobId: Hash, requester: Address) {
    e.owner == requester || (e.policy.accessPolicy.SelectedWallets? && (blobId, requester) in s.selected)
  }

  predicate Unexpired(s: State, e: Entry) {
    e.terms.expiresAt == 0 || e.terms.expiresAt > s.now
  }

  function NonceOf(s: State, blobId: Hash, requester: Address): nat {
    if (blobId, requester) in s.nonces then s.nonces[(blobId, requester)] else 0
  }

  function RequiredPurpose(p: Policy): AccessPurpose {
    if p.storageMode.Confidential? || p.accessPolicy.ComputeOnly? then Compute else View
  }

  function Authorize(s: State, c: Call): Result<State, Error>
    requires c.AuthorizeAccess?
  {
    var r := c.request;
    var e :- Lookup(s, r.blobId);
    :- Require(!e.policy.storageMode.Public?, EncryptedStorageRequired);
    :- Require(r.requester != 0, RequesterRequired);
    :- Require(r.deviceKey != ZeroHash, DeviceKeyRequired);
    :- Require(!e.status.Revoked?, BlobRevoked);
    :- Require(Unexpired(s, e), AccessExpired);
    :- Require(r.deadline >= s.now, AccessExpired);
    :- Require(r.deadline <= s.now + MAX_ACCESS_LIFETIME, DeadlineTooFar);
    :- Require(r.nonce == NonceOf(s, r.blobId, r.requester), InvalidNonce);
    :- Require(r.purpose == RequiredPurpose(e.policy), WrongPurpose);
    :- Require(Authorized(s, e, r.blobId, r.requester), NotAuthorized);
    :- Require(c.signer == Some(r.requester), InvalidSignature);
    Ok(s.(nonces := s.nonces[(r.blobId, r.requester) := r.nonce + 1], requests := s.requests[r := false]))
  }

  // _isConfidentialAccessUsable
  predicate Usable(s: State, r: AccessRequest) {
    && r in s.requests && !s.requests[r]
    && r.deadline >= s.now
    && r.blobId in s.entries
    && var e := s.entries[r.blobId];
       !e.status.Revoked? && Unexpired(s, e) && Authorized(s, e, r.blobId, r.requester)
  }

  function RecordResult(s: State, c: Call): Result<State, Error>
    requires c.RecordAccessResult?
  {
    if c.sender !in s.controllers then Err(NotAccessController)
    else if c.response == ZeroHash then Err(ResponseRequired)
    else if !Usable(s, c.request) then Err(AccessUnusable)
    else Ok(s.(requests := s.requests[c.request := true]))
  }

  // ---- Administration and providers ----

  function Toggle<T>(members: set<T>, member: T, allowed: bool): set<T> {
    if allowed then members + {member} else members - {member}
  }

  function Administer(s: State, c: Call): Result<State, Error>
    requires c.SetCoordinator? || c.SetAccessController? || c.SetNativePricing?
  {
    if c.sender != s.admin then Err(NotAdmin)
    else match c
      case SetCoordinator(_, account, allowed) =>
        if account == 0 then Err(InvalidAddress) else Ok(s.(coordinators := Toggle(s.coordinators, account, allowed)))
      case SetAccessController(_, account, allowed) =>
        if account == 0 then Err(InvalidAddress) else Ok(s.(controllers := Toggle(s.controllers, account, allowed)))
      case SetNativePricing(_, rate, feeBps) =>
        if rate == 0 || feeBps > BPS then Err(InvalidPricing) else Ok(s.(rate := rate, feeBps := feeBps))
  }

  function SelectWallet(s: State, c: Call): Result<State, Error>
    requires c.SetBlobWalletAccess?
  {
    var e :- Owned(s, c.sender, c.blobId);
    :- Require(c.wallet != 0, InvalidAddress);
    :- Require(e.policy.accessPolicy.SelectedWallets?, SelectedWalletPolicyRequired);
    Ok(s.(selected := Toggle(s.selected, (c.blobId, c.wallet), c.allowed)))
  }

  function Register(s: State, c: Call): Result<State, Error>
    requires c.RegisterProvider?
  {
    var pid := s.nextProviderId;
    :- Require(c.sender != 0, InvalidAddress);
    :- Require(c.sender !in s.providerIdOf, ProviderAlreadyRegistered);
    :- Require(c.endpoint != "", EndpointRequired);
    :- Require(c.signingKey != ZeroHash, SigningKeyRequired);
    Ok(s.(nextProviderId := pid + 1,
          providers := s.providers[pid := Provider(c.sender, c.endpoint, c.signingKey, true, Stamp(s.now))],
          providerIdOf := s.providerIdOf[c.sender := pid]))
  }

  function SetStatus(s: State, c: Call): Result<State, Error>
    requires c.SetProviderStatus?
  {
    if c.providerId in s.providers && s.providers[c.providerId].operator == c.sender
    then Ok(s.(providers := s.providers[c.providerId := s.providers[c.providerId].(active := c.active)]))
    else Err(NotProviderOperator)
  }

  // ---- Entry points that only move a blob's lifecycle ----

  predicate IsLifecycle(c: Call) {
    c.AssignShard? || c.AcknowledgeShard? || c.FinalizeBlob? || c.StartShardRecovery? || c.ReassignShard? || c.RecordRebuiltShard?
  }

  function LifecycleEntry(s: State, c: Call): Result<Entry, Error>
    requires IsLifecycle(c)
  {
    match c
    case AssignShard(sender, id, shard, pid) =>
      var e :- Controlled(s, sender, id);
      Assign(e, shard, pid, IsActive(s, pid))
    case AcknowledgeShard(sender, id, shard, commitment, size) =>
      var e :- Lookup(s, id);
      Acknowledge(e, shard, CallerProvider(s, sender), commitment, size, s.now)
    case FinalizeBlob(sender, id) =>
      var e :- Controlled(s, sender, id);
      Finalize(e)
    case StartShardRecovery(sender, id, shard) =>
      var e :- Controlled(s, sender, id);
      StartRecovery(e, shard)
    case ReassignShard(sender, id, shard, pid) =>
      var e :- Controlled(s, sender, id);
      Reassign(e, shard, pid, IsActive(s, pid))
    case RecordRebuiltShard(sender, id, shard, pid, commitment) =>
      var e :- Controlled(s, sender, id);
      RecordRebuilt(e, shard, pid, commitment)
  }

  function Lifecycle(s: State, c: Call): Result<State, Error>
    requires IsLifecycle(c)
  {
    var e :- LifecycleEntry(s, c);
    Ok(Put(s, c.blobId, e))
  }

  function Step(s: State, c: Call): Result<State, Error> {
    match c
    case SetCoordinator(_, _, _) => Administer(s, c)
    case SetAccessController(_, _, _) => Administer(s, c)
    case SetNativePricing(_, _, _) => Administer(s, c)
    case SetBlobWalletAccess(_, _, _, _) => SelectWallet(s, c)
    case AuthorizeAccess(_, _, _) => Authorize(s, c)
    case RecordAccessResult(_, _, _) => RecordResult(s, c)
    case RegisterProvider(_, _, _) => Register(s, c)
    case SetProviderStatus(_, _, _) => SetStatus(s, c)
    case CreateBlob(_, _, _, _) => Create(s, c)
    case CreateBlobPaid(_, _, _, _, _) => CreatePaid(s, c)
    case ClaimProviderSettlement(_, _, _) => ClaimStep(s, c)
    case RefundPaidBlob(_, _) => RefundStep(s, c)
    case WithdrawProtocolFees(_, _, _) => WithdrawStep(s, c)
    case AssignShard(_, _, _, _) => Lifecycle(s, c)
    case AcknowledgeShard(_, _, _, _, _) => Lifecycle(s, c)
    case FinalizeBlob(_, _) => Lifecycle(s, c)
    case StartShardRecovery(_, _, _) => Lifecycle(s, c)
    case ReassignShard(_, _, _, _) => Lifecycle(s, c)
    case RecordRebuiltShard(_, _, _, _, _) => Lifecycle(s, c)
  }
}
