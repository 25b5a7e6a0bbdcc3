/** `apps/tron/sign_tx.py`: validate the request, derive the key and the
    device's own address, confirm the attached data and the one contract the
    request carries, then serialize, hash and sign. */
module SignTx {
  import opened Messages
  import opened Wire
  import opened Ui
  import opened Confirm
  import opened Layout

  /** A signature as `secp256k1.sign` returns it: one header byte holding the
      recovery information, then the 32 bytes of r and the 32 bytes of s. */
  type RawSignature = s: seq<byte> | |s| == 65 witness seq(65, _ => 0)

  /** The collaborators the signing flow calls: key derivation, public key
      and address computation, base58 encoding, the serializer, SHA-256 and
      the signing primitive. They are parameters of the model. */
  datatype Env = Env(
    derivePrivateKey: seq<uint32> -> seq<byte>,
    publicKey: seq<byte> -> seq<byte>,
    addressFromPublicKey: seq<byte> -> seq<byte>,
    b58: seq<byte> -> string,
    serialize: (TronSignTx, seq<byte>) -> seq<byte>,
    sha256: seq<byte> -> seq<byte>,
    sign: (seq<byte>, seq<byte>) -> RawSignature)

  const MissingFields :=
    "Some of the required fields are missing (fee, sequence, payment.amount, payment.destination)"

  const InvalidTransactionType := "Invalid transaction type"

  // ---------------------------------------------------------------------
  // Validation

  /** `validate`: a request without a contract container is refused. */
  function Validate(msg: TronSignTx): (r: Outcome)
    ensures r.Pass? <==> msg.contract.Some?
    ensures r.Fail? ==> r.error == ProcessError(MissingFields)
  {
    if msg.contract.None? then Fail(ProcessError(MissingFields)) else Pass
  }

  // ---------------------------------------------------------------------
  // Dispatch

  /** The sixteen contract kinds, each with its message. */
  datatype Variant =
    | Transfer(transfer: TransferContract)
    | TransferAsset(transferAsset: TransferAssetContract)
    | VoteWitness(voteWitness: VoteWitnessContract)
    | WitnessCreate(witnessCreate: WitnessCreateContract)
    | AssetIssue(assetIssue: AssetIssueContract)
    | WitnessUpdate(witnessUpdate: WitnessUpdateContract)
    | ParticipateAssetIssue(participateAssetIssue: ParticipateAssetIssueContract)
    | AccountUpdate(accountUpdate: AccountUpdateContract)
    | FreezeBalance(freezeBalance: FreezeBalanceContract)
    | UnfreezeBalance(unfreezeBalance: UnfreezeBalanceContract)
    | WithdrawBalance(withdrawBalance: WithdrawBalanceContract)
    | UnfreezeAsset(unfreezeAsset: UnfreezeAssetContract)
    | UpdateAsset(updateAsset: UpdateAssetContract)
    | ProposalCreate(proposalCreate: ProposalCreateContract)
    | ProposalApprove(proposalApprove: ProposalApproveContract)
    | ProposalDelete(proposalDelete: ProposalDeleteContract)

  /** The sixteen fields of the container as candidate kinds, in priority order. */
  function Candidates(c: TronContract): (r: seq<Option<Variant>>)
    ensures |r| == 16
  {
    [ (if c.transferContract.Some? then Some(Transfer(c.transferContract.value)) else None),
      (if c.transferAssetContract.Some? then Some(TransferAsset(c.transferAssetContract.value)) else None),
      (if c.voteWitnessContract.Some? then Some(VoteWitness(c.voteWitnessContract.value)) else None),
      (if c.witnessCreateContract.Some? then Some(WitnessCreate(c.witnessCreateContract.value)) else None),
      (if c.assetIssueContract.Some? then Some(AssetIssue(c.assetIssueContract.value)) else None),
      (if c.witnessUpdateContract.Some? then Some(WitnessUpdate(c.witnessUpdateContract.value)) else None),
      (if c.participateAssetIssueContract.Some? then Some(ParticipateAssetIssue(c.participateAssetIssueContract.value)) else None),
      (if c.accountUpdateContract.Some? then Some(AccountUpdate(c.accountUpdateContract.value)) else None),
      (if c.freezeBalanceContract.Some? then Some(FreezeBalance(c.freezeBalanceContract.value)) else None),
      (if c.unfreezeBalanceContract.Some? then Some(UnfreezeBalance(c.unfreezeBalanceContract.value)) else None),
      (if c.withdrawBalanceContract.Some? then Some(WithdrawBalance(c.withdrawBalanceContract.value)) else None),
      (if c.unfreezeAssetContract.Some? then Some(UnfreezeAsset(c.unfreezeAssetContract.value)) else None),
      (if c.updateAssetContract.Some? then Some(UpdateAsset(c.updateAssetContract.value)) else None),
      (if c.proposalCreateContract.Some? then Some(ProposalCreate(c.proposalCreateContract.value)) else None),
      (if c.proposalApproveContract.Some? then Some(ProposalApprove(c.proposalApproveContract.value)) else None),
      (if c.proposalDeleteContract.Some? then Some(ProposalDelete(c.proposalDeleteContract.value)) else None) ]
  }

  /** The first populated option of a list, as a chain of guarded returns
      tried in order finds it. */
  function FirstSome<T>(options: seq<Option<T>>): Option<T>
  {
    if options == [] then None
    else if options[0].Some? then options[0]
    else FirstSome(options[1..])
  }

  /** Where `FirstSome` stops: the index of the first populated option, or
      the length of the list when there is none. */
  function FirstSomeAt<T>(options: seq<Option<T>>): (k: nat)
    ensures k <= |options|
  {
    if options == [] || options[0].Some? then 0 else 1 + FirstSomeAt(options[1..])
  }

  /** `FirstSome` finds the option at `FirstSomeAt`, every option before it
      is empty, and it finds nothing only when every option is empty. */
  lemma {:induction false} FirstSomeSpec<T>(options: seq<Option<T>>)
    ensures var k := FirstSomeAt(options);
            && (forall i :: 0 <= i < k ==> options[i].None?)
            && (k < |options| ==> options[k].Some? && FirstSome(options) == options[k])
            && (k == |options| ==> FirstSome(options).None?)
  {
    if options != [] && options[0].None? {
      FirstSomeSpec(options[1..]);
    }
  }

  /** The kind chosen by the chain of `if`s in `_require_confirm_by_type`:
      the first populated field, in the order the chain tests them. */
  function Selected(c: TronContract): Option<Variant>
  {
    FirstSome(Candidates(c))
  }

  /** The dispatch picks the first populated field, whatever the later ones
      hold, and finds nothing only when no field is populated. */
  lemma SelectedIsFirstPopulated(c: TronContract)
    ensures Selected(c).None? <==> forall i :: 0 <= i < 16 ==> Candidates(c)[i].None?
    ensures Selected(c).Some? ==>
              var k := FirstSomeAt(Candidates(c));
              && k < 16 && Candidates(c)[k] == Selected(c)
              && forall i :: 0 <= i < k ==> Candidates(c)[i].None?
  {
    FirstSomeSpec(Candidates(c));
  }

  // ---------------------------------------------------------------------
  // Vote counting

  /** The total of the vote counts. */
  function SumVotes(votes: seq<Vote>): int
  {
    if votes == [] then 0 else SumVotes(votes[..|votes| - 1]) + votes[|votes| - 1].voteCount
  }

  /** The counting loop of the vote-witness branch: one candidate per vote
      entry, and the sum of their counts. */
  method CountVotes(votes: seq<Vote>) returns (votesAddr: int, votesTotal: int)
    ensures votesAddr == |votes|
    ensures votesTotal == SumVotes(votes)
  {
    votesAddr := 0;
    votesTotal := 0;
    for i := 0 to |votes|
      invariant votesAddr == i
      invariant votesTotal == SumVotes(votes[..i])
    {
      votesAddr := votesAddr + 1;
      votesTotal := votesTotal + votes[i].voteCount;
      assert votes[..i + 1][..i] == votes[..i];
    }
    assert votes[..|votes|] == votes;
  }

  /** Votes sum up piece by piece. */
  lemma {:induction false} SumVotesAppend(a: seq<Vote>, b: seq<Vote>)
    ensures SumVotes(a + b) == SumVotes(a) + SumVotes(b)
    decreases |b|
  {
    if b == [] {
      assert a + b == a;
    } else {
      var b' := b[..|b| - 1];
      assert (a + b)[..|a + b| - 1] == a + b';
      SumVotesAppend(a, b');
    }
  }

  // ---------------------------------------------------------------------
  // Confirmation

  /** `str(owner_address, "utf-8")` for the ASCII text of an address. */
  function AsciiText(b: seq<byte>): (s: string)
    ensures |s| == |b| && forall i :: 0 <= i < |b| ==> s[i] as int == b[i] as int
  {
    seq(|b|, i requires 0 <= i < |b| => (b[i] as int) as char)
  }

  /** The "Data attached" prompt, shown only for non-empty data. */
  function DataPrompts(tx: TronSignTx): seq<Text>
  {
    if tx.data.Some? && tx.data.value != "" then [DataPrompt(tx.data.value)] else []
  }

  /** The prompts of one contract kind, in the order they are shown, as its
      branch of the dispatch builds them: one per parameter of a proposal,
      a single prompt for every other kind; `owner` is the device's own address. */
  function VariantPrompts(env: Env, v: Variant, owner: seq<byte>): (prompts: seq<Text>)
    ensures !v.ProposalCreate? ==> |prompts| == 1
  {
    match v
    case Transfer(t) => [TxPrompt(env.b58(t.toAddress), t.amount)]
    case TransferAsset(t) => [TxAssetPrompt(t.assetName, env.b58(t.toAddress), t.amount)]
    case VoteWitness(w) => [VoteWitnessPrompt(|w.votes|, SumVotes(w.votes))]
    case WitnessCreate(w) => [WitnessContractPrompt(w.url)]
    case AssetIssue(a) => [AssetIssuePrompt(a.name, a.abbr, a.totalSupply, a.trxNum, a.num)]
    case WitnessUpdate(w) => [WitnessUpdatePrompt(AsciiText(owner), w.updateUrl)]
    case ParticipateAssetIssue(p) => [ParticipateAssetPrompt(p.assetName, p.amount)]
    case AccountUpdate(a) => [AccountUpdatePrompt(a.accountName)]
    case FreezeBalance(f) => [FreezeBalancePrompt(f.frozenBalance, f.frozenDuration)]
    case UnfreezeBalance(_) => [UnfreezeBalancePrompt()]
    case WithdrawBalance(_) => [WithdrawBalancePrompt()]
    case UnfreezeAsset(_) => [UnfreezeAssetPrompt()]
    case UpdateAsset(u) => [UpdateAssetPrompt(u.description, u.url)]
    case ProposalCreate(p) => ProposalPrompts(p.parameters)
    case ProposalApprove(p) => [ProposalApprovePrompt(p.proposalId, p.isAddApproval)]
    case ProposalDelete(p) => [ProposalDeletePrompt(p.proposalId)]
  }

  /** The prompts of the populated kind, or nothing when no field is populated. */
  function ContractPrompts(env: Env, c: TronContract, owner: seq<byte>): Option<seq<Text>>
  {
    match Selected(c)
    case None => None
    case Some(v) => Some(VariantPrompts(env, v, owner))
  }

  /** The shape of `_require_confirm_by_type`, a chain of guarded returns:
      the data prompts first, then `DataError` when no kind is populated, or
      the prompts of the kind that is. The session afterwards and the outcome. */
  function Dispatch(s: Session, data: seq<Text>, contract: Option<seq<Text>>): (r: (Session, Outcome))
    ensures r.1 in {Pass, Fail(ActionCancelled), Fail(DataError(InvalidTransactionType))}
    ensures r.1 == Pass ==> contract.Some?
    ensures r.1 == Fail(DataError(InvalidTransactionType)) <==> contract.None? && ConfirmAll(s, data).1 == Pass
  {
    var confirmed := ConfirmAll(s, data);
    if confirmed.1.Fail? then confirmed
    else if contract.None? then (confirmed.0, Fail(DataError(InvalidTransactionType)))
    else ConfirmAll(confirmed.0, contract.value)
  }

  /** `_require_confirm_by_type` for one request. */
  function ConfirmByType(env: Env, s: Session, tx: TronSignTx, owner: seq<byte>): (Session, Outcome)
    requires tx.contract.Some?
  {
    Dispatch(s, DataPrompts(tx), ContractPrompts(env, tx.contract.value, owner))
  }

  // ---------------------------------------------------------------------
  // Signing

  /** `public_key[:65]`. */
  function Prefix(b: seq<byte>, n: nat): seq<byte>
  {
    if |b| <= n then b else b[..n]
  }

  /** The device's own address for the derivation path. */
  function OwnerAddress(env: Env, path: seq<uint32>): seq<byte>
  {
    env.addressFromPublicKey(Prefix(env.publicKey(env.derivePrivateKey(path)), 65))
  }

  /** `signature[1:65] + bytes([~signature[0] & 0x01])`: r and s first, then
      one byte holding the complement of the header's low bit. */
  function RepackSignature(raw: RawSignature): (sig: seq<byte>)
    ensures |sig| == 65 && sig[..64] == raw[1..]
    ensures sig[64] as int == 1 - (raw[0] as int) % 2
  {
    raw[1..] + [!raw[0] & 1]
  }

  /** A header of 0 gives a last byte of 1, a header of 1 a last byte of 0. */
  lemma RepackSignatureExamples(raw: RawSignature)
    ensures raw[0] == 0 ==> RepackSignature(raw)[64] == 1
    ensures raw[0] == 1 ==> RepackSignature(raw)[64] == 0
  {
  }

  /** What follows the confirmation in `sign_tx`: a refusal or an error ends
      the flow; otherwise the transaction is serialized, hashed and signed. */
  function Finish(env: Env, msg: TronSignTx, owner: seq<byte>, confirmed: (Session, Outcome))
    : (Session, Result<TronSignedTx>)
  {
    if confirmed.1.Fail? then (confirmed.0, Err(confirmed.1.error))
    else
      var rawData := env.serialize(msg, owner);
      var signature := env.sign(env.derivePrivateKey(msg.addressN), env.sha256(rawData));
      (Session(confirmed.0.answers, confirmed.0.log + [Serialize, Hash, Sign]),
       Ok(TronSignedTx(RepackSignature(signature), rawData)))
  }

  /** The whole of `sign_tx` as a function of the collaborators, the session
      and the request: the session afterwards and the result. */
  function Signing(env: Env, s: Session, msg: TronSignTx): (Session, Result<TronSignedTx>)
  {
    if Validate(msg).Fail? then (s, Err(Validate(msg).error))
    else
      var owner := OwnerAddress(env, msg.addressN);
      Finish(env, msg, owner, ConfirmByType(env, Session(s.answers, s.log + [DeriveNode(msg.addressN)]), msg, owner))
  }

  /** `sign_tx`: validate, derive the key and the address, confirm, and only
      then serialize, hash and sign. */
  method SignTx(env: Env, s: Session, msg: TronSignTx) returns (s': Session, result: Result<TronSignedTx>)
    ensures (s', result) == Signing(env, s, msg)
  {
    var valid := Validate(msg);
    if valid.Fail? {
      return s, Err(valid.error);
    }
    var addressN := msg.addressN;
    var seckey := env.derivePrivateKey(addressN);
    s' := Session(s.answers, s.log + [DeriveNode(addressN)]);
    var publicKey := env.publicKey(seckey);
    var address := env.addressFromPublicKey(Prefix(publicKey, 65));
    var confirmed := ConfirmByType(env, s', msg, address);
    var out;
    s', out := confirmed.0, confirmed.1;
    if out.Fail? {
      return s', Err(out.error);
    }
    var rawData := env.serialize(msg, address);
    var dataHash := env.sha256(rawData);
    var signature := env.sign(seckey, dataHash);
    s' := Session(s'.answers, s'.log + [Serialize, Hash, Sign]);
    result := Ok(TronSignedTx(RepackSignature(signature), rawData));
  }

  // ---------------------------------------------------------------------
  // Properties of the signing flow

  /** Every prompt a dispatch can show, in the order they come. */
  function AllPrompts(data: seq<Text>, contract: Option<seq<Text>>): seq<Text>
  {
    data + if contract.Some? then contract.value else []
  }

  /** The dispatch is one run over all its prompts; when no kind is
      populated, accepting the data prompts leads to `DataError`. */
  lemma DispatchIsRun(s: Session, data: seq<Text>, contract: Option<seq<Text>>)
    ensures var run := ConfirmAll(s, AllPrompts(data, contract));
            var r := Dispatch(s, data, contract);
            && r.0 == run.0
            && (contract.Some? ==> r.1 == run.1)
            && (contract.None? ==>
                  r.1 == if run.1.Fail? then run.1 else Fail(DataError(InvalidTransactionType)))
  {
    if contract.None? {
      assert AllPrompts(data, contract) == data;
    } else {
      ConfirmAllAppend(s, data, contract.value);
    }
  }

  /** The flow after validation, for any prompts: they are shown up to the
      first refusal, and the transaction is signed exactly when there is a
      contract and every prompt is accepted. */
  lemma FlowTrace(env: Env, msg: TronSignTx, owner: seq<byte>, s: Session,
                  data: seq<Text>, contract: Option<seq<Text>>)
    ensures var prompts := AllPrompts(data, contract);
            var k := FirstReject(s.answers, |prompts|);
            var shown := if k < |prompts| then k + 1 else |prompts|;
            var r := Finish(env, msg, owner, Dispatch(s, data, contract));
            && (r.1.Ok? <==> contract.Some? && AcceptsFirst(s.answers, |prompts|))
            && r.0.answers == Drop(s.answers, shown)
            && r.0.log == s.log + Shows(prompts[..shown]) + (if r.1.Ok? then [Serialize, Hash, Sign] else [])
            && (r.1.Err? ==>
                  r.1.error == if k < |prompts| then ActionCancelled else DataError(InvalidTransactionType))
  {
    var prompts := AllPrompts(data, contract);
    DispatchIsRun(s, data, contract);
    FirstRejectSpec(s.answers, |prompts|);
    if AcceptsFirst(s.answers, |prompts|) {
      FirstRejectUnique(s.answers, |prompts|, |prompts|);
    }
  }

  /** Every prompt the request can show, in the order they come: the data
      prompt, then those of the selected kind. */
  function PromptsFor(env: Env, tx: TronSignTx, owner: seq<byte>): seq<Text>
    requires tx.contract.Some?
  {
    AllPrompts(DataPrompts(tx), ContractPrompts(env, tx.contract.value, owner))
  }

  /** After validation, `sign_tx` is the flow above with the request's own
      data prompt and contract prompts, started once the key is derived. */
  lemma SigningIsFlow(env: Env, s: Session, msg: TronSignTx, data: seq<Text>, contract: Option<seq<Text>>)
    requires msg.contract.Some?
    requires data == DataPrompts(msg)
    requires contract == ContractPrompts(env, msg.contract.value, OwnerAddress(env, msg.addressN))
    ensures var owner := OwnerAddress(env, msg.addressN);
            && Signing(env, s, msg) ==
               Finish(env, msg, owner, Dispatch(Session(s.answers, s.log + [DeriveNode(msg.addressN)]), data, contract))
            && PromptsFor(env, msg, owner) == AllPrompts(data, contract)
            && (contract.Some? <==> Selected(msg.contract.value).Some?)
  {
  }

  /** The result of `sign_tx`. A request without a contract is refused before
      anything else happens. Otherwise a signature results exactly when a
      kind was found and every prompt was accepted; a refused prompt raises
      `ActionCancelled`, a missing kind `DataError`; and the response carries
      the serialized transaction and the repacked signature of its hash, made
      with the key of the requested path. */
  lemma SigningResult(env: Env, s: Session, msg: TronSignTx)
    ensures msg.contract.None? ==> Signing(env, s, msg) == (s, Err(ProcessError(MissingFields)))
    ensures msg.contract.Some? ==>
            var owner := OwnerAddress(env, msg.addressN);
            var prompts := PromptsFor(env, msg, owner);
            var r := Signing(env, s, msg).1;
            var rawData := env.serialize(msg, owner);
            && (r.Ok? <==> Selected(msg.contract.value).Some? && AcceptsFirst(s.answers, |prompts|))
            && (r.Err? ==>
                  r.error == if FirstReject(s.answers, |prompts|) < |prompts| then ActionCancelled
                             else DataError(InvalidTransactionType))
            && (r.Ok? ==>
                  r.value == TronSignedTx(
                    RepackSignature(env.sign(env.derivePrivateKey(msg.addressN), env.sha256(rawData))),
                    rawData))
  {
    if msg.contract.Some? {
      var owner := OwnerAddress(env, msg.addressN);
      var start := Session(s.answers, s.log + [DeriveNode(msg.addressN)]);
      var data, contract := DataPrompts(msg), ContractPrompts(env, msg.contract.value, owner);
      SigningIsFlow(env, s, msg, data, contract);
      FlowTrace(env, msg, owner, start, data, contract);
    }
  }

  /** With nothing to confirm, the flow signs at once and uses no answer. */
  lemma NothingToConfirm(env: Env, msg: TronSignTx, owner: seq<byte>, s: Session)
    ensures Finish(env, msg, owner, Dispatch(s, [], Some([]))).1.Ok?
    ensures Finish(env, msg, owner, Dispatch(s, [], Some([]))).0
            == Session(s.answers, s.log + [Serialize, Hash, Sign])
  {
    assert Shows([][..0]) == [];
  }

  /** A proposal without parameters and without attached data shows nothing:
      it is signed without a single answer being used. */
  lemma EmptyProposalSigned(env: Env, s: Session, msg: TronSignTx)
    requires msg.contract.Some? && DataPrompts(msg) == []
    requires Selected(msg.contract.value).Some?
    requires Selected(msg.contract.value).value.ProposalCreate?
    requires Selected(msg.contract.value).value.proposalCreate.parameters == []
    ensures Signing(env, s, msg).1.Ok?
    ensures Signing(env, s, msg).0 == Session(s.answers, s.log + [DeriveNode(msg.addressN)] + [Serialize, Hash, Sign])
  {
    var owner := OwnerAddress(env, msg.addressN);
    EmptyProposalPrompts(env, msg.contract.value, owner);
    SigningIsFlow(env, s, msg, [], Some([]));
    NothingToConfirm(env, msg, owner, Session(s.answers, s.log + [DeriveNode(msg.addressN)]));
  }

  lemma EmptyProposalPrompts(env: Env, c: TronContract, owner: seq<byte>)
    requires Selected(c).Some? && Selected(c).value.ProposalCreate?
    requires Selected(c).value.proposalCreate.parameters == []
    ensures ContractPrompts(env, c, owner) == Some([])
  {
    ProposalKindPrompts(env, c, owner);
    assert ProposalPrompts([]) == [];
  }

  /** A witness update shows the device's own address, derived from the
      requested path, and not a field of the contract. */
  lemma WitnessUpdateShowsOwner(env: Env, c: TronContract, owner: seq<byte>)
    requires Selected(c).Some? && Selected(c).value.WitnessUpdate?
    ensures var prompts := ContractPrompts(env, c, owner);
            && prompts.Some? && |prompts.value| == 1
            && |prompts.value[0].lines| > 1 && prompts.value[0].lines[1] == Line(Normal, AsciiText(owner))
  {
    var w := Selected(c).value.witnessUpdate;
    WitnessUpdatePrompts(env, w, owner);
  }

  lemma WitnessUpdatePrompts(env: Env, w: WitnessUpdateContract, owner: seq<byte>)
    ensures var prompts := VariantPrompts(env, WitnessUpdate(w), owner);
            && |prompts| == 1
            && |prompts[0].lines| > 1 && prompts[0].lines[1] == Line(Normal, AsciiText(owner))
  {
    var t := WitnessUpdatePrompt(AsciiText(owner), w.updateUrl);
    assert VariantPrompts(env, WitnessUpdate(w), owner)[0] == t;
    assert t.lines[..2][1] == t.lines[1];
  }

  /** A proposal is confirmed through the loop of
      `require_confirm_proposal_create_contract`: its prompts are exactly the
      per-parameter prompts of that loop, in parameter order. */
  lemma ProposalKindPrompts(env: Env, c: TronContract, owner: seq<byte>)
    requires Selected(c).Some? && Selected(c).value.ProposalCreate?
    ensures ContractPrompts(env, c, owner)
            == Some(ProposalPrompts(Selected(c).value.proposalCreate.parameters))
  {
    ProposalVariantPrompts(env, Selected(c).value.proposalCreate, owner);
  }

  lemma ProposalVariantPrompts(env: Env, p: ProposalCreateContract, owner: seq<byte>)
    ensures VariantPrompts(env, ProposalCreate(p), owner) == ProposalPrompts(p.parameters)
  {
  }

  /** A transfer shows one prompt, whose bold first line is the contract's
      own amount in TRX and whose mono lines are its destination. */
  lemma TransferKindPrompts(env: Env, c: TronContract, owner: seq<byte>)
    requires Selected(c).Some? && Selected(c).value.Transfer?
    ensures var t := Selected(c).value.transfer;
            var prompts := ContractPrompts(env, c, owner);
            && prompts == Some([TxPrompt(env.b58(t.toAddress), t.amount)])
            && prompts.value[0].lines[0] == Line(Bold, FormatAmountTrx(t.amount))
            && Wraps(prompts.value[0].lines[1..], Mono, "To: " + env.b58(t.toAddress), 16)
  {
    TransferPrompts(env, Selected(c).value.transfer, owner);
  }

  lemma TransferPrompts(env: Env, t: TransferContract, owner: seq<byte>)
    ensures VariantPrompts(env, Transfer(t), owner) == [TxPrompt(env.b58(t.toAddress), t.amount)]
  {
  }

  /** A token transfer shows one prompt: the contract's amount and token
      name in bold, then its destination. */
  lemma TransferAssetKindPrompts(env: Env, c: TronContract, owner: seq<byte>)
    requires Selected(c).Some? && Selected(c).value.TransferAsset?
    ensures var t := Selected(c).value.transferAsset;
            var prompts := ContractPrompts(env, c, owner);
            && prompts == Some([TxAssetPrompt(t.assetName, env.b58(t.toAddress), t.amount)])
            && prompts.value[0].lines[0] == Line(Bold, FormatAmountToken(t.amount) + t.assetName)
            && Wraps(prompts.value[0].lines[1..], Mono, "To: " + env.b58(t.toAddress), 16)
  {
    TransferAssetPrompts(env, Selected(c).value.transferAsset, owner);
  }

  lemma TransferAssetPrompts(env: Env, t: TransferAssetContract, owner: seq<byte>)
    ensures VariantPrompts(env, TransferAsset(t), owner)
            == [TxAssetPrompt(t.assetName, env.b58(t.toAddress), t.amount)]
  {
  }

  /** A freeze shows one prompt, with the contract's frozen amount in TRX
      and its duration in days. */
  lemma FreezeBalanceKindPrompts(env: Env, c: TronContract, owner: seq<byte>)
    requires Selected(c).Some? && Selected(c).value.FreezeBalance?
    ensures var f := Selected(c).value.freezeBalance;
            var prompts := ContractPrompts(env, c, owner);
            && prompts == Some([FreezeBalancePrompt(f.frozenBalance, f.frozenDuration)])
            && prompts.value[0].lines[2] == Line(Bold, FormatAmountTrx(f.frozenBalance))
  {
    FreezeBalancePrompts(env, Selected(c).value.freezeBalance, owner);
  }

  lemma FreezeBalancePrompts(env: Env, f: FreezeBalanceContract, owner: seq<byte>)
    ensures VariantPrompts(env, FreezeBalance(f), owner)
            == [FreezeBalancePrompt(f.frozenBalance, f.frozenDuration)]
  {
  }

  /** A vote shows one prompt, built from the number of vote entries and the
      total of their counts. */
  lemma VoteWitnessKindPrompts(env: Env, c: TronContract, owner: seq<byte>)
    requires Selected(c).Some? && Selected(c).value.VoteWitness?
    ensures var w := Selected(c).value.voteWitness;
            ContractPrompts(env, c, owner) == Some([VoteWitnessPrompt(|w.votes|, SumVotes(w.votes))])
  {
    VoteWitnessPrompts(env, Selected(c).value.voteWitness, owner);
  }

  lemma VoteWitnessPrompts(env: Env, w: VoteWitnessContract, owner: seq<byte>)
    ensures VariantPrompts(env, VoteWitness(w), owner) == [VoteWitnessPrompt(|w.votes|, SumVotes(w.votes))]
  {
  }
}
