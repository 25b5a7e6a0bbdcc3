/** The request and response messages of Tron signing, as the protobuf
    schema shapes them. Only the fields the confirmation layout reads are
    kept; the serializer, which reads the rest, is a parameter of the model. */
module Messages {

  type byte = bv8

  newtype uint32 = x: int | 0 <= x < 0x1_0000_0000

  /** An optional protobuf field: `None` when the host left it out. */
  datatype Option<T> = None | Some(value: T)

  datatype TransferContract = TransferContract(toAddress: seq<byte>, amount: int)

  datatype TransferAssetContract =
    TransferAssetContract(assetName: string, toAddress: seq<byte>, amount: int)

  datatype Vote = Vote(voteAddress: seq<byte>, voteCount: int)

  datatype VoteWitnessContract = VoteWitnessContract(votes: seq<Vote>)

  datatype WitnessCreateContract = WitnessCreateContract(url: string)

  datatype AssetIssueContract =
    AssetIssueContract(name: string, abbr: string, totalSupply: int, trxNum: int, num: int)

  datatype WitnessUpdateContract = WitnessUpdateContract(updateUrl: string)

  datatype ParticipateAssetIssueContract =
    ParticipateAssetIssueContract(assetName: string, amount: int)

  datatype AccountUpdateContract = AccountUpdateContract(accountName: string)

  datatype FreezeBalanceContract =
    FreezeBalanceContract(frozenBalance: int, frozenDuration: int)

  datatype UnfreezeBalanceContract = UnfreezeBalanceContract

  datatype WithdrawBalanceContract = WithdrawBalanceContract

  datatype UnfreezeAssetContract = UnfreezeAssetContract

  datatype UpdateAssetContract = UpdateAssetContract(description: string, url: string)

  datatype ProposalParameter = ProposalParameter(key: int, value: int)

  datatype ProposalCreateContract = ProposalCreateContract(parameters: seq<ProposalParameter>)

  datatype ProposalApproveContract =
    ProposalApproveContract(proposalId: int, isAddApproval: bool)

  datatype ProposalDeleteContract = ProposalDeleteContract(proposalId: int)

  /** The contract container: the schema lets any number of its fields be set. */
  datatype TronContract = TronContract(
    transferContract: Option<TransferContract>,
    transferAssetContract: Option<TransferAssetContract>,
    voteWitnessContract: Option<VoteWitnessContract>,
    witnessCreateContract: Option<WitnessCreateContract>,
    assetIssueContract: Option<AssetIssueContract>,
    witnessUpdateContract: Option<WitnessUpdateContract>,
    participateAssetIssueContract: Option<ParticipateAssetIssueContract>,
    accountUpdateContract: Option<AccountUpdateContract>,
    freezeBalanceContract: Option<FreezeBalanceContract>,
    unfreezeBalanceContract: Option<UnfreezeBalanceContract>,
    withdrawBalanceContract: Option<WithdrawBalanceContract>,
    unfreezeAssetContract: Option<UnfreezeAssetContract>,
    updateAssetContract: Option<UpdateAssetContract>,
    proposalCreateContract: Option<ProposalCreateContract>,
    proposalApproveContract: Option<ProposalApproveContract>,
    proposalDeleteContract: Option<ProposalDeleteContract>)

  /** `TronSignTx`: an absent `address_n` reads as the empty path and an
      absent `data` as `None`. */
  datatype TronSignTx = TronSignTx(
    addressN: seq<uint32>,
    contract: Option<TronContract>,
    data: Option<string>)

  datatype TronSignedTx = TronSignedTx(signature: seq<byte>, serializedTx: seq<byte>)
}
