/**
 * The page's actions: connecting, refreshing the displayed numbers,
 * switching tabs, and the three transactions (create, vote, execute).
 * Each action yields the call it sends to the DAO contract, if any, and
 * the ordered `setState` writes it performs.
 */
module Workflow {
  import opened Wrappers
  import opened DecimalText
  import opened Network
  import opened Proposals
  import opened Session

  /** A vote as the page's two buttons label it. */
  datatype Vote = Yay | Nay

  function VoteLabel(v: Vote): string {
    match v
    case Yay => "YAY"
    case Nay => "NAY"
  }

  /** The vote code sent to the contract: 0 for the choice "YAY", 1 for any other choice. */
  function EncodeVote(choice: string): (code: nat)
    ensures code <= 1
    ensures code == 0 <==> choice == "YAY"
  {
    if choice == "YAY" then 0 else 1
  }

  /** How the contract reads a vote code: 0 is YAY, 1 is NAY. */
  function DecodeVote(code: nat): Option<Vote> {
    if code == 0 then Some(Yay)
    else if code == 1 then Some(Nay)
    else None
  }

  /** Both buttons send the code the contract reads back as the same vote. */
  lemma VoteRoundTrip(v: Vote)
    ensures DecodeVote(EncodeVote(VoteLabel(v))) == Some(v)
  {
  }

  /** Any choice other than exactly "YAY" (including "yay") is sent as a NAY vote. */
  lemma OtherLabelsVoteNay(choice: string)
    requires choice != "YAY"
    ensures DecodeVote(EncodeVote(choice)) == Some(Nay)
  {
  }

  /** A state-changing call the page sends to the DAO contract. */
  datatype ContractCall =
    | CreateCall(tokenId: string)
    | VoteCall(proposalId: nat, vote: nat)
    | ExecuteCall(proposalId: nat)

  /**
   * How a submitted transaction fares: the submission throws (the signer
   * declines, or the contract rejects it up front), `tx.wait()` throws,
   * or it is confirmed.
   */
  datatype TxOutcome = SubmitFails | WaitFails | Confirmed

  /** The call an action tries to send, if it gets that far, and its writes. */
  datatype Effect = Effect(sent: Option<ContractCall>, updates: seq<Update>)

  /**
   * The common shape of the three transactions: get a signer, submit
   * `call`, raise `loading`, wait, then perform `afterConfirm`. A failure
   * at any step ends the action in its `catch`, which writes nothing.
   */
  function Transact(p: Provider, call: ContractCall, tx: TxOutcome, afterConfirm: seq<Update>): (e: Effect)
    ensures e.sent.Some? <==> OnSupportedNetwork(p)
  {
    if ProviderOrSigner(p, true).None? then Effect(None, [])
    else match tx
      case SubmitFails => Effect(Some(call), [])
      case WaitFails => Effect(Some(call), [SetLoading(true)])
      case Confirmed => Effect(Some(call), [SetLoading(true)] + afterConfirm)
  }

  /**
   * What the transaction shape does to a state: nothing when it stops
   * before waiting, a stuck `loading` when the wait throws, and
   * `afterConfirm` on a raised `loading` once confirmed.
   */
  lemma TransactApply(s: PageState, p: Provider, call: ContractCall, tx: TxOutcome, afterConfirm: seq<Update>)
    ensures var e := Transact(p, call, tx, afterConfirm);
      && (!OnSupportedNetwork(p) || tx == SubmitFails ==> Apply(s, e.updates) == s)
      && (OnSupportedNetwork(p) && tx == WaitFails ==> Apply(s, e.updates) == s.(loading := true))
      && (OnSupportedNetwork(p) && tx == Confirmed ==>
            Apply(s, e.updates) == Apply(s.(loading := true), afterConfirm))
  {
  }

  /** `getNumProposalsInDAO`: writes the count as decimal text when it can be read. */
  function RefreshNumProposals(p: Provider, ledger: Ledger): (us: seq<Update>)
    ensures |us| <= 1
    ensures |us| == 1 <==> OnSupportedNetwork(p) && ledger.numProposals.Some?
    ensures |us| == 1 ==>
      us[0].SetNumProposals? && IsCanonical(us[0].count) && ParseInt(us[0].count) == ledger.numProposals
  {
    if ProviderOrSigner(p, false).None? then []
    else match ledger.numProposals
      case None => []
      case Some(n) => ParseDecimal(n); [SetNumProposals(Decimal(n))]
  }

  /** `getDAOTreasuryBalance`: writes the treasury balance in wei as decimal text when it can be read. */
  function RefreshTreasuryBalance(p: Provider, ledger: Ledger): (us: seq<Update>)
    ensures |us| <= 1
    ensures |us| == 1 <==> OnSupportedNetwork(p) && ledger.treasuryWei.Some?
    ensures |us| == 1 ==>
      us[0].SetTreasuryBalance? && IsCanonical(us[0].balance) && ParseInt(us[0].balance) == ledger.treasuryWei
  {
    if ProviderOrSigner(p, false).None? then []
    else match ledger.treasuryWei
      case None => []
      case Some(wei) => ParseDecimal(wei); [SetTreasuryBalance(Decimal(wei))]
  }

  /** `getUserNFTBalance`: needs a signer for the account address, then writes the balance. */
  function RefreshNftBalance(p: Provider, ledger: Ledger): (us: seq<Update>)
    ensures |us| <= 1
    ensures |us| == 1 <==> OnSupportedNetwork(p) && ledger.nftBalance.Some?
    ensures |us| == 1 ==> us[0] == SetNftBalance(ledger.nftBalance.value)
  {
    if ProviderOrSigner(p, true).None? then []
    else match ledger.nftBalance
      case None => []
      case Some(n) => [SetNftBalance(n)]
  }

  /** The list refresh that `fetchAllProposals` performs: one write of the whole list, or none. */
  function RefreshProposals(p: Provider, ledger: Ledger): (us: seq<Update>)
    ensures |us| <= 1
    ensures |us| == 1 <==> FetchAllProposals(p, ledger).Some?
    ensures |us| == 1 ==> us[0] == SetProposals(FetchAllProposals(p, ledger).value)
  {
    match FetchAllProposals(p, ledger)
    case None => []
    case Some(list) => [SetProposals(list)]
  }

  /**
   * `connectWallet`: the gate swallows its own errors, so the page marks
   * the wallet connected whatever the gate answered.
   */
  function ConnectWallet(p: Provider): (us: seq<Update>)
    ensures forall s: PageState :: Apply(s, us) == s.(walletConnected := true)
  {
    var us := [SetWalletConnected(true)];
    assert forall s: PageState :: Apply(s, us) == Step(s, SetWalletConnected(true)) by {
      forall s: PageState {
        ApplySingle(s, SetWalletConnected(true));
      }
    }
    us
  }

  /**
   * The effect run when `walletConnected` changes: while it is false,
   * connect and then read the treasury, the NFT balance and the count.
   */
  function OnWalletConnectedChange(s: PageState, p: Provider, ledger: Ledger): (us: seq<Update>)
    ensures s.walletConnected ==> us == []
    ensures !s.walletConnected ==> Apply(s, us).walletConnected
    ensures !OnSupportedNetwork(p) ==> Apply(s, us) == s.(walletConnected := true)
    ensures !s.walletConnected && OnSupportedNetwork(p) ==>
      Apply(s, us) == s.(
        walletConnected := true,
        treasuryBalance :=
          if ledger.treasuryWei.Some? then Decimal(ledger.treasuryWei.value) else s.treasuryBalance,
        nftBalance := ledger.nftBalance.GetOr(s.nftBalance),
        numProposals :=
          if ledger.numProposals.Some? then Decimal(ledger.numProposals.value) else s.numProposals)
  {
    if s.walletConnected then []
    else
      var treasury, nfts, count := RefreshTreasuryBalance(p, ledger), RefreshNftBalance(p, ledger),
        RefreshNumProposals(p, ledger);
      var s1 := Apply(s, ConnectWallet(p));
      var s2 := Apply(s1, treasury);
      var s3 := Apply(s2, nfts);
      ApplyConcat(s, ConnectWallet(p), treasury);
      ApplyConcat(s, ConnectWallet(p) + treasury, nfts);
      ApplyConcat(s, ConnectWallet(p) + treasury + nfts, count);
      ApplySingle(s, SetWalletConnected(true));
      ApplyAtMostOne(s1, treasury);
      ApplyAtMostOne(s2, nfts);
      ApplyAtMostOne(s3, count);
      ConnectWallet(p) + treasury + nfts + count
  }

  /**
   * Clicking a tab button. The list is fetched only when the selection
   * actually changes to the view tab, since the effect depends on the
   * selected tab's value.
   */
  function SelectTab(s: PageState, tab: string, p: Provider, ledger: Ledger): (us: seq<Update>)
    ensures Apply(s, us) == s.(
      selectedTab := tab,
      proposals :=
        if tab != s.selectedTab && tab == ViewTabName && FetchAllProposals(p, ledger).Some?
        then FetchAllProposals(p, ledger).value
        else s.proposals)
  {
    var refresh := if tab != s.selectedTab && tab == ViewTabName then RefreshProposals(p, ledger) else [];
    ApplyConcat(s, [SetSelectedTab(tab)], refresh);
    ApplySingle(s, SetSelectedTab(tab));
    ApplyAtMostOne(s.(selectedTab := tab), refresh);
    [SetSelectedTab(tab)] + refresh
  }

  /**
   * `createProposal`: submits the typed token id; on confirmation it
   * refreshes the count and only then clears `loading`.
   */
  function CreateProposal(s: PageState, p: Provider, tx: TxOutcome, ledger: Ledger): (e: Effect)
    ensures e.sent == if OnSupportedNetwork(p) then Some(CreateCall(s.fakeNftTokenId)) else None
    ensures OnSupportedNetwork(p) && tx != SubmitFails ==> |e.updates| >= 1 && e.updates[0] == SetLoading(true)
    ensures !OnSupportedNetwork(p) || tx == SubmitFails ==> Apply(s, e.updates) == s
    ensures OnSupportedNetwork(p) && tx == WaitFails ==> Apply(s, e.updates) == s.(loading := true)
    ensures OnSupportedNetwork(p) && tx == Confirmed ==>
      Apply(s, e.updates) == s.(loading := false, numProposals :=
        if ledger.numProposals.Some? then Decimal(ledger.numProposals.value) else s.numProposals)
  {
    var refresh := RefreshNumProposals(p, ledger);
    var raised := s.(loading := true);
    TransactApply(s, p, CreateCall(s.fakeNftTokenId), tx, refresh + [SetLoading(false)]);
    ApplyConcat(raised, refresh, [SetLoading(false)]);
    ApplyAtMostOne(raised, refresh);
    ApplySingle(Apply(raised, refresh), SetLoading(false));
    Transact(p, CreateCall(s.fakeNftTokenId), tx, refresh + [SetLoading(false)])
  }

  /**
   * `voteOnProposal`: sends the encoded vote; on confirmation it clears
   * `loading` first and then refreshes the whole list.
   */
  function VoteOnProposal(s: PageState, p: Provider, proposalId: nat, choice: string, tx: TxOutcome, ledger: Ledger): (e: Effect)
    ensures e.sent == if OnSupportedNetwork(p) then Some(VoteCall(proposalId, EncodeVote(choice))) else None
    ensures OnSupportedNetwork(p) && tx != SubmitFails ==> |e.updates| >= 1 && e.updates[0] == SetLoading(true)
    ensures !OnSupportedNetwork(p) || tx == SubmitFails ==> Apply(s, e.updates) == s
    ensures OnSupportedNetwork(p) && tx == WaitFails ==> Apply(s, e.updates) == s.(loading := true)
    ensures OnSupportedNetwork(p) && tx == Confirmed ==>
      Apply(s, e.updates) == s.(loading := false, proposals :=
        if FetchAllProposals(p, ledger).Some? then FetchAllProposals(p, ledger).value else s.proposals)
  {
    var refresh := RefreshProposals(p, ledger);
    var raised := s.(loading := true);
    TransactApply(s, p, VoteCall(proposalId, EncodeVote(choice)), tx, [SetLoading(false)] + refresh);
    ApplyConcat(raised, [SetLoading(false)], refresh);
    ApplySingle(raised, SetLoading(false));
    ApplyAtMostOne(s.(loading := false), refresh);
    Transact(p, VoteCall(proposalId, EncodeVote(choice)), tx, [SetLoading(false)] + refresh)
  }

  /** `executeProposal`: same sequencing as a vote. */
  function ExecuteProposal(s: PageState, p: Provider, proposalId: nat, tx: TxOutcome, ledger: Ledger): (e: Effect)
    ensures e.sent == if OnSupportedNetwork(p) then Some(ExecuteCall(proposalId)) else None
    ensures OnSupportedNetwork(p) && tx != SubmitFails ==> |e.updates| >= 1 && e.updates[0] == SetLoading(true)
    ensures !OnSupportedNetwork(p) || tx == SubmitFails ==> Apply(s, e.updates) == s
    ensures OnSupportedNetwork(p) && tx == WaitFails ==> Apply(s, e.updates) == s.(loading := true)
    ensures OnSupportedNetwork(p) && tx == Confirmed ==>
      Apply(s, e.updates) == s.(loading := false, proposals :=
        if FetchAllProposals(p, ledger).Some? then FetchAllProposals(p, ledger).value else s.proposals)
  {
    var refresh := RefreshProposals(p, ledger);
    var raised := s.(loading := true);
    TransactApply(s, p, ExecuteCall(proposalId), tx, [SetLoading(false)] + refresh);
    ApplyConcat(raised, [SetLoading(false)], refresh);
    ApplySingle(raised, SetLoading(false));
    ApplyAtMostOne(s.(loading := false), refresh);
    Transact(p, ExecuteCall(proposalId), tx, [SetLoading(false)] + refresh)
  }

  /** `createProposal` writes the new count while `loading` is still raised. */
  lemma CreateRefreshesCountWhileLoading(s: PageState, p: Provider, tx: TxOutcome, ledger: Ledger, k: nat)
    requires k < |CreateProposal(s, p, tx, ledger).updates|
    requires CreateProposal(s, p, tx, ledger).updates[k].SetNumProposals?
    ensures Apply(s, CreateProposal(s, p, tx, ledger).updates[..k]).loading
  {
  }

  /** `voteOnProposal` replaces the list only after `loading` has been cleared. */
  lemma VoteRefreshesListAfterLoadingCleared(s: PageState, p: Provider, id: nat, choice: string, tx: TxOutcome, ledger: Ledger, k: nat)
    requires k < |VoteOnProposal(s, p, id, choice, tx, ledger).updates|
    requires VoteOnProposal(s, p, id, choice, tx, ledger).updates[k].SetProposals?
    ensures !Apply(s, VoteOnProposal(s, p, id, choice, tx, ledger).updates[..k]).loading
  {
    var us := VoteOnProposal(s, p, id, choice, tx, ledger).updates;
    assert k == 2 && us[..k] == [SetLoading(true), SetLoading(false)];
    ApplyLoading(s, us[..k]);
  }

  /** `executeProposal` replaces the list only after `loading` has been cleared. */
  lemma ExecuteRefreshesListAfterLoadingCleared(s: PageState, p: Provider, id: nat, tx: TxOutcome, ledger: Ledger, k: nat)
    requires k < |ExecuteProposal(s, p, id, tx, ledger).updates|
    requires ExecuteProposal(s, p, id, tx, ledger).updates[k].SetProposals?
    ensures !Apply(s, ExecuteProposal(s, p, id, tx, ledger).updates[..k]).loading
  {
    var us := ExecuteProposal(s, p, id, tx, ledger).updates;
    assert k == 2 && us[..k] == [SetLoading(true), SetLoading(false)];
    ApplyLoading(s, us[..k]);
  }
}
