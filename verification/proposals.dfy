/**
 * Reading proposals from the DAO contract: one proposal by id, and the
 * whole list of ids `0 .. numProposals - 1`.
 */
module Proposals {
  import opened Wrappers
  import opened DecimalText
  import opened Network

  /** The fields of `proposals(id)` as the contract returns them; `deadline` is in seconds. */
  datatype RawProposal = RawProposal(
    nftTokenId: nat,
    deadline: nat,
    yayVotes: nat,
    nayVotes: nat,
    executed: bool)

  /**
   * The page's proposal record: the big numbers become decimal text and
   * the deadline becomes milliseconds since the epoch.
   */
  datatype Proposal = Proposal(
    proposalId: nat,
    nftTokenId: string,
    deadlineMs: nat,
    yayVotes: string,
    nayVotes: string,
    executed: bool)

  /**
   * The answers the remote side gives to the page's reads; `None` is a
   * read that throws. `proposalAt` answers `proposals(id)` per id.
   */
  datatype Ledger = Ledger(
    treasuryWei: Option<nat>,
    nftBalance: Option<nat>,
    numProposals: Option<nat>,
    proposalAt: nat -> Option<RawProposal>)

  /** The parsing step of `fetchProposalById`. */
  function ParseProposal(id: nat, raw: RawProposal): (p: Proposal)
    ensures p.proposalId == id
    ensures p.deadlineMs == raw.deadline * 1000
    ensures IsCanonical(p.nftTokenId) && ParseInt(p.nftTokenId) == Some(raw.nftTokenId)
    ensures IsCanonical(p.yayVotes) && ParseInt(p.yayVotes) == Some(raw.yayVotes)
    ensures IsCanonical(p.nayVotes) && ParseInt(p.nayVotes) == Some(raw.nayVotes)
    ensures p.executed == raw.executed
  {
    ParseDecimal(raw.deadline);
    ParseDecimal(raw.nftTokenId);
    ParseDecimal(raw.yayVotes);
    ParseDecimal(raw.nayVotes);
    var seconds := ParseInt(Decimal(raw.deadline));
    Proposal(
      id,
      Decimal(raw.nftTokenId),
      seconds.value * 1000,
      Decimal(raw.yayVotes),
      Decimal(raw.nayVotes),
      raw.executed)
  }

  /** Parsing loses nothing: distinct answers give distinct records. */
  lemma ParseProposalInjective(id: nat, a: RawProposal, b: RawProposal)
    requires ParseProposal(id, a) == ParseProposal(id, b)
    ensures a == b
  {
  }

  /**
   * `fetchProposalById(id)`: `None` (undefined) when there is no provider
   * or the read throws; the error is swallowed.
   */
  function FetchProposalById(p: Provider, ledger: Ledger, id: nat): (r: Option<Proposal>)
    ensures r.None? <==> !OnSupportedNetwork(p) || ledger.proposalAt(id).None?
    ensures r.Some? ==> r.value == ParseProposal(id, ledger.proposalAt(id).value)
  {
    if ProviderOrSigner(p, false).None? then None
    else match ledger.proposalAt(id)
      case None => None
      case Some(raw) => Some(ParseProposal(id, raw))
  }

  /** The entries for ids `0 .. n - 1`, in ascending id order. */
  function ProposalsUpTo(p: Provider, ledger: Ledger, n: nat): (list: seq<Option<Proposal>>)
    ensures |list| == n
    ensures forall i :: 0 <= i < n ==> list[i] == FetchProposalById(p, ledger, i)
  {
    if n == 0 then []
    else ProposalsUpTo(p, ledger, n - 1) + [FetchProposalById(p, ledger, n - 1)]
  }

  /**
   * `fetchAllProposals()`: `None` when the count cannot be read; otherwise
   * one entry per id, where a failed fetch leaves a `None` hole.
   */
  function FetchAllProposals(p: Provider, ledger: Ledger): (r: Option<seq<Option<Proposal>>>)
    ensures r.Some? <==> OnSupportedNetwork(p) && ledger.numProposals.Some?
    ensures r.Some? ==> |r.value| == ledger.numProposals.value
    ensures r.Some? ==> forall i :: 0 <= i < |r.value| ==> r.value[i] == FetchProposalById(p, ledger, i)
  {
    if ProviderOrSigner(p, false).None? then None
    else match ledger.numProposals
      case None => None
      case Some(n) => Some(ProposalsUpTo(p, ledger, n))
  }

  /** The `for` loop of `fetchAllProposals`, pushing one fetch per id in ascending order. */
  method FetchAllProposalsInOrder(p: Provider, ledger: Ledger) returns (r: Option<seq<Option<Proposal>>>)
    ensures r == FetchAllProposals(p, ledger)
  {
    if ProviderOrSigner(p, false).None? || ledger.numProposals.None? {
      return None;
    }
    var n := ledger.numProposals.value;
    var list: seq<Option<Proposal>> := [];
    var i := 0;
    while i < n
      invariant 0 <= i <= n
      invariant list == ProposalsUpTo(p, ledger, i)
    {
      var current := FetchProposalById(p, ledger, i);
      list := list + [current];
      i := i + 1;
    }
    return Some(list);
  }

  /**
   * A failed single fetch leaves a hole at its own index and nowhere else;
   * every other entry carries its own id.
   */
  lemma FailedFetchLeavesHole(p: Provider, ledger: Ledger, i: nat)
    requires FetchAllProposals(p, ledger).Some?
    requires i < |FetchAllProposals(p, ledger).value|
    ensures var list := FetchAllProposals(p, ledger).value;
      && (list[i].None? <==> ledger.proposalAt(i).None?)
      && (list[i].Some? ==> list[i].value.proposalId == i)
  {
  }
}
