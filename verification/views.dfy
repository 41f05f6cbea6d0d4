/**
 * The branch choices of the page's rendering: which tab content shows,
 * and what each proposal card offers. Markup is not modelled; each
 * choice is a constructor.
 */
module Views {
  import opened Wrappers
  import opened DecimalText
  import opened Proposals
  import opened Session
  import opened Network
  import opened Workflow

  /** A proposal's lifecycle phase at time `now` (milliseconds). */
  datatype Phase = Open | PendingExecution | Closed

  function PhaseOf(p: Proposal, now: int): Phase {
    if p.executed then Closed
    else if now < p.deadlineMs then Open
    else PendingExecution
  }

  /** What a proposal card shows below its fields. */
  datatype CardAction = VoteButtons | ExecuteButton(caption: string) | ExecutedNotice

  /**
   * The execute caption as written: `yayVotes > nayVotes` where both are
   * decimal strings, so the comparison is lexicographic.
   */
  function ExecuteLabelAsWritten(yay: string, nay: string): (caption: string)
    ensures caption == "(YAY)" <==> StrLess(nay, yay)
    ensures caption == "(NAY)" <==> !StrLess(nay, yay)
  {
    if StrLess(nay, yay) then "(YAY)" else "(NAY)"
  }

  /**
   * Ten YAY votes against nine NAY votes are captioned "(NAY)" as written,
   * where comparing the counts gives "(YAY)".
   */
  lemma AsWrittenLabelMisordersCounts()
    ensures Decimal(10) == "10" && Decimal(9) == "9"
    ensures ExecuteLabelAsWritten(Decimal(10), Decimal(9)) == "(NAY)"
    ensures ExecuteLabel(Decimal(10), Decimal(9)) == "(YAY)"
    ensures CardActionOf(Proposal(0, "0", 0, Decimal(10), Decimal(9), false), 1) == ExecuteButton("(NAY)")
  {
    ExecuteLabelFollowsCounts(10, 9);
  }

  /** The count a vote string stands for; text that is not a number counts as zero. */
  function CountOf(s: string): nat {
    ParseInt(s).GetOr(0)
  }

  /** The execute caption comparing the vote counts as numbers. */
  function ExecuteLabel(yay: string, nay: string): (caption: string)
    ensures caption == "(YAY)" || caption == "(NAY)"
  {
    if CountOf(yay) > CountOf(nay) then "(YAY)" else "(NAY)"
  }

  /** On the decimal strings of two counts, the caption names the larger side, ties going to NAY. */
  lemma ExecuteLabelFollowsCounts(yay: nat, nay: nat)
    ensures ExecuteLabel(Decimal(yay), Decimal(nay)) == if yay > nay then "(YAY)" else "(NAY)"
  {
    ParseDecimal(yay);
    ParseDecimal(nay);
  }

  /** The string comparison goes wrong only when the two counts differ in digit count. */
  lemma AsWrittenLabelAgreesOnEqualDigitCount(yay: nat, nay: nat)
    requires |Decimal(yay)| == |Decimal(nay)|
    ensures ExecuteLabelAsWritten(Decimal(yay), Decimal(nay)) == ExecuteLabel(Decimal(yay), Decimal(nay))
  {
    StrLessAgreesOnEqualLength(nay, yay);
    ExecuteLabelFollowsCounts(yay, nay);
  }

  /**
   * The card's action branch: vote buttons while the deadline is ahead,
   * an execute button once it has passed, "Proposal Executed" otherwise.
   */
  function CardActionOf(p: Proposal, now: int): (a: CardAction)
    ensures a.VoteButtons? <==> p.deadlineMs > now && !p.executed
    ensures a.ExecuteButton? <==> p.deadlineMs < now && !p.executed
    ensures a.ExecutedNotice? <==> p.executed || p.deadlineMs == now
    ensures a.ExecuteButton? ==> a.caption == ExecuteLabelAsWritten(p.yayVotes, p.nayVotes)
  {
    if p.deadlineMs > now && !p.executed then VoteButtons
    else if p.deadlineMs < now && !p.executed then ExecuteButton(ExecuteLabelAsWritten(p.yayVotes, p.nayVotes))
    else ExecutedNotice
  }

  /** The card with the corrected caption: same branch, the counts compared as numbers. */
  function CorrectedCardActionOf(p: Proposal, now: int): (a: CardAction)
    ensures a.VoteButtons? <==> CardActionOf(p, now).VoteButtons?
    ensures a.ExecuteButton? <==> CardActionOf(p, now).ExecuteButton?
    ensures a.ExecutedNotice? <==> CardActionOf(p, now).ExecutedNotice?
    ensures a.ExecuteButton? ==> a.caption == ExecuteLabel(p.yayVotes, p.nayVotes)
  {
    match CardActionOf(p, now)
    case ExecuteButton(_) => ExecuteButton(ExecuteLabel(p.yayVotes, p.nayVotes))
    case other => other
  }

  /** On a fetched proposal the corrected card's caption names the side with more votes. */
  lemma CorrectedCardFollowsCounts(id: nat, raw: RawProposal, now: int)
    ensures var a := CorrectedCardActionOf(ParseProposal(id, raw), now);
      a.ExecuteButton? ==> (a.caption == "(YAY)" <==> raw.yayVotes > raw.nayVotes)
  {
    ExecuteLabelFollowsCounts(raw.yayVotes, raw.nayVotes);
  }

  /**
   * The card follows the lifecycle phase, except at the exact deadline
   * millisecond: there an unexecuted proposal is pending execution but
   * the card says "Proposal Executed".
   */
  lemma CardFollowsPhase(p: Proposal, now: int)
    ensures CardActionOf(p, now).VoteButtons? <==> PhaseOf(p, now) == Open
    ensures CardActionOf(p, now).ExecuteButton? <==> PhaseOf(p, now) == PendingExecution && p.deadlineMs != now
    ensures CardActionOf(p, now).ExecutedNotice? <==>
      PhaseOf(p, now) == Closed || (PhaseOf(p, now) == PendingExecution && p.deadlineMs == now)
    ensures CardActionOf(p, now).ExecutedNotice? && !p.executed ==> p.deadlineMs == now
  {
  }

  /** A card for a fetched proposal, stated on the contract's own fields. */
  lemma CardOfFetchedProposal(id: nat, raw: RawProposal, now: int)
    ensures var a := CardActionOf(ParseProposal(id, raw), now);
      && (a.VoteButtons? <==> raw.deadline * 1000 > now && !raw.executed)
      && (a.ExecuteButton? <==> raw.deadline * 1000 < now && !raw.executed)
      && (a.ExecuteButton? ==>
            (a.caption == "(YAY)" <==> StrLess(Decimal(raw.nayVotes), Decimal(raw.yayVotes))))
      && (a.ExecuteButton? && |Decimal(raw.yayVotes)| == |Decimal(raw.nayVotes)| ==>
            (a.caption == "(YAY)" <==> raw.yayVotes > raw.nayVotes))
  {
    if |Decimal(raw.yayVotes)| == |Decimal(raw.nayVotes)| {
      StrLessAgreesOnEqualLength(raw.nayVotes, raw.yayVotes);
    }
  }

  /** The create tab's three branches. */
  datatype CreateTab = CreateWaiting | NoNfts | CreateForm

  function RenderCreateProposalTab(loading: bool, nftBalance: nat): (v: CreateTab)
    ensures v == CreateWaiting <==> loading
    ensures v == NoNfts <==> !loading && nftBalance == 0
    ensures v == CreateForm <==> !loading && nftBalance != 0
  {
    if loading then CreateWaiting
    else if nftBalance == 0 then NoNfts
    else CreateForm
  }

  /** One rendered proposal card. */
  datatype Card = Card(proposalId: nat, action: CardAction)

  /**
   * `proposals.map(...)`: reading a field of an undefined entry throws,
   * so a single hole makes the whole mapping fail.
   */
  function CardsOf(ps: seq<Option<Proposal>>, now: int): (r: Option<seq<Card>>)
    ensures r.None? <==> exists i :: 0 <= i < |ps| && ps[i].None?
    ensures r.Some? ==> |r.value| == |ps|
    ensures r.Some? ==> forall i :: 0 <= i < |ps| ==>
      ps[i].Some? && r.value[i] == Card(ps[i].value.proposalId, CardActionOf(ps[i].value, now))
  {
    if |ps| == 0 then Some([])
    else match ps[0]
      case None => None
      case Some(p) =>
        match CardsOf(ps[1..], now)
        case None =>
          assert exists i :: 1 <= i < |ps| && ps[i].None? by {
            var j :| 0 <= j < |ps[1..]| && ps[1..][j].None?;
            assert ps[j + 1].None?;
          }
          None
        case Some(rest) => Some([Card(p.proposalId, CardActionOf(p, now))] + rest)
  }

  /** The view tab's branches; `RenderFails` is the page's render throwing. */
  datatype ViewTab = ViewWaiting | NoProposals | Cards(cards: seq<Card>) | RenderFails

  function RenderViewProposalsTab(loading: bool, ps: seq<Option<Proposal>>, now: int): (v: ViewTab)
    ensures v == ViewWaiting <==> loading
    ensures v == NoProposals <==> !loading && |ps| == 0
    ensures v == RenderFails <==> !loading && exists i :: 0 <= i < |ps| && ps[i].None?
    ensures v.Cards? ==> CardsOf(ps, now) == Some(v.cards)
  {
    if loading then ViewWaiting
    else if |ps| == 0 then NoProposals
    else match CardsOf(ps, now)
      case None => RenderFails
      case Some(cards) => Cards(cards)
  }

  /** What `renderTabs` yields for the selected tab. */
  datatype TabContent = NoTab | CreateContent(create: CreateTab) | ViewContent(view: ViewTab)

  function RenderTabs(s: PageState, now: int): (c: TabContent)
    ensures c.CreateContent? <==> s.selectedTab == CreateTabName
    ensures c.ViewContent? <==> s.selectedTab == ViewTabName
    ensures c.CreateContent? ==> c.create == RenderCreateProposalTab(s.loading, s.nftBalance)
    ensures c.ViewContent? ==> c.view == RenderViewProposalsTab(s.loading, s.proposals, now)
  {
    if s.selectedTab == CreateTabName then CreateContent(RenderCreateProposalTab(s.loading, s.nftBalance))
    else if s.selectedTab == ViewTabName then ViewContent(RenderViewProposalsTab(s.loading, s.proposals, now))
    else NoTab
  }

  /** While `loading` is raised, whichever tab is selected shows only the waiting message. */
  lemma LoadingHidesTabContent(s: PageState, now: int)
    requires s.loading
    ensures RenderTabs(s, now) in {NoTab, CreateContent(CreateWaiting), ViewContent(ViewWaiting)}
  {
  }

  /** The view tab offers vote buttons whatever the member's NFT balance. */
  lemma VoteButtonsIgnoreNftBalance(s: PageState, nfts: nat, now: int)
    ensures RenderTabs(s.(nftBalance := nfts), now).ViewContent? ==>
      RenderTabs(s.(nftBalance := nfts), now) == RenderTabs(s, now)
  {
  }

  /**
   * A `tx.wait()` that throws leaves `loading` raised, so both tabs keep
   * showing the waiting message, and switching tabs does not lower it.
   */
  lemma FailedWaitLeavesPageWaiting(s: PageState, p: Provider, ledger: Ledger, tab: string, now: int)
    requires OnSupportedNetwork(p)
    ensures var stuck := Apply(s, CreateProposal(s, p, WaitFails, ledger).updates);
      && stuck.loading
      && RenderCreateProposalTab(stuck.loading, stuck.nftBalance) == CreateWaiting
      && RenderViewProposalsTab(stuck.loading, stuck.proposals, now) == ViewWaiting
      && Apply(stuck, SelectTab(stuck, tab, p, ledger)).loading
  {
  }

  /** Only a confirmed transaction lowers a raised `loading`. */
  lemma OnlyConfirmationClearsLoading(s: PageState, p: Provider, id: nat, choice: string, tx: TxOutcome, ledger: Ledger)
    requires s.loading
    ensures !Apply(s, CreateProposal(s, p, tx, ledger).updates).loading ==> OnSupportedNetwork(p) && tx == Confirmed
    ensures !Apply(s, VoteOnProposal(s, p, id, choice, tx, ledger).updates).loading ==> OnSupportedNetwork(p) && tx == Confirmed
    ensures !Apply(s, ExecuteProposal(s, p, id, tx, ledger).updates).loading ==> OnSupportedNetwork(p) && tx == Confirmed
  {
  }

  /**
   * A refresh in which one proposal's read failed leaves a hole that
   * makes the view tab's render throw.
   */
  lemma HoleBreaksViewTab(s: PageState, p: Provider, ledger: Ledger, i: nat, now: int)
    requires FetchAllProposals(p, ledger).Some?
    requires i < ledger.numProposals.value
    requires ledger.proposalAt(i).None?
    requires !s.loading
    ensures var t := Apply(s, RefreshProposals(p, ledger));
      RenderViewProposalsTab(t.loading, t.proposals, now) == RenderFails
  {
    var list := FetchAllProposals(p, ledger).value;
    ApplySingle(s, SetProposals(list));
    assert list[i].None?;
  }

  /**
   * A proposal fetched with a deadline `t` seconds, three YAY and one NAY
   * vote: before the deadline the card offers votes, after it an execute
   * button captioned "(YAY)".
   */
  lemma OpenThenPendingScenario(t: nat, before: int, after: int)
    requires before < t * 1000 < after
    ensures var p := ParseProposal(2, RawProposal(0, t, 3, 1, false));
      && CardActionOf(p, before) == VoteButtons
      && CardActionOf(p, after) == ExecuteButton("(YAY)")
  {
    CardOfFetchedProposal(2, RawProposal(0, t, 3, 1, false), after);
  }

  /**
   * A freshly mounted page selects no tab and is neither loading nor
   * connected; mounting it on a wrong or unreachable network only marks
   * the wallet connected, so the page still shows no tab content.
   */
  lemma FreshPageShowsNoTab(p: Provider, ledger: Ledger, now: int)
    ensures !Initial.loading && !Initial.walletConnected
    ensures RenderTabs(Initial, now) == NoTab
    ensures !OnSupportedNetwork(p) ==>
      var mounted := Apply(Initial, OnWalletConnectedChange(Initial, p, ledger));
      mounted == Initial.(walletConnected := true) && RenderTabs(mounted, now) == NoTab
  {
  }
}
