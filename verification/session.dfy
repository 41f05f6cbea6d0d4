/**
 * The page's React state and the `setState` writes that change it. An
 * operation's effect is the ordered list of writes it performs; applying
 * them in order gives the state the page ends up in.
 */
module Session {
  import opened Wrappers
  import opened Proposals

  /** The two tab names the page offers. */
  const CreateTabName: string := "Create Proposal"
  const ViewTabName: string := "View Proposals"

  datatype PageState = PageState(
    treasuryBalance: string,
    numProposals: string,
    proposals: seq<Option<Proposal>>,
    nftBalance: nat,
    fakeNftTokenId: string,
    selectedTab: string,
    loading: bool,
    walletConnected: bool)

  /** The state of a freshly mounted page. */
  const Initial: PageState := PageState("0", "0", [], 0, "", "", false, false)

  /** One `setState` call. */
  datatype Update =
    | SetTreasuryBalance(balance: string)
    | SetNumProposals(count: string)
    | SetProposals(list: seq<Option<Proposal>>)
    | SetNftBalance(nfts: nat)
    | SetFakeNftTokenId(tokenId: string)
    | SetSelectedTab(tab: string)
    | SetLoading(flag: bool)
    | SetWalletConnected(flag: bool)

  /** A single write changes its own field and nothing else. */
  function Step(s: PageState, u: Update): PageState
  {
    match u
    case SetTreasuryBalance(b) => s.(treasuryBalance := b)
    case SetNumProposals(c) => s.(numProposals := c)
    case SetProposals(l) => s.(proposals := l)
    case SetNftBalance(n) => s.(nftBalance := n)
    case SetFakeNftTokenId(id) => s.(fakeNftTokenId := id)
    case SetSelectedTab(tab) => s.(selectedTab := tab)
    case SetLoading(f) => s.(loading := f)
    case SetWalletConnected(f) => s.(walletConnected := f)
  }

  /** Applies the writes in order. */
  function Apply(s: PageState, us: seq<Update>): PageState
    decreases |us|
  {
    if |us| == 0 then s else Apply(Step(s, us[0]), us[1..])
  }

  /** Performing two lists of writes one after the other is performing their concatenation. */
  lemma {:induction false} ApplyConcat(s: PageState, a: seq<Update>, b: seq<Update>)
    ensures Apply(s, a + b) == Apply(Apply(s, a), b)
    decreases |a|
  {
    if |a| > 0 {
      assert (a + b)[0] == a[0];
      assert (a + b)[1..] == a[1..] + b;
      ApplyConcat(Step(s, a[0]), a[1..], b);
    } else {
      assert a + b == b;
    }
  }

  lemma ApplySingle(s: PageState, u: Update)
    ensures Apply(s, [u]) == Step(s, u)
  {
  }

  /** A list of at most one write. */
  lemma ApplyAtMostOne(s: PageState, us: seq<Update>)
    requires |us| <= 1
    ensures Apply(s, us) == if |us| == 0 then s else Step(s, us[0])
  {
  }

  /** `loading` is the last `SetLoading` written, or its old value when none is. */
  function LastLoading(s: PageState, us: seq<Update>): bool
    decreases |us|
  {
    if |us| == 0 then s.loading
    else if us[|us| - 1].SetLoading? then us[|us| - 1].flag
    else LastLoading(s, us[..|us| - 1])
  }

  lemma {:induction false} ApplyLoading(s: PageState, us: seq<Update>)
    ensures Apply(s, us).loading == LastLoading(s, us)
    decreases |us|
  {
    if |us| > 0 {
      var front := us[..|us| - 1];
      assert us == front + [us[|us| - 1]];
      ApplyConcat(s, front, [us[|us| - 1]]);
      ApplyLoading(s, front);
    }
  }
}
