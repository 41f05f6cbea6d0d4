# CryptoDevs DAO page — a Dafny model of its governance decisions

The page `pages/index.js` lets a holder of a CryptoDevs NFT look at a DAO's
treasury and proposals, create a proposal, vote on one, and execute one once
its deadline has passed. Around the React and wallet plumbing it makes a
handful of decisions. This project states those decisions as pure functions
over immutable data and proves what they do:

- the **network gate** (`getProviderOrSigner`) gives a handle only on chain 4
  and swallows every failure (`Network`);
- **decimal text**: `BigNumber.toString()`, `parseInt`, and JavaScript's `>`
  on two strings (`DecimalText`);
- **proposal reading**: parsing `proposals(id)` into the page's record and
  assembling the list of ids `0 .. numProposals - 1` (`Proposals`);
- the page's **state** and its `setState` writes, applied in order (`Session`);
- the **actions**: connecting, refreshing, switching tabs, and the create /
  vote / execute transactions with their `loading` flag (`Workflow`);
- the **rendering branches**: the tab choice, the create tab, and each
  proposal card's vote / execute / "Proposal Executed" branch (`Views`).

Remote answers are inputs. `Provider` is what the wallet yields for one
action: either `Unreachable` or the chain id the wallet reports. `Ledger` holds the
answers to the page's reads, with `None` for a read that throws.
`TxOutcome` says how a submitted transaction fares. `now` is one integer in
milliseconds. An action returns the contract call it tries to send, if any.
It also returns the ordered list of `setState` writes it performs, so the
order of the writes can be stated.

The model follows the code as written, including where it evidently
falls short of what the page means to do:
- A failed single fetch in `fetchAllProposals` does not fail the whole list.
  It leaves an undefined entry at that index, which later breaks the view tab.
- A wrong network does not stop `connectWallet` from marking the wallet
  connected.
- A zero NFT balance hides only the create form, although its message says
  the member cannot vote either. The view tab still offers vote buttons.
- At the exact deadline millisecond an unexecuted proposal's card says
  "Proposal Executed".
- A `tx.wait()` that throws leaves `loading` raised.
- The execute caption compares the vote counts as strings (see Findings).

## Model

| member | source | states |
|---|---|---|
| `Network.ProviderOrSigner` | pages/index.js:184-203 | no handle exactly when the wallet is unreachable or not on chain 4; on chain 4, a signer exactly when one is asked for, else the read-only provider |
| `Network.WrongNetworkGivesNoHandle` | pages/index.js:189-193 | any chain id other than 4 yields no handle, whichever kind was asked for |
| `DecimalText.Decimal` | pages/index.js:121-124 | `toString()` of a count is canonical decimal text: digits only, no leading zero, one character exactly for counts below ten |
| `DecimalText.ParseInt` | pages/index.js:122 | `parseInt` yields NaN (`None`) exactly when the text does not start with a digit |
| `DecimalText.ParseDecimal` | pages/index.js:122 | `parseInt(n.toString())` gives back `n` |
| `DecimalText.DecimalInjective` | pages/index.js:121-124 | two counts have the same decimal text only if they are equal |
| `DecimalText.StrLessAgreesOnEqualLength` | pages/index.js:310 | for decimal texts with the same digit count, string order is numeric order |
| `Proposals.ParseProposal` | pages/index.js:119-126 | the record carries the requested id, the deadline in milliseconds (seconds times 1000), canonical decimal texts that parse back to the token id and vote counts, and `executed` unchanged |
| `Proposals.ParseProposalInjective` | pages/index.js:119-126 | different contract answers never parse to the same record |
| `Proposals.FetchProposalById` | pages/index.js:114-131 | undefined exactly when there is no provider or the read throws, otherwise the parse of the contract's answer for that id |
| `Proposals.ProposalsUpTo` | pages/index.js:140-144 | `n` entries, entry `i` being the fetch of id `i` |
| `Proposals.FetchAllProposals` | pages/index.js:133-151 | a list exactly when there is a provider and the count can be read; its length is the count and entry `i` is the fetch of id `i` |
| `Proposals.FetchAllProposalsInOrder` | pages/index.js:140-144 | the ascending `for` loop that pushes one fetch per id builds that same list |
| `Proposals.FailedFetchLeavesHole` | pages/index.js:137-146 | a failed read of id `i` leaves an undefined entry at index `i` and the list still stands; every defined entry carries its own index as id |
| `Workflow.EncodeVote` | pages/index.js:157 | the code is 0 exactly when the label is "YAY" and 1 for every other label |
| `Workflow.VoteRoundTrip` | pages/index.js:157 | the "YAY" and "NAY" buttons send codes the contract reads back as the same votes (0 YAY, 1 NAY) |
| `Workflow.OtherLabelsVoteNay` | pages/index.js:157 | any label other than exactly "YAY" is sent as a NAY vote |
| `Workflow.RefreshNumProposals` | pages/index.js:74-84 | writes the count only when a provider exists and the read succeeds, as canonical decimal text (no leading zero) that parses back to the count |
| `Workflow.RefreshTreasuryBalance` | pages/index.js:61-72 | writes the treasury balance only when a provider exists and the read succeeds, as canonical decimal text (no leading zero) that parses back to the balance in wei |
| `Workflow.RefreshNftBalance` | pages/index.js:86-97 | writes the NFT balance only when a signer exists and the read succeeds |
| `Workflow.RefreshProposals` | pages/index.js:146 | writes the whole list once when `fetchAllProposals` gets one, and nothing otherwise |
| `Workflow.ConnectWallet` | pages/index.js:52-59 | the wallet is marked connected from any state, whatever the gate answered, and no other field changes |
| `Workflow.OnWalletConnectedChange` | pages/index.js:29-44 | does nothing once connected; otherwise ends connected; on a wrong or unreachable network it changes nothing else; on chain 4 it also writes the treasury balance, NFT balance and count that can be read and leaves every other field unchanged |
| `Workflow.SelectTab` | pages/index.js:46-50 | the tab becomes selected; the list is refreshed only when the selection changes to "View Proposals" and the fetch succeeds; every other field is unchanged |
| `Workflow.CreateProposal` | pages/index.js:99-112 | sends the typed token id when a signer exists; no change if there is no signer or submission throws; once submitted, its first write raises `loading` for the wait; `loading` stuck true if the wait throws; on confirmation the count is refreshed and `loading` cleared |
| `Workflow.VoteOnProposal` | pages/index.js:153-167 | sends the id and the encoded vote when a signer exists; same failure cases; once submitted, its first write raises `loading` for the wait; on confirmation `loading` is cleared and the list refreshed |
| `Workflow.ExecuteProposal` | pages/index.js:169-182 | sends the id when a signer exists; same failure cases, raised `loading` during the wait, and confirmation effect as a vote |
| `Workflow.TransactApply` | pages/index.js:103-107 | a transaction that stops before its wait changes nothing; when the wait throws, only `loading` is raised; once confirmed, its follow-up runs on a raised `loading` |
| `Workflow.CreateRefreshesCountWhileLoading` | pages/index.js:104-107 | the count is written while `loading` is still true |
| `Workflow.VoteRefreshesListAfterLoadingCleared` | pages/index.js:159-162 | a vote's list refresh happens after `loading` is cleared |
| `Workflow.ExecuteRefreshesListAfterLoadingCleared` | pages/index.js:174-177 | an execution's list refresh happens after `loading` is cleared |
| `Views.CardActionOf` | pages/index.js:288-315 | vote buttons exactly when the deadline is ahead and not executed; an execute button exactly when it has passed and not executed; "Proposal Executed" exactly when executed or the deadline is `now`; the execute caption is the page's string comparison of the vote texts |
| `Views.CorrectedCardActionOf` | pages/index.js:288-315 | the same branch as the page's card, with the execute caption comparing the counts as numbers |
| `Views.CorrectedCardFollowsCounts` | pages/index.js:303-311 | on a fetched proposal, the corrected card's caption is "(YAY)" exactly when there are more YAY than NAY votes |
| `Views.CardFollowsPhase` | pages/index.js:288-315 | the card matches the Open / pending / Closed phase, except that an unexecuted proposal at its exact deadline shows "Proposal Executed" |
| `Views.CardOfFetchedProposal` | pages/index.js:288-310 | in terms of the contract's fields: votes iff deadline·1000 > now and not executed; execute iff deadline·1000 < now and not executed; caption "(YAY)" iff the NAY count's decimal text sorts before the YAY count's; when both counts have the same digit count, "(YAY)" iff more YAY than NAY votes |
| `Views.OpenThenPendingScenario` | pages/index.js:288-310 | a proposal with 3 YAY and 1 NAY shows vote buttons before its deadline and "Execute Proposal (YAY)" after it |
| `Views.ExecuteLabelAsWritten` | pages/index.js:310 | the caption as written is "(YAY)" exactly when the NAY text sorts before the YAY text as strings |
| `Views.AsWrittenLabelMisordersCounts` | pages/index.js:310 | with 10 YAY and 9 NAY votes, the as-written caption, and so the card past its deadline, says "(NAY)" where the numeric comparison says "(YAY)" |
| `Views.AsWrittenLabelAgreesOnEqualDigitCount` | pages/index.js:310 | the as-written caption is right whenever both counts have the same number of digits |
| `Views.ExecuteLabel` | pages/index.js:310 | the corrected caption is always "(YAY)" or "(NAY)" |
| `Views.ExecuteLabelFollowsCounts` | pages/index.js:310 | the corrected caption is "(YAY)" exactly when there are more YAY than NAY votes |
| `Views.RenderCreateProposalTab` | pages/index.js:232-261 | the waiting message whenever `loading`; the "no NFTs" message exactly when not loading and the balance is 0; the form exactly when not loading and the balance is not 0 |
| `Views.CardsOf` | pages/index.js:280-317 | fails exactly when some entry is undefined; otherwise one card per entry, in order, with that proposal's id and action |
| `Views.RenderViewProposalsTab` | pages/index.js:264-321 | waiting exactly when `loading`; "No proposals" exactly when not loading and the list is empty; the render throws exactly when not loading and the list has an undefined entry; otherwise the cards |
| `Views.RenderTabs` | pages/index.js:222-229 | create content exactly for "Create Proposal", view content exactly for "View Proposals", nothing for any other tab |
| `Views.LoadingHidesTabContent` | pages/index.js:233-238 | while `loading`, every tab shows only the waiting message |
| `Views.VoteButtonsIgnoreNftBalance` | pages/index.js:264-321 | the view tab does not depend on the NFT balance |
| `Views.FailedWaitLeavesPageWaiting` | pages/index.js:104-105 | after a create whose wait throws, `loading` stays true, both tabs show the waiting message, and switching tabs does not clear it |
| `Views.OnlyConfirmationClearsLoading` | pages/index.js:99-182 | a raised `loading` is lowered by create, vote or execute only when a signer exists and the transaction is confirmed |
| `Views.FreshPageShowsNoTab` | pages/index.js:12-44 | a freshly mounted page shows no tab content and is neither loading nor connected; mounting it off chain 4 only marks the wallet connected |
| `Views.HoleBreaksViewTab` | pages/index.js:280-282 | after a refresh where one proposal's read failed, the view tab's render throws |

## Findings

| source | as written | input that shows it | evidently intended | confidence | as-written member | corrected member |
|---|---|---|---|---|---|---|
| pages/index.js:310 | `p.yayVotes > p.nayVotes` compares two decimal strings, so the order is lexicographic | 10 YAY votes and 9 NAY votes give the caption "(NAY)" | caption "(YAY)" exactly when there are more YAY votes than NAY votes, comparing numbers | high (not executed) | `Views.AsWrittenLabelMisordersCounts` | `Views.ExecuteLabelFollowsCounts` |

The card model `Views.CardActionOf` keeps the page's caption,
`Views.ExecuteLabelAsWritten`. The corrected caption `Views.ExecuteLabel` is
used by `Views.CorrectedCardActionOf`, which differs from the page's card only
in that caption.

## Left out

- JSX markup, styles and `useEffect` wiring: each rendering choice is a constructor, and each effect is a function of the state it reads.
- Web3Modal, `providers.Web3Provider`, `Contract` construction, `getBalance`, `balanceOf` and `signer.getAddress`: their results are the `Provider` and `Ledger` inputs. A contract bound to an undefined handle is taken to throw on every call.
- The DAO contract's own rules (who may vote, when, and what execution does): they are remote, and the outcome of a transaction is the `TxOutcome` input.
- Reconnecting at every remote step: the page calls `getProviderOrSigner`, and so `web3ModalRef.current.connect()`, afresh for each read and each submission, including once per id inside `fetchAllProposals`. The model gives one `Provider` to a whole action. A reconnection that fails in the middle of an action is folded into the matching `Ledger` read being `None`.
- `window.alert` (including the wrong-network warning) and `console.log`: they write no state. The vote and execute `catch` blocks read `e.data.message`, which can itself throw; that too writes no state.
- The diagnostic `fetchProposalById("1")` on mount: its result is only logged.
- `formatEther`, `Date` and `toLocaleString`: deadlines are integer milliseconds.
- Views.CardActionOf: uses one `now` for both deadline comparisons, where the page reads `Date.now()` twice.
- DecimalText.ParseInt: does not model leading whitespace, a sign or a `0x` prefix, which the page never feeds it.
- `BigNumber.toNumber` overflow: counts and balances are unbounded naturals.
- The input box's `setFakeNftTokenId`: a single write, `Session.SetFakeNftTokenId`, with nothing to decide.
- Async interleaving: the three reads after connecting run without `await` and could finish in any order. They are modelled in call order, and each writes its own field. Concurrent user actions are not modelled.
- A submitted transaction whose wait never returns: there is no timeout, and the model has only the three outcomes.
