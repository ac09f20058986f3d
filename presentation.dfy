/** What the component renders, as a pure function of its state: the
    connect button, the switch-network prompt or the form, and the list of
    minted domains with truncated owner addresses. Markup and styling are not
    modelled; only which elements appear and what they show. */
module Presentation {
  import opened JsBuiltins
  import opened Registry
  import opened AppState

  /** `address.slice(0, 6) + "..." + address.slice(-4)`. */
  function Truncate(address: string): (shown: string)
    ensures |address| >= 6 ==> shown == address[..6] + "..." + address[|address| - 4..]
    ensures 4 <= |address| < 6 ==> shown == address + "..." + address[|address| - 4..]
    ensures |address| < 4 ==> shown == address + "..." + address
    ensures |shown| == (if |address| < 6 then |address| else 6) + 3 + (if |address| < 4 then |address| else 4)
  {
    Slice(address, 0, 6) + "..." + SliceFrom(address, -4)
  }

  datatype Button = LoadingButton | SubmitButton(action: Action)

  datatype Panel =
    | SwitchNetworkPrompt
    | EntryForm(domain: string, record: string, button: Button)

  /** One list item; `key` is the item's index in the list. */
  datatype Card = Card(key: nat, name: string, record: string, ownerLabel: string)

  datatype MintList = NoMintsYet | MintCards(cards: seq<Card>)

  datatype View =
    | ConnectWalletButton
    | Connected(accountLabel: string, panel: Panel, list: MintList)

  /** `renderInput`. */
  function RenderInput(s: State): (p: Panel)
    ensures p.SwitchNetworkPrompt? <==> !OnRequiredNetwork(s.network)
    ensures p.EntryForm? ==> p.domain == s.domain && p.record == s.record
    ensures p.EntryForm? ==> (p.button == LoadingButton <==> s.loading)
    ensures p.EntryForm? && !s.loading ==> p.button == SubmitButton(SubmitAction(s))
  {
    if !OnRequiredNetwork(s.network) then SwitchNetworkPrompt
    else EntryForm(s.domain, s.record, if s.loading then LoadingButton else SubmitButton(SubmitAction(s)))
  }

  function CardAt(mints: seq<MintEntry>, i: nat): Card
    requires i < |mints|
  {
    Card(i, mints[i].name, mints[i].record, Truncate(mints[i].owner))
  }

  /** `renderMints`: a placeholder for an empty list, otherwise one card per
      entry, in order. */
  function RenderMints(mints: seq<MintEntry>): (l: MintList)
    ensures l == NoMintsYet <==> |mints| == 0
    ensures l.MintCards? ==>
              |l.cards| == |mints|
              && forall i :: 0 <= i < |l.cards| ==>
                   l.cards[i].key == i && l.cards[i].name == mints[i].name
                   && l.cards[i].record == mints[i].record
                   && l.cards[i].ownerLabel == Truncate(mints[i].owner)
  {
    if |mints| == 0 then NoMintsYet
    else MintCards(seq(|mints|, i requires 0 <= i < |mints| => CardAt(mints, i)))
  }

  /** The component's top-level return. The list is shown to every connected
      account, whichever network it is on. */
  function Render(s: State): (v: View)
    ensures v == ConnectWalletButton <==> s.currentAccount == ""
    ensures v.Connected? ==>
              v.accountLabel == Truncate(s.currentAccount)
              && (v.panel.EntryForm? <==> OnRequiredNetwork(s.network))
              && v.panel == RenderInput(s) && v.list == RenderMints(s.mints)
  {
    if s.currentAccount == "" then ConnectWalletButton
    else Connected(Truncate(s.currentAccount), RenderInput(s), RenderMints(s.mints))
  }

  /** Clicking "Edit Record" on a card fills the form with that card's name
      and record and turns the button into "Update Domain"; the list on
      screen stays the same. */
  lemma EditShowsCardInForm(s: State, index: nat)
    requires index < |s.mints| && s.currentAccount != "" && OnRequiredNetwork(s.network) && !s.loading
    ensures var before, after := Render(s), Render(EditRecordStep(s, index));
            before.list.MintCards? && after.list == before.list
            && after.panel == EntryForm(before.list.cards[index].name, before.list.cards[index].record,
                                        SubmitButton(UpdateAction))
  {
  }

  /** A mint attempted without a wallet leaves the form showing the disabled
      "Loading..." button, so no further submission is possible. */
  lemma MintWithoutWalletStaysLoading(s: State, env: Env)
    requires |s.domain| >= 3 && !env.provider && s.currentAccount != "" && OnRequiredNetwork(s.network)
    ensures Render(MintDomainStep(s, env).after).panel.button == LoadingButton
  {
  }

  /** After a successful fetch the screen lists every fetched name, in order,
      with its record and the truncated owner address. */
  lemma FetchedNamesAreListed(s: State, outcome: FetchOutcome)
    requires outcome.Fetched? && |outcome.names| > 0 && s.currentAccount != ""
    ensures var v := Render(FetchMintsStep(s, true, outcome));
            v.list.MintCards? && |v.list.cards| == |outcome.names|
            && forall i :: 0 <= i < |outcome.names| ==>
                 v.list.cards[i].name == outcome.names[i]
                 && v.list.cards[i].record == outcome.recordOf(outcome.names[i])
                 && v.list.cards[i].ownerLabel == Truncate(outcome.ownerOf(outcome.names[i]))
  {
  }
}
