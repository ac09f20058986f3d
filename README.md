# Trigon domain client: a Dafny model of its state machine

This project models the logic of a browser front end for a domain-name registry contract.
The front end is a single React component, `src/App.js`. It lets a connected wallet mint a
name under the `.trigon` top-level domain, for a fee tiered by name length. It lets the wallet
attach a text record to a name. It also lists every registered name with its record and its
owner.

What is modelled:

- **Mint guard and fee tier** (`Pricing`):
  - an empty name is a silent no-op;
  - a 1–2 character name raises the "too short" notice;
  - the fee is `"0.5"` for length 3, `"0.3"` for length 4 and `"0.1"` otherwise.
- **Handler transitions** (`AppState`, `AppComponent`):
  - The component's seven `useState` fields are `currentAccount`, `network`, `domain`,
    `record`, `loading`, `editing` and `mints`.
  - They are the fields of class `App.App`, and a `State` record holds a snapshot of them.
  - `AppState` gives one transition function for each handler: mint, update, submit, edit,
    fetch, and the session change with its fetch effect.
  - `App`'s methods update the fields step by step, as the component's setters do. Each method
    is proved to end exactly where its transition function says.
  - Every remote step is an outcome supplied by the caller. `Env` says whether `window.ethereum`
    is present, how `register` and its `wait()` ended (threw, or a receipt with a status), and
    how `setRecord` and its `wait()` ended.
  - A handler also returns the calls it issued, in order (`Register`, `SetRecord`,
    `RefreshMints(delay)`), and the notice it raised.
- **Entry assembly** (`Registry`): `fetchMints` turns the fetched names into entries
  `{id, name, record, owner}`. Each entry's `id` is `names.indexOf(name)`, the first position at
  which that name occurs.
- **Presentation** (`Presentation`):
  - the screen chosen from the account and the network;
  - the form's button (disabled "Loading...", "Mint Domain" or "Update Domain");
  - the list, or its "no domains minted yet" placeholder;
  - addresses shortened to `slice(0, 6) + "..." + slice(-4)`, with JavaScript `slice` semantics
    (`JsBuiltins`).

Strings are `seq<char>`. Each `char` stands for one UTF-16 code unit, so `|s|` is JavaScript's
`s.length`. A method's result is the state once the handler's last `await` has settled.

Behaviours of the code worth noting:

- The list of mints is shown to every connected account, whatever the network
  (App.js:343-348).
- `mintDomain` sets `loading` before it checks for `window.ethereum`, and never clears it when
  the wallet is absent (App.js:155-163). The model keeps this:
  `Presentation.MintWithoutWalletStaysLoading` shows the button stays disabled.
- The gate compares the network name with the literal `'Polygon Mumbai Testnet'`
  (App.js:227, 243), while `switchNetwork` asks for chain `0x3a1`, named "Trigon".
  `./utils/networks` is not part of this model, so whether that chain maps to the literal
  cannot be stated. `network` is treated as an opaque string.

## Model

| member | source | states |
|---|---|---|
| JsBuiltins.RelativeIndex | src/App.js:309 | a `slice` argument resolves to a position between 0 and the string's length |
| JsBuiltins.Slice | src/App.js:309 | `slice(start, end)` is the contiguous run of code units from the resolved start, with length (end − start) or 0, never longer than the string |
| JsBuiltins.SliceFrom | src/App.js:345 | `slice(start)` is the whole suffix from the resolved start |
| JsBuiltins.IndexOf | src/App.js:131 | `indexOf` is −1 exactly when the element is absent, and otherwise a position holding it before which it does not occur |
| Registry.Entries | src/App.js:127-136 | one entry per fetched name, in order, with that name's record and owner; each id is ≤ the entry's position, holds the same name and is its first occurrence |
| Registry.DistinctNamesHavePositionalIds | src/App.js:131 | with no repeated names, every id equals its entry's position |
| Registry.RepeatedNamesShareId | src/App.js:131 | later copies of a repeated name take the first copy's id, so ids are not unique |
| Pricing.Validate | src/App.js:148-153 | the guard gives empty ⇔ name is "", too short ⇔ 1–2 characters, accepted ⇔ at least 3 |
| Pricing.Price | src/App.js:158 | fee "0.5" ⇔ length 3, "0.3" ⇔ length 4, "0.1" ⇔ any other length |
| Pricing.PriceDependsOnlyOnLength | src/App.js:158 | names of equal length pay the same fee |
| Pricing.PriceNonIncreasing | src/App.js:157-158 | every fee is a well-formed decimal of 5, 3 or 1 tenths, and a longer accepted name never pays more |
| AppState.MintDomainStep | src/App.js:146-198 | only domain, record and loading may change; empty name: no-op; short name: notice and no change; no wallet: loading stuck true; a call is issued ⇔ name accepted and wallet present, and the first is `register(domain, tier price)`, with loading false afterwards; `setRecord(domain, record)` follows ⇔ receipt status is 1; failure notice ⇔ status ≠ 1; too-short notice ⇔ 1–2 characters, so thrown and successful paths are silent; at most register and setRecord are issued except on full success; on full success the trace is register, setRecord, refetch after 1000 ms and domain/record become ""; on any other path domain and record are kept |
| AppState.UpdateDomainStep | src/App.js:200-224 | empty record or domain: no change at all; otherwise loading ends false; never registers or raises a notice; the first call is `setRecord(domain, record)`; a refetch is requested ⇔ the update succeeds; on a thrown setRecord the trace is exactly `[setRecord(domain, record)]`; on success domain, record and editing are reset and the trace is setRecord then an immediate refetch; on an error or with no wallet only loading changes |
| AppState.SubmitAction | src/App.js:285-286 | the button runs update exactly when editing |
| AppState.SubmitStep | src/App.js:283-286 | a click runs the update transition when editing, and the mint transition otherwise |
| AppState.EditRecordStep | src/App.js:313-317 | edit fills domain and record from the chosen entry, keeps mints, loading and the session, and makes the next submit an update |
| AppState.FetchMintsStep | src/App.js:114-144 | only the list may change: kept on error or with no wallet; on success it is the assembled list: exactly one entry per fetched name, in order, with its record and owner and as id the first index of that name in the fetched list |
| AppState.FetchReplacesWhole | src/App.js:139 | a successful fetch gives the same list whatever list it replaces |
| AppState.SessionStep | src/App.js:226-230 | new account/network are stored; a fetch is requested ⇔ either changed and the network is the required one |
| AppState.EditThenSubmit | src/App.js:313-317 | edit then a confirmed submit re-sends exactly that entry's name and record, requests a refetch, and returns the form to empty mint mode |
| AppState.FailedMintIsRetryable | src/App.js:189-197 | a failed or thrown mint leaves the form as it was except `loading` = false, so the same submission repeats the same attempt |
| AppComponent.App.constructor | src/App.js:19-25 | the fields start as "", "", "", "", false, false, [] |
| AppComponent.App.TypeDomain | src/App.js:266 | typing changes only the domain field |
| AppComponent.App.TypeRecord | src/App.js:273 | typing changes only the record field |
| AppComponent.App.ChangeSession | src/App.js:226-230 | fields and calls are those of `SessionStep` |
| AppComponent.App.MintDomain | src/App.js:146-198 | fields, trace and notice are those of `MintDomainStep` |
| AppComponent.App.UpdateDomain | src/App.js:200-224 | fields and trace are those of `UpdateDomainStep` |
| AppComponent.App.Submit | src/App.js:283-286 | with the button enabled, fields, trace and notice are those of `SubmitStep` |
| AppComponent.App.EditRecord | src/App.js:313-317 | fields are those of `EditRecordStep` |
| AppComponent.App.FetchMints | src/App.js:114-144 | fields are those of `FetchMintsStep` |
| Presentation.Truncate | src/App.js:309 | at least 6 units: first 6, "...", last 4; 4–5 units: the whole address, "...", last 4; under 4: the address, "...", the address; length min(n,6)+3+min(n,4) |
| Presentation.RenderInput | src/App.js:242-293 | switch prompt ⇔ not on the required network; otherwise the form shows domain and record, the button is "Loading..." ⇔ loading, else bound to the submit action |
| Presentation.RenderMints | src/App.js:295-327 | placeholder ⇔ no entries; otherwise one card per entry in order, keyed by index, with name, record and truncated owner |
| Presentation.Render | src/App.js:329-353 | connect button ⇔ no account; otherwise truncated account, the input panel (form ⇔ required network) and the list |
| Presentation.EditShowsCardInForm | src/App.js:311-317 | clicking Edit on a card puts that card's name and record in the form with an "Update Domain" button, and the list stays the same |
| Presentation.MintWithoutWalletStaysLoading | src/App.js:155-163 | an accepted mint without a wallet leaves the form's button on "Loading..." |
| Presentation.FetchedNamesAreListed | src/App.js:303-310 | after a successful non-empty fetch every fetched name is listed in order with record and truncated owner |

## Left out

- Wallet RPC is left out because it is I/O against an injected object: `connectWallet`, `switchNetwork` (including the chain-add fallback on error 4902), `checkIfWalletIsConnected`, the `chainChanged` listener and the page reload. Their effect on state appears only as `App.ChangeSession` (new account and network).
- The ethers.js provider, signer and contract objects and `parseEther` are a foreign library. Contract calls appear only as `Call` values and outcome values, and the fee as its decimal string.
- `setTimeout(…, 1000)` is timing. It appears as the call `RefreshMints(1000)`; the fetch itself is the separate `App.FetchMints`.
- The `Promise.all` fan-out in `fetchMints` is concurrency. It is modelled as one atomic outcome: all lookups succeed, or the whole fetch fails.
- Handlers run atomically. The user may type into the inputs while a transaction is awaited, but that interleaving is not modelled. The calls use the values held when the handler started, as the component's closures do.
- JSX markup, CSS classes, the Twitter link, `console.log` and the wallet-missing `alert` are presentation or logging. Only the element kinds and the two write notices are modelled.
- The chain-id → name table in `./utils/networks` and `contractAbi` are not part of this model.
