/** The client's session and form state and, for each event handler of the
    component, the transition it performs. Each remote step is an outcome
    supplied by the caller, so every handler is a deterministic function of
    the state before it and those outcomes; its result is the state after its
    last `await` has settled, the remote calls it issued, in order, and the
    notice (`alert`) it raised. */
module AppState {
  import opened Pricing
  import opened Registry

  /** The network name the form is gated on. */
  const REQUIRED_NETWORK := "Polygon Mumbai Testnet"

  /** The delay, in milliseconds, before the refetch that follows a mint. */
  const REFETCH_DELAY_MS := 1000

  /** The component's seven `useState` fields. */
  datatype State = State(
    currentAccount: string,
    network: string,
    domain: string,
    record: string,
    loading: bool,
    editing: bool,
    mints: seq<MintEntry>)

  /** The values the component starts with. */
  function Initial(): State
  {
    State("", "", "", "", false, false, [])
  }

  /** How `contract.register(...)` and its `tx.wait()` ended: one of them
      threw, or a receipt arrived carrying a status. */
  datatype RegisterOutcome = RegisterThrew | Mined(status: int)

  /** How a `contract.setRecord(...)` and its `tx.wait()` ended. */
  datatype TxOutcome = TxConfirmed | TxThrew

  /** The environment of one write: whether `window.ethereum` is present, and
      the outcomes of the registration and of the record transaction. */
  datatype Env = Env(provider: bool, register: RegisterOutcome, setRecord: TxOutcome)

  /** A request to the outside world. `RefreshMints(d)` asks for a `fetchMints`
      run after `d` milliseconds. */
  datatype Call =
    | Register(name: string, price: string)
    | SetRecord(name: string, record: string)
    | RefreshMints(delayMs: nat)

  /** The user-facing notices a write can raise. */
  datatype Notice = Silent | DomainTooShort | MintingFailed

  datatype Step = Step(after: State, calls: seq<Call>, notice: Notice)

  /** What the submit button runs. */
  datatype Action = MintAction | UpdateAction

  predicate OnRequiredNetwork(network: string)
  {
    network == REQUIRED_NETWORK
  }

  /** The path of `mintDomain` on which both transactions are confirmed. */
  predicate MintSucceeds(s: State, env: Env)
  {
    Validate(s.domain) == Accepted && env.provider && env.register == Mined(1)
    && env.setRecord == TxConfirmed
  }

  /** `mintDomain`. */
  function MintDomainStep(s: State, env: Env): (o: Step)
    // only the form fields and the loading flag are ever touched
    ensures o.after == s.(domain := o.after.domain, record := o.after.record, loading := o.after.loading)
    // the guard: an empty name is a silent no-op, a short one raises a notice
    ensures s.domain == "" ==> o == Step(s, [], Silent)
    ensures 0 < |s.domain| < MIN_NAME_LENGTH ==> o == Step(s, [], DomainTooShort)
    // without a wallet the flag set before the try block is never cleared
    ensures |s.domain| >= MIN_NAME_LENGTH && !env.provider ==> o == Step(s.(loading := true), [], Silent)
    // once a call is issued, the first is the registration at the tier price, and loading ends false
    ensures o.calls != [] <==> |s.domain| >= MIN_NAME_LENGTH && env.provider
    ensures o.calls != [] ==> o.calls[0] == Register(s.domain, Price(s.domain)) && !o.after.loading
    // the record is set only after a receipt with status 1, for the same name and the record held at call time
    ensures |o.calls| >= 2 <==> |s.domain| >= MIN_NAME_LENGTH && env.provider && env.register == Mined(1)
    ensures |o.calls| >= 2 ==> o.calls[1] == SetRecord(s.domain, s.record)
    ensures o.notice == MintingFailed <==>
              |s.domain| >= MIN_NAME_LENGTH && env.provider && env.register.Mined? && env.register.status != 1
    ensures o.notice == DomainTooShort <==> 0 < |s.domain| < MIN_NAME_LENGTH
    // no path issues more than the registration and the record update, except the full success
    ensures !MintSucceeds(s, env) ==> |o.calls| <= 2
    // the form is cleared and a delayed refetch requested exactly when both transactions are confirmed
    ensures MintSucceeds(s, env) ==>
              o.after == s.(domain := "", record := "", loading := false)
              && o.calls == [Register(s.domain, Price(s.domain)), SetRecord(s.domain, s.record), RefreshMints(REFETCH_DELAY_MS)]
    ensures !MintSucceeds(s, env) ==> o.after.domain == s.domain && o.after.record == s.record
    ensures RefreshMints(REFETCH_DELAY_MS) in o.calls <==> MintSucceeds(s, env)
  {
    match Validate(s.domain)
    case EmptyName => Step(s, [], Silent)
    case TooShort => Step(s, [], DomainTooShort)
    case Accepted =>
      if !env.provider then Step(s.(loading := true), [], Silent)
      else
        var register := Register(s.domain, Price(s.domain));
        var settled := s.(loading := false);
        match env.register
        case RegisterThrew => Step(settled, [register], Silent)
        case Mined(status) =>
          if status != 1 then Step(settled, [register], MintingFailed)
          else
            var setRecord := SetRecord(s.domain, s.record);
            match env.setRecord
            case TxThrew => Step(settled, [register, setRecord], Silent)
            case TxConfirmed =>
              Step(settled.(domain := "", record := ""), [register, setRecord, RefreshMints(REFETCH_DELAY_MS)], Silent)
  }

  /** The path of `updateDomain` on which the record transaction is confirmed. */
  predicate UpdateSucceeds(s: State, env: Env)
  {
    s.record != "" && s.domain != "" && env.provider && env.setRecord == TxConfirmed
  }

  /** `updateDomain`. Unlike a mint, no receipt status is inspected. */
  function UpdateDomainStep(s: State, env: Env): (o: Step)
    ensures o.notice == Silent
    ensures o.after.currentAccount == s.currentAccount && o.after.network == s.network && o.after.mints == s.mints
    // an empty record or name is a no-op, including for loading
    ensures s.record == "" || s.domain == "" ==> o == Step(s, [], Silent)
    // otherwise loading ends false, whatever happened
    ensures s.record != "" && s.domain != "" ==> !o.after.loading
    // the only transaction is the record update, for the name and record held at call time
    ensures forall c :: c in o.calls ==> !c.Register?
    ensures o.calls != [] <==> s.record != "" && s.domain != "" && env.provider
    ensures o.calls != [] ==> o.calls[0] == SetRecord(s.domain, s.record)
    ensures RefreshMints(0) in o.calls <==> UpdateSucceeds(s, env)
    ensures s.record != "" && s.domain != "" && env.provider && !UpdateSucceeds(s, env) ==>
              o.calls == [SetRecord(s.domain, s.record)]
    ensures UpdateSucceeds(s, env) ==>
              o.after == s.(domain := "", record := "", editing := false, loading := false)
              && o.calls == [SetRecord(s.domain, s.record), RefreshMints(0)]
    // on an error, or without a wallet, only loading changes
    ensures s.record != "" && s.domain != "" && !UpdateSucceeds(s, env) ==> o.after == s.(loading := false)
  {
    if s.record == "" || s.domain == "" then Step(s, [], Silent)
    else if !env.provider then Step(s.(loading := false), [], Silent)
    else
      var setRecord := SetRecord(s.domain, s.record);
      match env.setRecord
      case TxThrew => Step(s.(loading := false), [setRecord], Silent)
      case TxConfirmed =>
        Step(s.(domain := "", record := "", editing := false, loading := false), [setRecord, RefreshMints(0)], Silent)
  }

  /** The operation the submit button is bound to. */
  function SubmitAction(s: State): (a: Action)
    ensures a == UpdateAction <==> s.editing
  {
    if s.editing then UpdateAction else MintAction
  }

  /** A click on the enabled submit button. */
  function SubmitStep(s: State, env: Env): (o: Step)
    ensures s.editing ==> o == UpdateDomainStep(s, env)
    ensures !s.editing ==> o == MintDomainStep(s, env)
  {
    match SubmitAction(s)
    case MintAction => MintDomainStep(s, env)
    case UpdateAction => UpdateDomainStep(s, env)
  }

  /** The "Edit Record" handler of the entry at `index`. */
  function EditRecordStep(s: State, index: nat): (t: State)
    requires index < |s.mints|
    ensures t.mints == s.mints && t.loading == s.loading
    ensures t.currentAccount == s.currentAccount && t.network == s.network
    ensures t.domain == s.mints[index].name && t.record == s.mints[index].record
    ensures SubmitAction(t) == UpdateAction
  {
    s.(editing := true, domain := s.mints[index].name, record := s.mints[index].record)
  }

  /** `fetchMints`: the list is replaced whole on success and kept on error. */
  function FetchMintsStep(s: State, provider: bool, outcome: FetchOutcome): (t: State)
    ensures t == s.(mints := t.mints)
    ensures !provider || outcome.FetchFailed? ==> t == s
    ensures provider && outcome.Fetched? ==>
              |t.mints| == |outcome.names|
              && forall i :: 0 <= i < |t.mints| ==>
                   t.mints[i].name == outcome.names[i]
                   && t.mints[i].record == outcome.recordOf(outcome.names[i])
                   && t.mints[i].owner == outcome.ownerOf(outcome.names[i])
                   && 0 <= t.mints[i].id <= i && outcome.names[t.mints[i].id] == outcome.names[i]
                   && (forall j :: 0 <= j < t.mints[i].id ==> outcome.names[j] != outcome.names[i])
    ensures provider && outcome.Fetched? ==> t.mints == Entries(outcome.names, outcome.recordOf, outcome.ownerOf)
  {
    if provider && outcome.Fetched? then
      s.(mints := Entries(outcome.names, outcome.recordOf, outcome.ownerOf))
    else s
  }

  /** A successful fetch does not depend on the list it replaces: no merge. */
  lemma FetchReplacesWhole(s: State, s': State, outcome: FetchOutcome)
    requires outcome.Fetched?
    ensures FetchMintsStep(s, true, outcome).mints == FetchMintsStep(s', true, outcome).mints
  {
  }

  /** New session values from the wallet, followed by the effect that runs
      when `currentAccount` or `network` changed: a fetch is requested only on
      the required network. */
  function SessionStep(s: State, account: string, network: string): (o: Step)
    ensures o.after == s.(currentAccount := account, network := network)
    ensures o.notice == Silent
    ensures o.calls == [RefreshMints(0)] <==>
              (account != s.currentAccount || network != s.network) && OnRequiredNetwork(network)
    ensures o.calls == [] || o.calls == [RefreshMints(0)]
  {
    var changed := account != s.currentAccount || network != s.network;
    Step(s.(currentAccount := account, network := network),
         if changed && OnRequiredNetwork(network) then [RefreshMints(0)] else [],
         Silent)
  }

  /** Editing an entry and then submitting with both outcomes confirmed sets
      exactly that entry's record again and returns the form to minting. */
  lemma EditThenSubmit(s: State, index: nat, env: Env)
    requires index < |s.mints| && s.mints[index].name != "" && s.mints[index].record != ""
    requires env.provider && env.setRecord == TxConfirmed
    ensures var o := SubmitStep(EditRecordStep(s, index), env);
            o.calls == [SetRecord(s.mints[index].name, s.mints[index].record), RefreshMints(0)]
            && o.after == s.(domain := "", record := "", editing := false, loading := false)
            && SubmitAction(o.after) == MintAction
  {
  }

  /** A failed or thrown mint leaves the form as it was, so the identical
      submission can be retried at once. */
  lemma FailedMintIsRetryable(s: State, env: Env)
    requires Validate(s.domain) == Accepted && env.provider && !MintSucceeds(s, env)
    ensures var t := MintDomainStep(s, env).after;
            t == s.(loading := false) && MintDomainStep(t, env) == MintDomainStep(s, env)
  {
  }
}
