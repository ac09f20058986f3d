/** The `App` component as an object: its seven `useState` fields are the
    class's fields, and each handler updates them step by step as the
    component's setters do. Every method is proved to end in the state, call
    trace and notice that its transition in `AppState` prescribes. */
module AppComponent {
  import opened Pricing
  import opened Registry
  import opened AppState

  class App {
    var currentAccount: string
    var network: string
    var domain: string
    var record: string
    var loading: bool
    var editing: bool
    var mints: seq<MintEntry>

    /** The current values of the fields. */
    function Snapshot(): State
      reads this
    {
      State(currentAccount, network, domain, record, loading, editing, mints)
    }

    constructor ()
      ensures Snapshot() == Initial()
    {
      currentAccount, network := "", "";
      domain, record := "", "";
      loading, editing := false, false;
      mints := [];
    }

    /** The `onChange` handler of the domain input. */
    method TypeDomain(text: string)
      modifies this
      ensures Snapshot() == old(Snapshot()).(domain := text)
    {
      domain := text;
    }

    /** The `onChange` handler of the record input. */
    method TypeRecord(text: string)
      modifies this
      ensures Snapshot() == old(Snapshot()).(record := text)
    {
      record := text;
    }

    /** The wallet reporting an account and a network, and the effect that
      reacts to the change. */
    method ChangeSession(account: string, networkName: string) returns (calls: seq<Call>)
      modifies this
      ensures Snapshot() == SessionStep(old(Snapshot()), account, networkName).after
      ensures calls == SessionStep(old(Snapshot()), account, networkName).calls
    {
      var changed := account != currentAccount || networkName != network;
      currentAccount := account;
      network := networkName;
      calls := if changed && OnRequiredNetwork(network) then [RefreshMints(0)] else [];
    }

    method MintDomain(env: Env) returns (calls: seq<Call>, notice: Notice)
      modifies this
      ensures Snapshot() == MintDomainStep(old(Snapshot()), env).after
      ensures calls == MintDomainStep(old(Snapshot()), env).calls
      ensures notice == MintDomainStep(old(Snapshot()), env).notice
    {
      calls, notice := [], Silent;
      if domain == "" {
        return;
      }
      if |domain| < MIN_NAME_LENGTH {
        notice := DomainTooShort;
        return;
      }
      loading := true;
      var price := Price(domain);
      if !env.provider {
        return;
      }
      calls := calls + [Register(domain, price)];
      match env.register {
        case RegisterThrew =>
          loading := false;
        case Mined(status) =>
          if status != 1 {
            notice := MintingFailed;
            loading := false;
            return;
          }
          calls := calls + [SetRecord(domain, record)];
          if env.setRecord == TxThrew {
            loading := false;
            return;
          }
          calls := calls + [RefreshMints(REFETCH_DELAY_MS)];
          loading := false;
          record := "";
          domain := "";
      }
    }

    method UpdateDomain(env: Env) returns (calls: seq<Call>)
      modifies this
      ensures Snapshot() == UpdateDomainStep(old(Snapshot()), env).after
      ensures calls == UpdateDomainStep(old(Snapshot()), env).calls
    {
      calls := [];
      if record == "" || domain == "" {
        return;
      }
      loading := true;
      if env.provider {
        calls := calls + [SetRecord(domain, record)];
        if env.setRecord == TxConfirmed {
          calls := calls + [RefreshMints(0)];
          record := "";
          domain := "";
          editing := false;
        }
      }
      loading := false;
    }

    /** A click on the submit button, which exists only while not loading. */
    method Submit(env: Env) returns (calls: seq<Call>, notice: Notice)
      requires !loading
      modifies this
      ensures Snapshot() == SubmitStep(old(Snapshot()), env).after
      ensures calls == SubmitStep(old(Snapshot()), env).calls
      ensures notice == SubmitStep(old(Snapshot()), env).notice
    {
      if editing {
        calls := UpdateDomain(env);
        notice := Silent;
      } else {
        calls, notice := MintDomain(env);
      }
    }

    /** The "Edit Record" button of the entry at `index`. */
    method EditRecord(index: nat)
      requires index < |mints|
      modifies this
      ensures Snapshot() == EditRecordStep(old(Snapshot()), index)
    {
      editing := true;
      domain := mints[index].name;
      record := mints[index].record;
    }

    method FetchMints(provider: bool, outcome: FetchOutcome)
      modifies this
      ensures Snapshot() == FetchMintsStep(old(Snapshot()), provider, outcome)
    {
      if provider {
        match outcome {
          case FetchFailed =>
          case Fetched(names, recordOf, ownerOf) =>
            mints := Entries(names, recordOf, ownerOf);
        }
      }
    }
  }
}
