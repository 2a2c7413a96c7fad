/**
  The React state of the component tree as one object: the provider's connection
  state and shared wallet, the seed form, the escrow form and the faucet panel,
  plus the list of library and network calls made so far. Each handler of the
  components is a method that assigns these fields in the order the source does;
  each `await` is one call into the library, which returns a value or throws.
 */
module Components {
  import opened Js
  import opened Xrpl
  import opened Escrow

  const ConnectFailedPrefix := "Failed to connect: "
  const InvalidSeedMessage := "Invalid seed"
  const ClientNotReadyMessage := "Client not ready"
  const GeneratingMessage := "Generating..."

  /** What the provider renders. */
  datatype Rendered = Connecting | ConnectionError(message: string) | Children

  /** The provider's three render branches: loading first, then a non-empty error, else the children. */
  function SelectView(loading: bool, error: Option<string>): (v: Rendered)
    ensures v.Connecting? <==> loading
    ensures v.ConnectionError? <==> !loading && error.Some? && error.value != ""
    ensures v.ConnectionError? ==> v.message == error.value
  {
    if loading then Connecting
    else if error.Some? && error.value != "" then ConnectionError(error.value)
    else Children
  }

  /** `${w.seed}`: an absent seed prints as "undefined". */
  function SeedText(seed: Option<string>): string {
    match seed
    case Some(s) => s
    case None => "undefined"
  }

  /** The faucet panel's text after funding: address, seed and balance on three lines. */
  function FundedStatus(f: Funded): string
  {
    "Addr: " + f.wallet.address + "\nSeed: " + SeedText(f.wallet.seed) + "\nBalance: " + DecimalString(f.balance)
  }

  class Session {
    // XRPLProvider
    var client: Option<Client>
    var wallet: Option<Wallet>
    var loading: bool
    var error: Option<string>
    // ConnectWallet
    var seed: string
    var seedError: Option<string>
    // EscrowTransaction
    var dest: string
    var amount: string
    var finish: string
    var cancel: string
    var status: Option<string>
    var txHash: Option<string>
    // TestnetWallet
    var faucetStatus: Option<string>
    // Every call into the library or the network, oldest first
    var calls: seq<Call>

    /** The initial values of every `useState`. */
    constructor ()
      ensures client == None && wallet == None && loading && error == None
      ensures seed == "" && seedError == None
      ensures dest == "" && amount == "" && finish == "" && cancel == ""
      ensures status == None && txHash == None && faucetStatus == None
      ensures calls == []
      ensures View() == Connecting
    {
      client, wallet, loading, error := None, None, true, None;
      seed, seedError := "", None;
      dest, amount, finish, cancel := "", "", "", "";
      status, txHash, faucetStatus := None, None, None;
      calls := [];
    }

    /** What the provider renders now. */
    function View(): Rendered
      reads this`loading, this`error
    {
      SelectView(loading, error)
    }

    /** The escrow form's inputs. */
    function Inputs(): Form
      reads this`dest, this`amount, this`finish, this`cancel
    {
      Form(dest, amount, finish, cancel)
    }

    /**
      The provider's mount effect: build a client for the configured URL and
      connect; keep the client on success, an error text on failure, and stop
      loading either way.
     */
    method Mount(lib: Library, url: Option<string>)
      modifies this`client, this`error, this`loading, this`calls
      ensures calls == old(calls) + [Connect(url)]
      ensures !loading
      ensures lib.connect(url).Returned? ==> client == Some(lib.connect(url).value) && error == old(error)
      ensures lib.connect(url).Threw? ==>
        client == old(client) && error == Some(ConnectFailedPrefix + lib.connect(url).failure.message)
      ensures old(error).None? ==> (View() == Children <==> lib.connect(url).Returned?)
    {
      calls := calls + [Connect(url)];
      var connected := lib.connect(url);
      match connected {
        case Returned(c) =>
          client := Some(c);
        case Threw(e) =>
          error := Some(ConnectFailedPrefix + e.message);
      }
      loading := false;
    }

    /** The seed input's change handler. */
    method SetSeed(value: string)
      modifies this`seed
      ensures seed == value
    {
      seed := value;
    }

    /**
      `connect` of the wallet form: derive a wallet from the typed seed; on
      success it replaces the shared wallet and the error and seed are cleared,
      otherwise only the error is set.
     */
    method ConnectSeed(lib: Library)
      modifies this`wallet, this`seedError, this`seed, this`calls
      ensures calls == old(calls) + [FromSeed(old(seed))]
      ensures lib.fromSeed(old(seed)).Returned? ==>
        wallet == Some(lib.fromSeed(old(seed)).value) && seedError == None && seed == ""
      ensures lib.fromSeed(old(seed)).Threw? ==>
        wallet == old(wallet) && seed == old(seed) && seedError == Some(InvalidSeedMessage)
    {
      calls := calls + [FromSeed(seed)];
      var derived := lib.fromSeed(seed);
      match derived
      case Returned(w) =>
        wallet := Some(w);
        seedError := None;
        seed := "";
      case Threw(_) =>
        seedError := Some(InvalidSeedMessage);
    }

    /** `disconnect` of the wallet form: no wallet and no error, whatever held before. */
    method Disconnect()
      modifies this`wallet, this`seedError
      ensures wallet == None && seedError == None
    {
      wallet := None;
      seedError := None;
    }

    /** The escrow form's change handlers. */
    method SetEscrowInputs(newDest: string, newAmount: string, newFinish: string, newCancel: string)
      modifies this`dest, this`amount, this`finish, this`cancel
      ensures Inputs() == Form(newDest, newAmount, newFinish, newCancel)
    {
      dest, amount, finish, cancel := newDest, newAmount, newFinish, newCancel;
    }

    /**
      `create` of the escrow form at Unix time `now`, with `net` the ledger's
      answers at this press: the two gates, then the
      conversion of the amount, whose error is caught like any later one, then the
      submission of the assembled transaction. The calls made and the status and
      hash shown are those of `CreateRun` on the state before the press.
     */
    method Create(lib: Library, net: Network, now: int)
      modifies this`status, this`txHash, this`calls
      ensures var r := CreateRun(old(client), old(wallet), Inputs(), now, lib, net);
        && calls == old(calls) + r.calls
        && status == Some(r.outcome.Status())
        && txHash == r.outcome.HashAfter(old(txHash))
    {
      if client.None? || wallet.None? {
        status := Some(InitMessage);
        return;
      }
      if AmountRejected(amount) {
        status := Some(AmountMessage);
        return;
      }
      var c, w := client.value, wallet.value;
      CreateRunSplits(c, w, Inputs(), now, lib, net);
      calls := calls + [XrpToDrops(amount)];
      var drops := lib.xrpToDrops(amount);
      match drops {
        case Threw(e) =>
          status := Some(FailureStatus(e));
          txHash := None;
        case Returned(d) =>
          Submit(net, w, BuildEscrowCreate(w.address, d, Inputs(), now), lib);
      }
    }

    /**
      The rest of `create`'s try block and its catch: autofill the transaction,
      sign what autofill returned, submit the signed blob and show the result and
      hash; the first call that throws ends the block, shows the error and clears
      the hash.
     */
    method Submit(net: Network, w: Wallet, tx: EscrowCreate, lib: Library)
      modifies this`status, this`txHash, this`calls
      ensures var r := SubmitRun(net, w, tx, lib);
        && calls == old(calls) + r.calls
        && status == Some(r.outcome.Status())
        && txHash == r.outcome.HashAfter(old(txHash))
    {
      var caught: Option<Failure> := None;
      label attempt: {
        calls := calls + [Autofill(tx)];
        var prepared := net.autofill(tx);
        if prepared.Threw? {
          caught := Some(prepared.failure);
          break attempt;
        }
        calls := calls + [SignTx(prepared.value)];
        var signed := lib.sign(w, prepared.value);
        if signed.Threw? {
          caught := Some(signed.failure);
          break attempt;
        }
        calls := calls + [SubmitAndWait(signed.value.txBlob)];
        var response := net.submitAndWait(signed.value.txBlob);
        if response.Threw? {
          caught := Some(response.failure);
          break attempt;
        }
        txHash := Some(response.value.hash);
        status := Some(ResultStatus(response.value.meta));
      }
      if caught.Some? {
        status := Some(FailureStatus(caught.value));
        txHash := None;
      }
    }

    /**
      `gen` of the faucet panel, with `net` the ledger's answers at this press:
      with no client only a notice; otherwise ask the faucet for a funded wallet,
      which replaces the shared wallet on success, while a failure shows its
      message and leaves the wallet alone.
     */
    method Generate(net: Network)
      modifies this`faucetStatus, this`wallet, this`calls
      ensures old(client).None? ==>
        faucetStatus == Some(ClientNotReadyMessage) && wallet == old(wallet) && calls == old(calls)
      ensures old(client).Some? ==> calls == old(calls) + [FundWallet]
      ensures old(client).Some? && net.fundWallet.Returned? ==>
        && wallet == Some(net.fundWallet.value.wallet)
        && faucetStatus == Some(FundedStatus(net.fundWallet.value))
      ensures old(client).Some? && net.fundWallet.Threw? ==>
        wallet == old(wallet) && faucetStatus == Some(net.fundWallet.failure.message)
    {
      if client.None? {
        faucetStatus := Some(ClientNotReadyMessage);
        return;
      }
      faucetStatus := Some(GeneratingMessage);
      calls := calls + [FundWallet];
      var funded := net.fundWallet;
      match funded
      case Returned(f) =>
        wallet := Some(f.wallet);
        faucetStatus := Some(FundedStatus(f));
      case Threw(e) =>
        faucetStatus := Some(e.message);
    }
  }
}
