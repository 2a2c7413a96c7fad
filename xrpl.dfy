/**
  The part of the `xrpl` library the component uses, as values. The library's own
  behaviour (connecting, key derivation, autofill, signing, submission, the faucet,
  unit conversion) is not modelled: each operation is a total function fixed by
  the caller, which either returns a value or throws.
 */
module Xrpl {
  import opened Js

  datatype Option<T> = None | Some(value: T)

  /** The `result` object of an XRPL error response; `engine_result` may be absent or empty. */
  datatype ErrorResult = ErrorResult(engineResult: Option<string>)

  /** The `data` object of an XRPL error response. */
  datatype ErrorData = ErrorData(result: Option<ErrorResult>)

  /** A thrown error: its `message`, and the `data` that XRPL request errors carry. */
  datatype Failure = Failure(message: string, data: Option<ErrorData>)

  /** The outcome of one library call: a value, or a thrown `Failure`. */
  datatype Attempt<T> = Returned(value: T) | Threw(failure: Failure) {
    function Thrown(): (f: Option<Failure>)
      ensures f.Some? <==> Threw?
      ensures Threw? ==> f.value == failure
    {
      match this
      case Returned(_) => None
      case Threw(e) => Some(e)
    }
  }

  /** A signing identity: its classic address and, when known, the seed it came from. */
  datatype Wallet = Wallet(address: string, seed: Option<string>)

  /**
    The unsigned `EscrowCreate` transaction the form assembles. The two time
    fields are JavaScript numbers, NaN when their offset did not parse.
   */
  datatype EscrowCreate = EscrowCreate(
    transactionType: string,
    account: string,
    amount: string,
    destination: string,
    finishAfter: IntOrNaN,
    cancelAfter: IntOrNaN)

  /** The transaction after `autofill`, with the ledger fields the library added. */
  datatype Prepared = Prepared(tx: EscrowCreate, autofilled: map<string, string>)

  /** The result of `wallet.sign`: the serialized blob and its hash. */
  datatype Signed = Signed(txBlob: string, hash: string)

  /** `result.meta` of a validated transaction, of any JavaScript shape. */
  datatype Meta =
    | MetaUndefined
    | MetaNull
    | MetaText(text: string)
    | MetaObject(fields: map<string, string>)

  /** The `result` of `submitAndWait`. */
  datatype SubmitResponse = SubmitResponse(hash: string, meta: Meta)

  /** The value `fundWallet` resolves to. */
  datatype Funded = Funded(wallet: Wallet, balance: nat)

  /** A connected client, known by the endpoint it was created for. */
  datatype Client = Client(endpoint: Option<string>)

  /**
    What the ledger answers to the network requests of one handler. The answers
    are not fixed for the session: each handler is given the ledger's answers at
    the time it runs.
   */
  datatype Network = Network(
    autofill: EscrowCreate -> Attempt<Prepared>,
    submitAndWait: string -> Attempt<SubmitResponse>,
    fundWallet: Attempt<Funded>)

  /**
    The library entry points: `new Client(url)` followed by `connect()`, and the
    local computations `Wallet.fromSeed`, `xrpToDrops` and `wallet.sign`.
   */
  datatype Library = Library(
    connect: Option<string> -> Attempt<Client>,
    fromSeed: string -> Attempt<Wallet>,
    xrpToDrops: string -> Attempt<string>,
    sign: (Wallet, Prepared) -> Attempt<Signed>)

  /** One call into the library or the network, as recorded by the component. */
  datatype Call =
    | Connect(url: Option<string>)
    | FromSeed(seed: string)
    | XrpToDrops(xrp: string)
    | Autofill(tx: EscrowCreate)
    | SignTx(prepared: Prepared)
    | SubmitAndWait(txBlob: string)
    | FundWallet

  /** What a recorded call threw, if anything, given the library, the ledger's answers and the wallet. */
  function ThrownBy(call: Call, lib: Library, net: Network, wallet: Wallet): Option<Failure>
  {
    match call
    case Connect(url) => lib.connect(url).Thrown()
    case FromSeed(seed) => lib.fromSeed(seed).Thrown()
    case XrpToDrops(xrp) => lib.xrpToDrops(xrp).Thrown()
    case Autofill(tx) => net.autofill(tx).Thrown()
    case SignTx(prepared) => lib.sign(wallet, prepared).Thrown()
    case SubmitAndWait(blob) => net.submitAndWait(blob).Thrown()
    case FundWallet => net.fundWallet.Thrown()
  }
}
