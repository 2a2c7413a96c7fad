/**
  The escrow workflow of the `EscrowTransaction` component as pure functions:
  the two gates, the assembly of the `EscrowCreate` record, the classification of
  the submission result and of a thrown error, and `CreateRun`, which states the
  calls one press of "Submit Escrow" makes and what it shows afterwards.
 */
module Escrow {
  import opened Js
  import opened Xrpl

  const InitMessage := "Init client & wallet"
  const AmountMessage := "Enter valid amount"
  const UnknownResult := "Unknown result"
  const ResultKey := "TransactionResult"
  const EscrowCreateType := "EscrowCreate"

  /** The four text inputs of the form. */
  datatype Form = Form(dest: string, amount: string, finish: string, cancel: string)

  /** How one attempt ends. */
  datatype Outcome =
    | Blocked(message: string)              // a gate returned before any call
    | Submitted(hash: string, result: string)
    | Failed(message: string)               // some call threw
  {
    /** The status line shown after the attempt. */
    function Status(): string {
      match this
      case Blocked(m) => m
      case Submitted(_, res) => res
      case Failed(m) => m
    }

    /** The transaction hash shown after the attempt, given the one shown before. */
    function HashAfter(before: Option<string>): (h: Option<string>)
      ensures Blocked? ==> h == before
      ensures Submitted? ==> h == Some(hash)
      ensures Failed? ==> h == None
    {
      match this
      case Blocked(_) => before
      case Submitted(hash, _) => Some(hash)
      case Failed(_) => None
    }
  }

  /** The calls one attempt makes, in order, and how it ends. */
  datatype Run = Run(calls: seq<Call>, outcome: Outcome)

  /** The amount gate: empty text, or text that `parseFloat` reads as a number at most 0. NaN passes. */
  predicate AmountRejected(amount: string) {
    amount == "" || ParseFloatClass(amount) == Negative || ParseFloatClass(amount) == Zero
  }

  /**
    The transaction the form builds: both time fields are always present and are
    `now` plus the parsed offset, NaN when the offset does not parse.
   */
  function BuildEscrowCreate(account: string, drops: string, form: Form, now: int): EscrowCreate
  {
    EscrowCreate(
      EscrowCreateType,
      account,
      drops,
      form.dest,
      ParseInt(form.finish).AddTo(now),
      ParseInt(form.cancel).AddTo(now))
  }

  /** The status after a successful submission: `meta.TransactionResult` when `meta` is an object holding it. */
  function ResultStatus(meta: Meta): (s: string)
    ensures meta.MetaUndefined? || meta.MetaNull? || meta.MetaText? ==> s == UnknownResult
    ensures meta.MetaObject? && ResultKey in meta.fields ==> s == meta.fields[ResultKey]
    ensures meta.MetaObject? && ResultKey !in meta.fields ==> s == UnknownResult
  {
    match meta
    case MetaObject(fields) => if ResultKey in fields then fields[ResultKey] else UnknownResult
    case _ => UnknownResult
  }

  /** Whether a thrown error carries a non-empty `data.result.engine_result`. */
  predicate HasEngineResult(e: Failure) {
    && e.data.Some?
    && e.data.value.result.Some?
    && e.data.value.result.value.engineResult.Some?
    && e.data.value.result.value.engineResult.value != ""
  }

  /** The status after a thrown error: the engine result when present and non-empty, else the message. */
  function FailureStatus(e: Failure): (s: string)
    ensures HasEngineResult(e) ==> s == e.data.value.result.value.engineResult.value && s != ""
    ensures !HasEngineResult(e) ==> s == e.message
  {
    if HasEngineResult(e) then e.data.value.result.value.engineResult.value else e.message
  }

  /** The position of a call in the create pipeline. */
  function Stage(c: Call): nat {
    match c
    case XrpToDrops(_) => 0
    case Autofill(_) => 1
    case SignTx(_) => 2
    case SubmitAndWait(_) => 3
    case _ => 4
  }

  /**
    The calls `create` makes once the transaction is assembled: autofill, then
    sign on what autofill returned, then submit on the blob sign returned,
    stopping at the first call that throws.
   */
  function SubmitRun(net: Network, w: Wallet, tx: EscrowCreate, lib: Library): (r: Run)
    ensures 1 <= |r.calls| <= 3 && r.calls[0] == Autofill(tx)
    ensures forall i :: 0 <= i < |r.calls| ==> Stage(r.calls[i]) == i + 1
    ensures |r.calls| >= 2 ==> r.calls[1].SignTx? && net.autofill(tx) == Returned(r.calls[1].prepared)
    ensures |r.calls| == 3 ==>
      && r.calls[2].SubmitAndWait? && lib.sign(w, r.calls[1].prepared).Returned?
      && r.calls[2].txBlob == lib.sign(w, r.calls[1].prepared).value.txBlob
    ensures forall i :: 0 <= i < |r.calls| - 1 ==> ThrownBy(r.calls[i], lib, net, w).None?
    ensures !r.outcome.Blocked?
    ensures r.outcome.Failed? <==> ThrownBy(r.calls[|r.calls| - 1], lib, net, w).Some?
    ensures r.outcome.Failed? ==> r.outcome.message == FailureStatus(ThrownBy(r.calls[|r.calls| - 1], lib, net, w).value)
    ensures r.outcome.Submitted? ==>
      && |r.calls| == 3
      && net.submitAndWait(r.calls[2].txBlob).Returned?
      && r.outcome.hash == net.submitAndWait(r.calls[2].txBlob).value.hash
      && r.outcome.result == ResultStatus(net.submitAndWait(r.calls[2].txBlob).value.meta)
  {
    match net.autofill(tx)
    case Threw(e) => Run([Autofill(tx)], Failed(FailureStatus(e)))
    case Returned(prepared) =>
      match lib.sign(w, prepared)
      case Threw(e) => Run([Autofill(tx), SignTx(prepared)], Failed(FailureStatus(e)))
      case Returned(signed) =>
        var calls := [Autofill(tx), SignTx(prepared), SubmitAndWait(signed.txBlob)];
        match net.submitAndWait(signed.txBlob)
        case Threw(e) => Run(calls, Failed(FailureStatus(e)))
        case Returned(response) => Run(calls, Submitted(response.hash, ResultStatus(response.meta)))
  }

  /**
    One run of `create` with the given client and wallet (absent or present),
    form contents and current Unix time: the presence gate, the amount gate,
    the conversion of the amount to drops, then the submission of the assembled
    transaction.
   */
  function CreateRun(client: Option<Client>, wallet: Option<Wallet>, form: Form, now: int, lib: Library, net: Network): (r: Run)
    // The presence gate returns before any call.
    ensures client.None? || wallet.None? ==> r == Run([], Blocked(InitMessage))
    // The amount gate returns before any call.
    ensures client.Some? && wallet.Some? && AmountRejected(form.amount) ==> r == Run([], Blocked(AmountMessage))
    // A call is made exactly when both gates pass, and the first one converts the amount.
    ensures r.calls == [] <==> r.outcome.Blocked?
    ensures r.calls != [] <==> client.Some? && wallet.Some? && !AmountRejected(form.amount)
    ensures r.calls != [] ==> r.calls[0] == XrpToDrops(form.amount)
  {
    if client.None? || wallet.None? then Run([], Blocked(InitMessage))
    else if AmountRejected(form.amount) then Run([], Blocked(AmountMessage))
    else
      match lib.xrpToDrops(form.amount)
      case Threw(e) => Run([XrpToDrops(form.amount)], Failed(FailureStatus(e)))
      case Returned(drops) =>
        var rest := SubmitRun(net, wallet.value, BuildEscrowCreate(wallet.value.address, drops, form, now), lib);
        Run([XrpToDrops(form.amount)] + rest.calls, rest.outcome)
  }

  /** Past the gates, a run is the conversion followed by the submission of the assembled transaction. */
  lemma CreateRunSplits(c: Client, w: Wallet, form: Form, now: int, lib: Library, net: Network)
    requires !AmountRejected(form.amount)
    ensures var r := CreateRun(Some(c), Some(w), form, now, lib, net);
      && |r.calls| >= 1 && r.calls[0] == XrpToDrops(form.amount)
      && (lib.xrpToDrops(form.amount).Threw? ==>
            r == Run([XrpToDrops(form.amount)], Failed(FailureStatus(lib.xrpToDrops(form.amount).failure))))
      && (lib.xrpToDrops(form.amount).Returned? ==>
            var s := SubmitRun(net, w, BuildEscrowCreate(w.address, lib.xrpToDrops(form.amount).value, form, now), lib);
            && r == Run([XrpToDrops(form.amount)] + s.calls, s.outcome)
            && forall i :: 1 <= i < |r.calls| ==> r.calls[i] == s.calls[i - 1])
  {
  }

  /** Conversion, autofill, sign, submit: each at most once, and in that order. */
  lemma CreateCallOrder(client: Option<Client>, wallet: Option<Wallet>, form: Form, now: int, lib: Library, net: Network)
    ensures var r := CreateRun(client, wallet, form, now, lib, net);
      |r.calls| <= 4 && forall i :: 0 <= i < |r.calls| ==> Stage(r.calls[i]) == i
  {
    if client.Some? && wallet.Some? && !AmountRejected(form.amount) {
      CreateRunSplits(client.value, wallet.value, form, now, lib, net);
    }
  }

  /**
    Each call gets what the one before it produced: autofill the transaction
    assembled from the converted amount, sign what autofill returned, submit the
    blob that sign returned.
   */
  lemma CreateFeedsResults(client: Option<Client>, wallet: Option<Wallet>, form: Form, now: int, lib: Library, net: Network)
    ensures var r := CreateRun(client, wallet, form, now, lib, net);
      && (|r.calls| >= 2 ==>
            && client.Some? && wallet.Some? && lib.xrpToDrops(form.amount).Returned?
            && r.calls[1] == Autofill(BuildEscrowCreate(wallet.value.address, lib.xrpToDrops(form.amount).value, form, now)))
      && (|r.calls| >= 3 ==>
            && client.Some? && r.calls[1].Autofill? && r.calls[2].SignTx?
            && net.autofill(r.calls[1].tx) == Returned(r.calls[2].prepared))
      && (|r.calls| == 4 ==>
            && wallet.Some? && r.calls[2].SignTx? && r.calls[3].SubmitAndWait?
            && lib.sign(wallet.value, r.calls[2].prepared).Returned?
            && r.calls[3].txBlob == lib.sign(wallet.value, r.calls[2].prepared).value.txBlob)
  {
    if client.Some? && wallet.Some? && !AmountRejected(form.amount) {
      CreateRunSplits(client.value, wallet.value, form, now, lib, net);
    }
  }

  /**
    No retry and no skipped failure: every call but the last returned, and the
    run ends in failure exactly when the last call threw, showing that error.
   */
  lemma CreateStopsAtFirstThrow(client: Client, wallet: Wallet, form: Form, now: int, lib: Library, net: Network)
    ensures var r := CreateRun(Some(client), Some(wallet), form, now, lib, net);
      r.calls != [] ==>
        && (forall i :: 0 <= i < |r.calls| - 1 ==> ThrownBy(r.calls[i], lib, net, wallet).None?)
        && (r.outcome.Failed? <==> ThrownBy(r.calls[|r.calls| - 1], lib, net, wallet).Some?)
        && (r.outcome.Failed? ==>
              r.outcome.message == FailureStatus(ThrownBy(r.calls[|r.calls| - 1], lib, net, wallet).value))
  {
    if !AmountRejected(form.amount) {
      CreateRunSplits(client, wallet, form, now, lib, net);
    }
  }

  /** A run that succeeds made all four calls and shows the submission's hash and classified result. */
  lemma CreateSubmitted(client: Option<Client>, wallet: Option<Wallet>, form: Form, now: int, lib: Library, net: Network)
    ensures var r := CreateRun(client, wallet, form, now, lib, net);
      r.outcome.Submitted? ==>
        && |r.calls| == 4 && client.Some? && r.calls[3].SubmitAndWait?
        && net.submitAndWait(r.calls[3].txBlob).Returned?
        && r.outcome.hash == net.submitAndWait(r.calls[3].txBlob).value.hash
        && r.outcome.result == ResultStatus(net.submitAndWait(r.calls[3].txBlob).value.meta)
  {
    if client.Some? && wallet.Some? && !AmountRejected(form.amount) {
      CreateRunSplits(client.value, wallet.value, form, now, lib, net);
    }
  }

  /**
    Offsets typed as decimal naturals give `now` plus the offset in both time
    fields, and the record holds exactly the six fields; nothing relates the two
    times, so a cancel time before the finish time is built as readily.
   */
  lemma EscrowFromDecimalOffsets(account: string, drops: string, dest: string, amount: string, now: int, finish: nat, cancel: nat)
    ensures BuildEscrowCreate(account, drops, Form(dest, amount, DecimalString(finish), DecimalString(cancel)), now)
      == EscrowCreate(EscrowCreateType, account, drops, dest, Int(now + finish), Int(now + cancel))
  {
    OffsetFromDecimal(finish, now);
    OffsetFromDecimal(cancel, now);
  }

  /** One time field from a decimal offset. */
  lemma OffsetFromDecimal(n: nat, now: int)
    ensures ParseInt(DecimalString(n)).AddTo(now) == Int(now + n)
  {
    ParseIntDecimal(n, []);
    assert DecimalString(n) + [] == DecimalString(n);
  }

  /** A blank offset is not rejected: its time field is still present, as NaN. */
  lemma BlankOffsetsGiveNaN(account: string, drops: string, form: Form, now: int)
    ensures (forall i :: 0 <= i < |form.finish| ==> IsWhiteSpace(form.finish[i])) ==>
      BuildEscrowCreate(account, drops, form, now).finishAfter == NaN
    ensures (forall i :: 0 <= i < |form.cancel| ==> IsWhiteSpace(form.cancel[i])) ==>
      BuildEscrowCreate(account, drops, form, now).cancelAfter == NaN
  {
    if forall i :: 0 <= i < |form.finish| ==> IsWhiteSpace(form.finish[i]) {
      ParseIntBlank(form.finish);
    }
    if forall i :: 0 <= i < |form.cancel| ==> IsWhiteSpace(form.cancel[i]) {
      ParseIntBlank(form.cancel);
    }
  }

  /** Nor is a negative offset: the time field then lies before `now`. */
  lemma NegativeOffsetBeforeNow(n: nat, now: int)
    ensures ParseInt("-" + DecimalString(n)).AddTo(now) == Int(now - n)
  {
    ParseIntNegatedDecimal(n);
  }

  /** The amount gate on a decimal natural: rejected exactly when it is zero. */
  lemma DecimalAmountGate(n: nat)
    ensures AmountRejected(DecimalString(n)) <==> n == 0
  {
    ParseFloatDecimal(n);
  }

  /** A negated decimal natural is always rejected. */
  lemma NegatedAmountRejected(n: nat)
    ensures AmountRejected("-" + DecimalString(n))
  {
    ParseFloatNegatedDecimal(n);
  }

  /** Text that `parseFloat` reads as NaN is not stopped by the amount gate: the amount goes to conversion. */
  lemma NotANumberReachesConversion(client: Client, wallet: Wallet, form: Form, now: int, lib: Library, net: Network)
    requires form.amount != "" && ParseFloatClass(form.amount) == NotNumber
    ensures CreateRun(Some(client), Some(wallet), form, now, lib, net).calls[0] == XrpToDrops(form.amount)
  {
  }

  /** For instance "abc". */
  lemma NotANumberExample()
    ensures ParseFloatClass("abc") == NotNumber && !AmountRejected("abc")
  {
    assert TrimStart("abc") == "abc";
    assert StripSign("abc") == (false, "abc");
    assert DigitRun("abc") == 0;
  }

  /**
    With a cancel offset below the finish offset, the inverted window is handed
    to autofill all the same.
   */
  lemma InvertedWindowIsSubmitted(client: Client, wallet: Wallet, form: Form, now: int, lib: Library, net: Network)
    requires !AmountRejected(form.amount) && lib.xrpToDrops(form.amount).Returned?
    requires ParseInt(form.finish).Int? && ParseInt(form.cancel).Int?
    requires ParseInt(form.cancel).value < ParseInt(form.finish).value
    ensures var r := CreateRun(Some(client), Some(wallet), form, now, lib, net);
      && |r.calls| >= 2 && r.calls[1].Autofill?
      && r.calls[1].tx.cancelAfter.Int? && r.calls[1].tx.finishAfter.Int?
      && r.calls[1].tx.cancelAfter.value < r.calls[1].tx.finishAfter.value
  {
    CreateRunSplits(client, wallet, form, now, lib, net);
  }

  /** When every call returns, the run makes the four calls and shows the submission's hash and result. */
  lemma CreateAllReturn(client: Client, wallet: Wallet, form: Form, now: int, lib: Library, net: Network,
                        drops: string, prepared: Prepared, signed: Signed, response: SubmitResponse)
    requires !AmountRejected(form.amount)
    requires lib.xrpToDrops(form.amount) == Returned(drops)
    requires net.autofill(BuildEscrowCreate(wallet.address, drops, form, now)) == Returned(prepared)
    requires lib.sign(wallet, prepared) == Returned(signed)
    requires net.submitAndWait(signed.txBlob) == Returned(response)
    ensures CreateRun(Some(client), Some(wallet), form, now, lib, net) == Run(
      [XrpToDrops(form.amount), Autofill(BuildEscrowCreate(wallet.address, drops, form, now)),
       SignTx(prepared), SubmitAndWait(signed.txBlob)],
      Submitted(response.hash, ResultStatus(response.meta)))
  {
  }
}
