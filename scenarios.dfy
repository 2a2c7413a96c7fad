/**
  Sessions driven through the component handlers against fixed library
  behaviour: what a user sees after each sequence of actions. Amounts and
  offsets are any decimal naturals typed into the form.
 */
module Scenarios {
  import opened Js
  import opened Xrpl
  import opened Escrow
  import opened Components

  const Now := 1_700_000_000
  const Url := Some("wss://s.altnet.rippletest.net:51233")
  const TestAccount := Wallet("rACCOUNT", Some("sSEED"))
  const Fees := map["Fee" := "12", "Sequence" := "7"]

  /** The client the test library connects. */
  const TestClient := Client(Url)

  /** A ledger that accepts every escrow, and whose faucet is down. */
  function AcceptingLedger(): Network {
    Network(
      tx => Returned(Prepared(tx, Fees)),
      blob => Returned(SubmitResponse("HASH1", MetaObject(map[ResultKey := "tesSUCCESS"]))),
      Threw(Failure("faucet unavailable", None)))
  }

  /** The same ledger at a moment when its faucet hands out `w` with `balance` XRP. */
  function FundingLedger(w: Wallet, balance: nat): Network {
    AcceptingLedger().(fundWallet := Returned(Funded(w, balance)))
  }

  /** A library that connects to any endpoint, knows one seed, converts whole XRP amounts and signs everything. */
  function TestLibrary(): Library {
    Library(
      url => Returned(Client(url)),
      s => if s == "sSEED" then Returned(TestAccount) else Threw(Failure("Non-base58 character", None)),
      xrp => if xrp != [] && AllDigits(xrp) then Returned(xrp + "000000") else Threw(Failure("invalid value", None)),
      (w, p) => Returned(Signed("BLOB1", "HASH1")))
  }

  /** The same library with a signer that refuses, with an XRPL error response. */
  function RejectingLibrary(): Library {
    TestLibrary().(sign := (w, p) =>
      Threw(Failure("Transaction failed", Some(ErrorData(Some(ErrorResult(Some("temBAD_EXPIRATION"))))))))
  }

  /** `xrp` XRP to rDEST1, finishing after `finish` and cancelling after `cancel` seconds, typed in decimal. */
  function DecimalForm(xrp: nat, finish: nat, cancel: nat): Form {
    Form("rDEST1", DecimalString(xrp), DecimalString(finish), DecimalString(cancel))
  }

  /** The transaction that form assembles for the test account at `Now`. */
  function ExpectedTx(xrp: nat, finish: nat, cancel: nat): EscrowCreate {
    EscrowCreate(EscrowCreateType, "rACCOUNT", DecimalString(xrp) + "000000", "rDEST1", Int(Now + finish), Int(Now + cancel))
  }

  /** With the accepting ledger every call returns, and the ledger's result is shown. */
  lemma AcceptedRun(xrp: nat, finish: nat, cancel: nat)
    requires xrp > 0
    ensures CreateRun(Some(TestClient), Some(TestAccount), DecimalForm(xrp, finish, cancel), Now, TestLibrary(), AcceptingLedger())
      == Run([XrpToDrops(DecimalString(xrp)), Autofill(ExpectedTx(xrp, finish, cancel)),
              SignTx(Prepared(ExpectedTx(xrp, finish, cancel), Fees)), SubmitAndWait("BLOB1")],
             Submitted("HASH1", "tesSUCCESS"))
  {
    var form := DecimalForm(xrp, finish, cancel);
    DecimalAmountGate(xrp);
    EscrowFromDecimalOffsets("rACCOUNT", DecimalString(xrp) + "000000", "rDEST1", form.amount, Now, finish, cancel);
    CreateAllReturn(TestClient, TestAccount, form, Now, TestLibrary(), AcceptingLedger(), DecimalString(xrp) + "000000",
      Prepared(ExpectedTx(xrp, finish, cancel), Fees), Signed("BLOB1", "HASH1"),
      SubmitResponse("HASH1", MetaObject(map[ResultKey := "tesSUCCESS"])));
  }

  /** With the rejecting signer the same form fails at signing, and the engine result is shown. */
  lemma RejectedRun(xrp: nat, finish: nat, cancel: nat)
    requires xrp > 0
    ensures CreateRun(Some(TestClient), Some(TestAccount), DecimalForm(xrp, finish, cancel), Now, RejectingLibrary(), AcceptingLedger()).outcome
      == Failed("temBAD_EXPIRATION")
  {
    DecimalAmountGate(xrp);
    CreateRunSplits(TestClient, TestAccount, DecimalForm(xrp, finish, cancel), Now, RejectingLibrary(), AcceptingLedger());
  }

  /** A new session that connected to the accepting ledger and imported the test seed. */
  method SignedIn() returns (s: Session)
    ensures fresh(s)
    ensures s.client == Some(TestClient) && s.wallet == Some(TestAccount)
    ensures s.status == None && s.txHash == None
    ensures s.calls == [Connect(Url), FromSeed("sSEED")]
  {
    var lib := TestLibrary();
    s := new Session();
    s.Mount(lib, Url);
    s.SetSeed("sSEED");
    s.ConnectSeed(lib);
  }

  /** Fill in a decimal form and press "Submit Escrow" with every call returning. */
  method SubmitAccepted(s: Session, xrp: nat, finish: nat, cancel: nat)
    requires xrp > 0
    requires s.client == Some(TestClient) && s.wallet == Some(TestAccount)
    modifies s`dest, s`amount, s`finish, s`cancel, s`status, s`txHash, s`calls
    ensures s.status == Some("tesSUCCESS") && s.txHash == Some("HASH1")
    ensures s.calls == old(s.calls) + [XrpToDrops(DecimalString(xrp)), Autofill(ExpectedTx(xrp, finish, cancel)),
                                       SignTx(Prepared(ExpectedTx(xrp, finish, cancel), Fees)), SubmitAndWait("BLOB1")]
    ensures s.Inputs() == DecimalForm(xrp, finish, cancel)
  {
    var form := DecimalForm(xrp, finish, cancel);
    s.SetEscrowInputs(form.dest, form.amount, form.finish, form.cancel);
    AcceptedRun(xrp, finish, cancel);
    s.Create(TestLibrary(), AcceptingLedger(), Now);
  }

  /**
    Connect, import a valid seed and submit a positive amount: conversion,
    autofill, sign and submit run in order and the ledger's result and hash are
    shown, whichever of the two offsets is larger.
   */
  method HappyPath(xrp: nat, finish: nat, cancel: nat) returns (status: Option<string>, hash: Option<string>, calls: seq<Call>)
    requires xrp > 0
    ensures status == Some("tesSUCCESS") && hash == Some("HASH1")
    ensures calls == [Connect(Url), FromSeed("sSEED"), XrpToDrops(DecimalString(xrp)), Autofill(ExpectedTx(xrp, finish, cancel)),
                      SignTx(Prepared(ExpectedTx(xrp, finish, cancel), Fees)), SubmitAndWait("BLOB1")]
  {
    var s := SignedIn();
    SubmitAccepted(s, xrp, finish, cancel);
    status, hash, calls := s.status, s.txHash, s.calls;
  }

  /** After a successful escrow, a failed one shows the engine result and clears the hash. */
  method FailureClearsHash(xrp: nat, finish: nat, cancel: nat) returns (before: Option<string>, status: Option<string>, hash: Option<string>)
    requires xrp > 0
    ensures before == Some("HASH1")
    ensures status == Some("temBAD_EXPIRATION") && hash == None
  {
    var s := SignedIn();
    SubmitAccepted(s, xrp, finish, cancel);
    before := s.txHash;
    RejectedRun(xrp, finish, cancel);
    s.Create(RejectingLibrary(), AcceptingLedger(), Now);
    status, hash := s.status, s.txHash;
  }

  /** Submitting with no wallet shows the presence notice and makes no call at all, whatever the form holds. */
  method MissingWallet(form: Form) returns (status: Option<string>, hash: Option<string>, calls: seq<Call>)
    ensures status == Some(InitMessage) && hash == None
    ensures calls == [Connect(Url)]
  {
    var lib := TestLibrary();
    var s := new Session();
    s.Mount(lib, Url);
    s.SetEscrowInputs(form.dest, form.amount, form.finish, form.cancel);
    s.Create(lib, AcceptingLedger(), Now);
    status, hash, calls := s.status, s.txHash, s.calls;
  }

  /** A negated amount is stopped by the amount gate; the session makes no call after the seed import. */
  method NegativeAmount(xrp: nat, finish: nat, cancel: nat) returns (status: Option<string>, calls: seq<Call>)
    ensures status == Some(AmountMessage)
    ensures calls == [Connect(Url), FromSeed("sSEED")]
  {
    var form := DecimalForm(xrp, finish, cancel);
    var s := SignedIn();
    s.SetEscrowInputs(form.dest, "-" + form.amount, form.finish, form.cancel);
    NegatedAmountRejected(xrp);
    s.Create(TestLibrary(), AcceptingLedger(), Now);
    status, calls := s.status, s.calls;
  }

  /**
    With no wallet held (the only state in which the seed form is shown), an
    invalid seed shows the seed error and keeps the typed text; a valid one then
    imports the wallet and clears both; disconnecting twice ends as
    disconnecting once.
   */
  method SeedAndDisconnect() returns (afterBadSeed: Option<Wallet>, seedError: Option<string>, typed: string,
                                      imported: Option<Wallet>, afterOne: Option<Wallet>, afterTwo: Option<Wallet>)
    ensures afterBadSeed == None && seedError == Some(InvalidSeedMessage) && typed == "not a seed"
    ensures imported == Some(TestAccount)
    ensures afterOne == None && afterTwo == afterOne
  {
    var lib := TestLibrary();
    var s := new Session();
    s.Mount(lib, Url);
    s.SetSeed("not a seed");
    s.ConnectSeed(lib);
    afterBadSeed, seedError, typed := s.wallet, s.seedError, s.seed;
    s.SetSeed("sSEED");
    s.ConnectSeed(lib);
    imported := s.wallet;
    s.Disconnect();
    afterOne := s.wallet;
    s.Disconnect();
    afterTwo := s.wallet;
  }

  /**
    Each press of "Generate" asks the faucet afresh: a press while the faucet is
    down shows its message and leaves the wallet, and two later presses fund two
    different wallets in turn.
   */
  method FaucetPresses(w1: Wallet, w2: Wallet, b1: nat, b2: nat) returns (failed: Option<string>, afterFailure: Option<Wallet>,
                                                                        first: Option<Wallet>, second: Option<Wallet>, shown: Option<string>)
    ensures failed == Some("faucet unavailable") && afterFailure == None
    ensures first == Some(w1) && second == Some(w2)
    ensures shown == Some(FundedStatus(Funded(w2, b2)))
  {
    var s := new Session();
    s.Mount(TestLibrary(), Url);
    s.Generate(AcceptingLedger());
    failed, afterFailure := s.faucetStatus, s.wallet;
    s.Generate(FundingLedger(w1, b1));
    first := s.wallet;
    s.Generate(FundingLedger(w2, b2));
    second, shown := s.wallet, s.faucetStatus;
  }

  /**
    The handler's own guard: pressed before any client exists, "Generate" only
    shows a notice. The app itself never offers the button in that state, since
    the faucet panel is rendered only once the connection has succeeded.
   */
  method FaucetBeforeConnect() returns (early: Option<string>, wallet: Option<Wallet>, calls: seq<Call>)
    ensures early == Some(ClientNotReadyMessage) && wallet == None && calls == []
  {
    var s := new Session();
    s.Generate(AcceptingLedger());
    early, wallet, calls := s.faucetStatus, s.wallet, s.calls;
  }
}
