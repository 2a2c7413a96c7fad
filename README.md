# XRPL escrow session: a Dafny model

This project models the logic of the XRPL component tree in
`src/assets/components/XRPLComponent.tsx`:

- the provider's mount effect, which connects a ledger client, and its choice between three render branches;
- the wallet form, which imports a wallet from a seed and disconnects it;
- the escrow form's `create` handler, whose `EscrowCreate` pipeline is the core of the model;
- the faucet panel's `gen` handler.

The React state of all four components is one object, `Components.Session`. Every `useState` becomes a field and every handler becomes a method that assigns those fields in the order the source does. Each `await` reads as one call into the `xrpl` library, which either returns a value or throws. The session also records every library call it makes, in order (`calls`), so that "no call", "call order" and "call arguments" can be stated.

Modules:

- `Js`: the two JavaScript parsers the form relies on.
  - `parseInt(s, 10)` is modelled exactly, up to the limits listed under "Left out": leading white space, an optional sign, then the longest digit run; NaN when there is no digit.
  - `parseFloat` is reduced to the sign class of the number it reads (NaN, negative, zero, positive). That is all the amount gate looks at.
  - Also here: the decimal rendering of naturals.
- `Xrpl`: the library surface as values.
  - A `Library` holds the behaviour of `connect`, `Wallet.fromSeed`, `xrpToDrops` and `wallet.sign` as total functions that return or throw (`Attempt`). These are fixed for the whole session.
  - A `Network` holds what the ledger answers to `autofill`, `submitAndWait` and `fundWallet`. It is a parameter of each handler that talks to the ledger (`Create`, `Generate`), so the answers may differ from one press to the next. A `Client` is only the handle that `connect` returns.
  - The library's own behaviour is a parameter of the model.
- `Escrow`: the pure part of `create`.
  - The two gates, the assembly of the transaction, the classification of the submission result and of a thrown error.
  - `CreateRun`, the specification of one press of "Submit Escrow": the calls it makes and how it ends.
- `Components`: the render selection and the `Session` class. `Session.Create` is proved to make exactly the calls of `CreateRun` and to show its status and hash.
- `Scenarios`: sessions driven through the handlers against fixed library behaviour. They cover a successful escrow, a failure after a success, a missing wallet, a negative amount, a bad seed then a good one followed by two disconnects, repeated faucet presses, and the handler's own no-client guard of the faucet (a state the app never renders).

Behaviour kept as the code has it:

- The status texts are the code's own: "Init client & wallet", "Enter valid amount" and "Unknown result".
- An amount that `parseFloat` reads as NaN (for instance "abc") passes the amount gate, because `NaN <= 0` is false. It goes on to `xrpToDrops` inside the `try`.
- `FinishAfter` and `CancelAfter` are always present, as `now + parseInt(offset, 10)`. An empty or non-numeric offset gives NaN, and a negative offset gives a time before `now`. Nothing is rejected before the transaction is built.
- Nothing relates the two times. A cancel time before the finish time is handed to autofill and submitted, and the ledger's answer is then shown like any other.
- The amount field accepts any text. No input filtering happens in the component.
- The mount effect's cleanup closes over the initial `client`, which is null, so it never disconnects anything. The model has no teardown guarantee.

## Model

| member | source | states |
|---|---|---|
| Js.IntOrNaN.AddTo | src/assets/components/XRPLComponent.tsx:132-133 | `now + parseInt(...)`: NaN exactly when the parse was NaN, otherwise the offset added to `now` |
| Js.ParseIntDecimal | src/assets/components/XRPLComponent.tsx:132-133 | a natural typed in decimal, followed by anything but a digit, parses back to itself |
| Js.ParseIntNegatedDecimal | src/assets/components/XRPLComponent.tsx:132-133 | a decimal natural with a leading minus parses to its negation |
| Js.ParseIntBlank | src/assets/components/XRPLComponent.tsx:132-133 | empty or all-white-space text parses to NaN |
| Js.TrimStartDropsWhiteSpace | src/assets/components/XRPLComponent.tsx:132-133 | the parser skips exactly the leading white space: a suffix of the input, preceded only by white space and not starting with it |
| Js.DigitRunIsLongest | src/assets/components/XRPLComponent.tsx:132-133 | the digits read are the longest run of decimal digits at the start of the text |
| Js.ParseFloatDecimal | src/assets/components/XRPLComponent.tsx:123 | `parseFloat` of a decimal natural is positive unless the natural is zero |
| Js.ParseFloatNegatedDecimal | src/assets/components/XRPLComponent.tsx:123 | with a leading minus it is negative unless the natural is zero |
| Js.ParseInt | src/assets/components/XRPLComponent.tsx:132-133 | `parseInt(s, 10)`: skip the leading white space, read an optional `-` or `+`, then the longest run of decimal digits; NaN when that run is empty, otherwise its value with the sign; anything after the digits is ignored |
| Js.ParseFloatClass | src/assets/components/XRPLComponent.tsx:123 | the sign class of `parseFloat(s)`: after white space and an optional sign, `Infinity` or the longest literal digits [`.` digits] with at least one digit; NaN when there is none, Zero when all its digits are zeros, otherwise Negative or Positive by the sign |
| Js.DecimalString | src/assets/components/XRPLComponent.tsx:205 | the balance's decimal text: non-empty, all digits, its digits denote the number, all zeros exactly for 0, and no leading zero except in "0" itself |
| Escrow.AmountRejected | src/assets/components/XRPLComponent.tsx:123 | the amount gate, `!amount` or `parseFloat(amount) <= 0`: the empty text, or a literal whose sign class is Negative or Zero; a NaN reading is not rejected |
| Escrow.BuildEscrowCreate | src/assets/components/XRPLComponent.tsx:127-134 | the transaction record: type "EscrowCreate", the wallet's address, the drops, the destination, and each time field `now` plus `parseInt` of its offset, NaN when the offset has no digits |
| Escrow.Outcome.HashAfter | src/assets/components/XRPLComponent.tsx:121-147 | the hash after a press: unchanged when a gate returned, the submission's hash on success, cleared after a throw |
| Escrow.ResultStatus | src/assets/components/XRPLComponent.tsx:139-142 | the status after a submission: `meta.TransactionResult` when `meta` is an object holding that key, otherwise "Unknown result", for undefined, null, text or an object without the key |
| Escrow.FailureStatus | src/assets/components/XRPLComponent.tsx:144 | the status after a throw: a non-empty `data.result.engine_result` when present, otherwise the error's message |
| Escrow.SubmitRun | src/assets/components/XRPLComponent.tsx:135-146 | autofill on the transaction, then sign on what autofill returned, then submit on the signed blob; every call but the last returned; failure exactly when the last call threw, with that error's status; success shows the submission's hash and classified result |
| Escrow.CreateRun | src/assets/components/XRPLComponent.tsx:121-147 | with no client or no wallet: no call and "Init client & wallet"; with a rejected amount: no call and "Enter valid amount"; a call is made exactly when both gates pass, and the first one converts the amount; no call exactly when a gate returned |
| Escrow.CreateCallOrder | src/assets/components/XRPLComponent.tsx:125-137 | conversion, autofill, sign and submit are each called at most once, in that order |
| Escrow.CreateFeedsResults | src/assets/components/XRPLComponent.tsx:125-137 | autofill gets the transaction assembled from the converted amount, sign gets what autofill returned, submit gets the blob sign returned |
| Escrow.CreateStopsAtFirstThrow | src/assets/components/XRPLComponent.tsx:124-146 | no retry and no ignored error: every call but the last returned, the press fails exactly when the last call threw, and it shows that error's status |
| Escrow.CreateSubmitted | src/assets/components/XRPLComponent.tsx:137-142 | a successful press made all four calls and shows the hash and the classified result of the submission |
| Escrow.CreateAllReturn | src/assets/components/XRPLComponent.tsx:124-142 | when every call returns, the press makes exactly the four calls with those arguments and ends submitted |
| Escrow.EscrowFromDecimalOffsets | src/assets/components/XRPLComponent.tsx:127-134 | decimal offsets give the record with exactly the six fields: type "EscrowCreate", the wallet's address, the drops, the destination, and `now` plus each offset |
| Escrow.OffsetFromDecimal | src/assets/components/XRPLComponent.tsx:132-133 | one time field from a decimal offset is `now` plus that offset |
| Escrow.BlankOffsetsGiveNaN | src/assets/components/XRPLComponent.tsx:132-133 | a blank finish or cancel offset is not rejected: its time field is present, as NaN |
| Escrow.NegativeOffsetBeforeNow | src/assets/components/XRPLComponent.tsx:132-133 | a negative offset is not rejected: its time field lies before `now` |
| Escrow.InvertedWindowIsSubmitted | src/assets/components/XRPLComponent.tsx:127-135 | with a cancel offset below the finish offset, autofill still receives the inverted window |
| Escrow.DecimalAmountGate | src/assets/components/XRPLComponent.tsx:123 | a decimal natural amount is rejected exactly when it is zero |
| Escrow.NegatedAmountRejected | src/assets/components/XRPLComponent.tsx:123 | a negated decimal natural amount is always rejected |
| Escrow.NotANumberReachesConversion | src/assets/components/XRPLComponent.tsx:123-125 | a non-empty amount that `parseFloat` reads as NaN passes the gate and goes to `xrpToDrops` |
| Escrow.NotANumberExample | src/assets/components/XRPLComponent.tsx:123 | "abc" reads as NaN and is not rejected |
| Components.SelectView | src/assets/components/XRPLComponent.tsx:39-58 | the spinner exactly while loading; the error text exactly when not loading and the error is non-empty; the children otherwise |
| Components.SeedText | src/assets/components/XRPLComponent.tsx:205 | `${w.seed}`: the seed text, or "undefined" when the wallet has no seed |
| Components.FundedStatus | src/assets/components/XRPLComponent.tsx:205 | the faucet panel's text: "Addr: " and the address, "Seed: " and the seed text, "Balance: " and the decimal balance, on three lines |
| Components.Session.View | src/assets/components/XRPLComponent.tsx:39-58 | what the provider renders in the current state: `SelectView` of `loading` and `error` |
| Components.Session.constructor | src/assets/components/XRPLComponent.tsx:18-21 | every state starts empty, the provider starts loading and renders the spinner, and no call has been made |
| Components.Session.Mount | src/assets/components/XRPLComponent.tsx:23-37 | one connect call; on success the client is kept, on failure the error reads "Failed to connect: " and the message; loading ends either way; the children render exactly when the connection succeeded |
| Components.Session.SetSeed | src/assets/components/XRPLComponent.tsx:98 | the seed input holds the typed text |
| Components.Session.ConnectSeed | src/assets/components/XRPLComponent.tsx:69-77 | one derivation call; a valid seed replaces the wallet and clears the error and the seed; an invalid one sets "Invalid seed" and leaves the wallet and the seed alone |
| Components.Session.Disconnect | src/assets/components/XRPLComponent.tsx:78-81 | no wallet and no error afterwards, whatever held before |
| Components.Session.SetEscrowInputs | src/assets/components/XRPLComponent.tsx:155-169 | the escrow form holds the typed texts |
| Components.Session.Create | src/assets/components/XRPLComponent.tsx:121-147 | one press makes exactly the calls of `CreateRun` and shows its status and hash; nothing else changes |
| Components.Session.Submit | src/assets/components/XRPLComponent.tsx:135-146 | the rest of the try block and its catch make exactly the calls of `SubmitRun` and show its status and hash |
| Components.Session.Generate | src/assets/components/XRPLComponent.tsx:199-207 | with no client: only "Client not ready" and no call; otherwise one faucet call answered by this press's ledger, which on success replaces the wallet and shows address, seed and balance, and on failure shows the message and leaves the wallet |
| Scenarios.AcceptedRun | src/assets/components/XRPLComponent.tsx:121-142 | a positive decimal amount with any decimal offsets, against an accepting ledger: the four calls with the expected transaction, then "tesSUCCESS" |
| Scenarios.RejectedRun | src/assets/components/XRPLComponent.tsx:136-146 | the same form with a signer that throws an error carrying an engine result fails with that engine result |
| Scenarios.SignedIn | src/assets/components/XRPLComponent.tsx:23-77 | mounting and importing a valid seed gives a client, the wallet and two calls |
| Scenarios.SubmitAccepted | src/assets/components/XRPLComponent.tsx:121-142 | filling in the form and pressing submit against the accepting ledger shows "tesSUCCESS" and the hash |
| Scenarios.HappyPath | src/assets/components/XRPLComponent.tsx:23-142 | connect, import, submit: the six calls in order, with the transaction holding `now` plus each offset, whichever offset is larger |
| Scenarios.FailureClearsHash | src/assets/components/XRPLComponent.tsx:138-146 | after a successful escrow, a failed one shows the engine result and clears the hash |
| Scenarios.MissingWallet | src/assets/components/XRPLComponent.tsx:122 | with no wallet, "Init client & wallet" and no call after the connect, whatever the form holds |
| Scenarios.NegativeAmount | src/assets/components/XRPLComponent.tsx:123 | a negated amount shows "Enter valid amount" and makes no call |
| Scenarios.SeedAndDisconnect | src/assets/components/XRPLComponent.tsx:69-81 | with no wallet, a bad seed shows "Invalid seed" and keeps the typed text; a good seed then imports the wallet; disconnecting twice ends as disconnecting once |
| Scenarios.FaucetPresses | src/assets/components/XRPLComponent.tsx:199-207 | a press while the faucet is down shows its message and leaves the wallet; two later presses fund two wallets in turn, and the text shows the last one |
| Scenarios.FaucetBeforeConnect | src/assets/components/XRPLComponent.tsx:200 | the handler's guard: with no client, only "Client not ready" and no call; the app never renders the button in that state |

## Left out

- The `xrpl` library is not modelled: connection, key derivation from a seed, autofill, signing, submission, the faucet and `xrpToDrops`. Each is a caller-supplied function that returns a value or throws. Key derivation, signing and conversion are fixed for the whole session. What the ledger answers to autofill, submission and the faucet is passed to each handler, so it may change from one handler to the next.
- `Date.now()` and `Math.floor(.../1000)` become the parameter `now` of `Create`. The environment variable holding the endpoint URL becomes the parameter `url` of `Mount`.
- Js.ParseFloatClass: states only the sign class of `parseFloat`, not its value. Float underflow (a tiny positive literal that rounds to 0) and overflow (a huge literal that becomes Infinity) are not modelled. Exponent parts are not read, because they never change the sign.
- Js.ParseInt: integers are unbounded. Loss of precision beyond 2^53 is not modelled. Neither is the Infinity that JavaScript returns for a digit run longer than about 309 digits, nor the `+` of a very large offset. JavaScript's -0 (from "-0") is the integer 0 here; added to `now` it gives the same time.
- Js.DecimalString: matches JavaScript's printing of numbers only below 10^21. From 10^21 up, JavaScript prints exponent form ("1e+21"), which is not modelled.
- Xrpl.Funded: the faucet balance is a natural number. A fractional XRP balance and its JavaScript number formatting are not modelled.
- Components.Session.Generate: the transient "Generating..." status is overwritten before any observer can see it in the model, because the handler is modelled without interleaving.
- Asynchrony and React scheduling are not modelled. Two presses racing each other, state read by a press after another handler changed it, and re-renders between `await`s are all out of scope. Each handler runs to completion on the state it started with.
- Errors thrown as non-`Error` values (without `message` or `data`) are not modelled. Every throw is a `Failure` with a message and optional data.
- The mount effect's cleanup is left out. It calls `disconnect` on the `client` captured at the first render, which is null, so it has no effect.
- Rendering is left out: the JSX, CSS and explorer link, the `disabled` state of the buttons, the context check that throws outside the provider, the button component and the page composition in `src/assets/ui/button.tsx`, which is not part of this model, and `src/App.tsx`.
