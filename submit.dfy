/**
 * Reliable transaction submission: deciding whether a transaction must be
 * signed, building the `submit` request, and polling the ledger until the
 * transaction's fate is final.
 *
 * The network, the binary codec, the wallet and autofill are not modelled:
 * what they answer is passed in. A round of the finality poll is one
 * `Observation` (the latest ledger index and the answer to the `tx` query),
 * and a run of the poll consumes a finite trace of them; a trace that runs
 * out before the outcome is decided leaves the poll `Polling`.
 */
module Submit {
  import opened Wrappers
  import RequestTable

  /** The transaction fields submission reads or writes; the rest are not modelled. */
  datatype Transaction = Transaction(
    transactionType: string,
    account: string,
    sequence: Option<int>,
    lastLedgerSequence: Option<int>,
    signingPubKey: Option<string>,
    txnSignature: Option<string>)

  /**
   * `Transaction | string`. A `Blob` is a binary-encoded transaction, held as
   * the JSON it decodes to: the codec is taken to round-trip.
   */
  datatype TxInput = Json(json: Transaction) | Blob(blob: Transaction)

  datatype Wallet = Wallet(publicKey: string)

  /** The `opts` of submit: each field may be absent. */
  datatype Options = Options(autofill: Option<bool>, failHard: Option<bool>, wallet: Option<Wallet>)

  datatype Invalid =
    | NotSigned              // submitRequest on an unsigned transaction
    | NoWallet               // an unsigned transaction and no wallet to sign it
    | NoLastLedgerSequence   // reliable submission of a transaction without a horizon

  datatype SubmitError =
    | ValidationError(reason: Invalid)
    | LedgerExpired(lastLedger: int, latestLedger: int, preliminary: string)
    | QueryFailed(code: Option<string>, preliminary: string)
    | RequestFailed(cause: RequestTable.Error)   // the submit request itself was rejected
    | AutofillFailed(message: string)            // client.autofill rejected

  /** The wire request `{command: 'submit', tx_blob, fail_hard}`. */
  datatype SubmitCommand = SubmitCommand(txBlob: TxInput, failHard: bool)

  /** The acknowledgement of a submit request: the preliminary engine result. */
  datatype SubmitResponse = SubmitResponse(engineResult: string)

  /** The answer to a `tx` query, as far as the poll and the batch read it. */
  datatype TxResponse = TxResponse(validated: bool, sequence: Option<int>)

  /** One round of the poll: what getLedgerIndex returned and how the `tx` request settled. */
  datatype Observation = Observation(latestLedger: int, query: Result<TxResponse, RequestTable.Error>)

  /** The fate of a transaction after waiting: final, failed, or not yet decided when the trace ran out. */
  datatype Final = Validated(response: TxResponse) | Failed(error: SubmitError) | Polling

  /** A finished poll: its outcome, the rounds it took and the `tx` queries it issued. */
  datatype Wait = Wait(outcome: Final, rounds: nat, queries: nat)

  const TxnNotFound: string := "txnNotFound"

  function Decode(input: TxInput): Transaction
  {
    match input
    case Json(tx) => tx
    case Blob(tx) => tx
  }

  function Encode(tx: Transaction): (blob: TxInput)
    ensures blob.Blob? && Decode(blob) == tx
  {
    Blob(tx)
  }

  /** A transaction counts as signed when it carries a signing key or a signature, even an empty one. */
  predicate IsSigned(input: TxInput)
  {
    var tx := Decode(input);
    tx.signingPubKey.Some? || tx.txnSignature.Some?
  }

  predicate IsAccountDelete(input: TxInput)
  {
    Decode(input).transactionType == "AccountDelete"
  }

  /** The horizon of a transaction; 0 is a horizon like any other, only an absent field is missing. */
  function GetLastLedgerSequence(input: TxInput): Option<int>
  {
    Decode(input).lastLedgerSequence
  }

  /** What wallet.sign does to a transaction: attach the wallet's key and a signature, then encode. */
  function Sign(wallet: Wallet, tx: Transaction, signature: (Wallet, Transaction) -> string): (blob: TxInput)
    ensures IsSigned(blob)
    ensures var signed := Decode(blob);
            signed == tx.(signingPubKey := signed.signingPubKey, txnSignature := signed.txnSignature)
  {
    Encode(tx.(signingPubKey := Some(wallet.publicKey), txnSignature := Some(signature(wallet, tx))))
  }

  /**
   * The transaction to submit: a signed one as it is; otherwise, given a
   * wallet, the (by default autofilled) transaction signed by it. A rejected
   * autofill fails the call.
   */
  function GetSignedTx(input: TxInput, opts: Options, autofill: Transaction -> Result<Transaction, string>,
                       signature: (Wallet, Transaction) -> string): (r: Result<TxInput, SubmitError>)
    ensures IsSigned(input) ==> r == Success(input)
    ensures !IsSigned(input) && opts.wallet.None? ==> r == Failure(ValidationError(NoWallet))
    ensures !IsSigned(input) && opts.wallet.Some? ==>
              var wallet := opts.wallet.value;
              var filled := if opts.autofill.GetOr(true) then autofill(Decode(input)) else Success(Decode(input));
              && (filled.Failure? ==> r == Failure(AutofillFailed(filled.error)))
              && (filled.Success? ==>
                    r.Success? &&
                    Decode(r.value) == filled.value.(signingPubKey := Some(wallet.publicKey),
                                                     txnSignature := Some(signature(wallet, filled.value))))
    ensures r.Success? ==> IsSigned(r.value)
  {
    if IsSigned(input) then Success(input)
    else match opts.wallet
      case None => Failure(ValidationError(NoWallet))
      case Some(wallet) =>
        var tx := Decode(input);
        var filled := if opts.autofill.GetOr(true) then autofill(tx) else Success(tx);
        match filled
        case Failure(reason) => Failure(AutofillFailed(reason))
        case Success(tx') => Success(Sign(wallet, tx', signature))
  }

  /** Encode a signed transaction into a submit request; an unsigned one is refused. */
  function SubmitRequest(signed: TxInput, failHard: Option<bool>): (r: Result<SubmitCommand, SubmitError>)
    ensures r.Failure? <==> !IsSigned(signed)
    ensures r.Failure? ==> r.error == ValidationError(NotSigned)
    ensures r.Success? ==> r.value.txBlob.Blob? && Decode(r.value.txBlob) == Decode(signed)
    ensures r.Success? ==> (r.value.failHard <==> IsAccountDelete(signed) || failHard == Some(true))
  {
    if !IsSigned(signed) then Failure(ValidationError(NotSigned))
    else
      var blob := match signed
        case Blob(_) => signed
        case Json(tx) => Encode(tx);
      Success(SubmitCommand(blob, IsAccountDelete(signed) || failHard.GetOr(false)))
  }

  /**
   * `error?.data?.error`: the `error` field of the response an error was
   * built around. Only the errors that carry a response have one; the data
   * of the others (a request, or none) has no `error` field in this model.
   */
  function ErrorCode(e: RequestTable.Error): (code: Option<string>)
    ensures e.Rippled? || e.UnrecognizedStatus? || e.InvalidResponseId? ==> code == e.response.error
    ensures code.Some? ==> e.Rippled? || e.UnrecognizedStatus? || e.InvalidResponseId?
  {
    match e
    case Rippled(_, response) => response.error
    case UnrecognizedStatus(_, response) => response.error
    case InvalidResponseId(response) => response.error
    case _ => None
  }

  /**
   * The verdict of one poll round on its own: the transaction has expired,
   * the query failed for good, the transaction is validated, or (None) ask again.
   */
  function Verdict(lastLedger: int, preliminary: string, o: Observation): (v: Option<Final>)
    ensures v != Some(Polling)
    ensures v.None? <==>
              && o.latestLedger <= lastLedger
              && (o.query.Success? ==> !o.query.value.validated)
              && (o.query.Failure? ==> ErrorCode(o.query.error) == Some(TxnNotFound))
    ensures v.Some? && v.value.Validated? ==> o.query == Success(v.value.response) && v.value.response.validated
    ensures lastLedger < o.latestLedger ==> v == Some(Failed(LedgerExpired(lastLedger, o.latestLedger, preliminary)))
  {
    if lastLedger < o.latestLedger then Some(Failed(LedgerExpired(lastLedger, o.latestLedger, preliminary)))
    else if o.query.Success? then
      if o.query.value.validated then Some(Validated(o.query.value)) else None
    else if ErrorCode(o.query.error) == Some(TxnNotFound) then None
    else Some(Failed(QueryFailed(ErrorCode(o.query.error), preliminary)))
  }

  /** No round among the first `n` of the trace decides anything. */
  ghost predicate Undecided(lastLedger: int, preliminary: string, trace: seq<Observation>, n: nat)
    requires n <= |trace|
  {
    forall i :: 0 <= i < n ==> Verdict(lastLedger, preliminary, trace[i]).None?
  }

  /**
   * waitForFinalTransactionOutcome: sleep, read the latest ledger, give up
   * once it is past the horizon, otherwise query the transaction and either
   * return it (validated), fail (an error other than txnNotFound) or go round
   * again. The outcome is that of the first round that decides anything.
   */
  function WaitForFinalTransactionOutcome(lastLedger: int, preliminary: string, trace: seq<Observation>): (w: Wait)
    ensures w.rounds <= |trace|
    ensures w.outcome.Polling? <==> w.rounds == |trace| && Undecided(lastLedger, preliminary, trace, |trace|)
    ensures !w.outcome.Polling? ==>
              1 <= w.rounds && Undecided(lastLedger, preliminary, trace, w.rounds - 1) &&
              Verdict(lastLedger, preliminary, trace[w.rounds - 1]) == Some(w.outcome)
    ensures w.queries == if w.outcome.Failed? && w.outcome.error.LedgerExpired? then w.rounds - 1 else w.rounds
    decreases |trace|
  {
    if |trace| == 0 then Wait(Polling, 0, 0)
    else
      var latestLedger := trace[0].latestLedger;
      if lastLedger < latestLedger then
        Wait(Failed(LedgerExpired(lastLedger, latestLedger, preliminary)), 1, 0)
      else match trace[0].query
        case Failure(e) =>
          if ErrorCode(e) == Some(TxnNotFound) then
            Again(WaitForFinalTransactionOutcome(lastLedger, preliminary, trace[1..]))
          else Wait(Failed(QueryFailed(ErrorCode(e), preliminary)), 1, 1)
        case Success(response) =>
          if response.validated then Wait(Validated(response), 1, 1)
          else Again(WaitForFinalTransactionOutcome(lastLedger, preliminary, trace[1..]))
  }

  /** A poll that went one round (and one query) further before the given one. */
  function Again(w: Wait): Wait
  {
    Wait(w.outcome, w.rounds + 1, w.queries + 1)
  }

  /** What the network and the foreign collaborators answer to one submission. */
  datatype Network = Network(
    autofill: Transaction -> Result<Transaction, string>,
    signature: (Wallet, Transaction) -> string,
    submitReply: Result<SubmitResponse, RequestTable.Error>,
    trace: seq<Observation>)

  /** A reliable submission: the submit request sent, if any, and the transaction's fate. */
  datatype Attempt = Attempt(sent: Option<SubmitCommand>, outcome: Final)

  /** submit: sign if needed, send the submit request, return its acknowledgement. */
  function SubmitOnce(input: TxInput, opts: Options, net: Network): (r: (Option<SubmitCommand>, Result<SubmitResponse, SubmitError>))
    ensures var g := GetSignedTx(input, opts, net.autofill, net.signature);
            && (g.Failure? ==> r == (None, Failure(g.error)))
            && (g.Success? ==> r.0 == Some(SubmitRequest(g.value, opts.failHard).value))
    ensures r.0.Some? ==> IsSigned(r.0.value.txBlob)
    ensures r.0.Some? ==> (r.0.value.failHard <==> IsAccountDelete(r.0.value.txBlob) || opts.failHard == Some(true))
    ensures r.0.Some? && IsSigned(input) ==> Decode(r.0.value.txBlob) == Decode(input)
    ensures r.0.Some? ==> (r.1.Success? <==> net.submitReply.Success?)
    ensures r.1.Success? ==> r.0.Some? && net.submitReply == Success(r.1.value)
    ensures r.0.Some? && net.submitReply.Failure? ==> r.1 == Failure(RequestFailed(net.submitReply.error))
    ensures !IsSigned(input) && opts.wallet.None? ==> r == (None, Failure(ValidationError(NoWallet)))
  {
    match GetSignedTx(input, opts, net.autofill, net.signature)
    case Failure(e) => (None, Failure(e))
    case Success(signed) =>
      match SubmitRequest(signed, opts.failHard)
      case Failure(e) => (None, Failure(e))
      case Success(command) =>
        match net.submitReply
        case Failure(e) => (Some(command), Failure(RequestFailed(e)))
        case Success(response) => (Some(command), Success(response))
  }

  /**
   * submitAndWaitHelper: sign if needed, insist on a horizon, submit, then
   * wait for the outcome with the submit request's engine result as the
   * preliminary result.
   */
  function SubmitAndWaitHelper(input: TxInput, opts: Options, net: Network): (a: Attempt)
    ensures var g := GetSignedTx(input, opts, net.autofill, net.signature);
            && (g.Failure? ==> a == Attempt(None, Failed(g.error)))
            && (g.Success? && GetLastLedgerSequence(g.value).None? ==>
                  a == Attempt(None, Failed(ValidationError(NoLastLedgerSequence))))
            && (g.Success? && GetLastLedgerSequence(g.value).Some? ==>
                  && a.sent == Some(SubmitRequest(g.value, opts.failHard).value)
                  && (net.submitReply.Failure? ==> a.outcome == Failed(RequestFailed(net.submitReply.error)))
                  && (net.submitReply.Success? ==>
                        a.outcome == WaitForFinalTransactionOutcome(GetLastLedgerSequence(g.value).value,
                                                                    net.submitReply.value.engineResult,
                                                                    net.trace).outcome))
    ensures a.sent.Some? ==> IsSigned(a.sent.value.txBlob) &&
                             GetLastLedgerSequence(a.sent.value.txBlob).Some?
    ensures a.outcome.Validated? ==> a.sent.Some? && a.outcome.response.validated
    ensures a.outcome != Failed(ValidationError(NotSigned))
    ensures !IsSigned(input) && opts.wallet.None? ==> a == Attempt(None, Failed(ValidationError(NoWallet)))
    ensures IsSigned(input) && GetLastLedgerSequence(input).None? ==>
              a == Attempt(None, Failed(ValidationError(NoLastLedgerSequence)))
  {
    match GetSignedTx(input, opts, net.autofill, net.signature)
    case Failure(e) => Attempt(None, Failed(e))
    case Success(signed) =>
      match GetLastLedgerSequence(signed)
      case None => Attempt(None, Failed(ValidationError(NoLastLedgerSequence)))
      case Some(lastLedger) =>
        match SubmitRequest(signed, opts.failHard)
        case Failure(e) => Attempt(None, Failed(e))
        case Success(command) =>
          match net.submitReply
          case Failure(e) => Attempt(Some(command), Failed(RequestFailed(e)))
          case Success(response) =>
            var w := WaitForFinalTransactionOutcome(lastLedger, response.engineResult, net.trace);
            Attempt(Some(command), w.outcome)
  }

  /** `autofill` is on unless the caller turns it off. */
  lemma AutofillDefaultsToTrue(input: TxInput, opts: Options, autofill: Transaction -> Result<Transaction, string>,
                               signature: (Wallet, Transaction) -> string)
    ensures GetSignedTx(input, opts.(autofill := None), autofill, signature)
         == GetSignedTx(input, opts.(autofill := Some(true)), autofill, signature)
    ensures GetSignedTx(input, opts.(autofill := Some(false)), autofill, signature)
         == GetSignedTx(input, opts.(autofill := Some(false)), x => Success(x), signature)
  {
  }

  /** One round of the poll is decided by its verdict alone; without one, the poll goes round again. */
  lemma PollRound(lastLedger: int, preliminary: string, trace: seq<Observation>)
    requires |trace| > 0
    ensures var w := WaitForFinalTransactionOutcome(lastLedger, preliminary, trace);
            match Verdict(lastLedger, preliminary, trace[0])
            case None => w == Again(WaitForFinalTransactionOutcome(lastLedger, preliminary, trace[1..]))
            case Some(f) => w == Wait(f, 1, if lastLedger < trace[0].latestLedger then 0 else 1)
  {
  }

  /** A decided poll never looks past its deciding round; an undecided one carries on where it stopped. */
  lemma {:induction false} PollIsPrefixClosed(lastLedger: int, preliminary: string, trace: seq<Observation>, more: seq<Observation>)
    ensures var w := WaitForFinalTransactionOutcome(lastLedger, preliminary, trace);
            var w' := WaitForFinalTransactionOutcome(lastLedger, preliminary, trace + more);
            var later := WaitForFinalTransactionOutcome(lastLedger, preliminary, more);
            (!w.outcome.Polling? ==> w' == w) &&
            (w.outcome.Polling? ==> w' == Wait(later.outcome, w.rounds + later.rounds, w.queries + later.queries))
    decreases |trace|
  {
    if |trace| == 0 {
      assert trace + more == more;
    } else {
      var whole := trace + more;
      assert whole[0] == trace[0];
      assert whole[1..] == trace[1..] + more;
      PollRound(lastLedger, preliminary, trace);
      PollRound(lastLedger, preliminary, whole);
      if Verdict(lastLedger, preliminary, trace[0]).None? {
        PollIsPrefixClosed(lastLedger, preliminary, trace[1..], more);
      }
    }
  }

  /** Once the trace shows a ledger past the horizon, the poll has ended by that round. */
  lemma HorizonEndsPoll(lastLedger: int, preliminary: string, trace: seq<Observation>, i: nat)
    requires i < |trace| && lastLedger < trace[i].latestLedger
    ensures var w := WaitForFinalTransactionOutcome(lastLedger, preliminary, trace);
            !w.outcome.Polling? && w.rounds <= i + 1
  {
    var w := WaitForFinalTransactionOutcome(lastLedger, preliminary, trace);
    assert Verdict(lastLedger, preliminary, trace[i]).Some?;
  }
}
