/** What an operation of the front-end does to the outside world, in order:
    handing a transaction to the signer, reading the ledger, waiting, passing
    effects to the wallet, and toggling a form's loading flag. The model's
    operations return such a log, so that ordering and "at most once" claims
    can be stated about it. */
module Events {
  import Tx

  /** The finalized effects record the ledger returns for a digest; only
      passed along, never inspected. */
  datatype Effects = Effects(status: string, changedObjects: seq<string>)

  /** `{ digest }`: what the signer returns once the transaction is submitted. */
  datatype Submission = Submission(digest: string)

  /** How a form's submit handler ended: it returned early without doing
      anything, or it showed the success alert, or it caught an error and
      showed the failure alert (the error's message is kept). */
  datatype SubmitOutcome = Ignored | Succeeded | Failed(error: string)

  datatype EventKind = SignKind | FetchKind | WaitKind | ReportKind | LoadingKind

  datatype Event =
    | Signed(tx: Tx.TxData)          // the signing function was called with this transaction
    | FetchAttempt(digest: string)   // one `getTransactionBlock` read
    | Waited(ms: nat)                // one back-off delay
    | Reported(effects: Effects)     // `reportTransactionEffects` was called
    | LoadingSet(on: bool)           // a form's `setIsLoading`
  {
    function Kind(): EventKind {
      match this
      case Signed(_) => SignKind
      case FetchAttempt(_) => FetchKind
      case Waited(_) => WaitKind
      case Reported(_) => ReportKind
      case LoadingSet(_) => LoadingKind
    }
  }

  /** How many events of kind `k` the log holds. */
  function CountKind(log: seq<Event>, k: EventKind): nat
  {
    if |log| == 0 then 0
    else CountKind(log[..|log| - 1], k) + (if log[|log| - 1].Kind() == k then 1 else 0)
  }

  lemma {:induction false} CountKindAppend(a: seq<Event>, b: seq<Event>, k: EventKind)
    ensures CountKind(a + b, k) == CountKind(a, k) + CountKind(b, k)
  {
    if |b| == 0 {
      assert a + b == a;
    } else {
      assert (a + b)[..|a + b| - 1] == a + b[..|b| - 1];
      CountKindAppend(a, b[..|b| - 1], k);
    }
  }

  lemma CountKindOne(e: Event, k: EventKind)
    ensures CountKind([e], k) == if e.Kind() == k then 1 else 0
  {
    assert [e][..0] == [];
  }

  /** The delays of the log's `Waited` events, in order. */
  function WaitsOf(log: seq<Event>): seq<nat>
  {
    if |log| == 0 then []
    else WaitsOf(log[..|log| - 1]) + (if log[|log| - 1].Waited? then [log[|log| - 1].ms] else [])
  }

  lemma {:induction false} WaitsOfAppend(a: seq<Event>, b: seq<Event>)
    ensures WaitsOf(a + b) == WaitsOf(a) + WaitsOf(b)
  {
    if |b| == 0 {
      assert a + b == a;
    } else {
      assert (a + b)[..|a + b| - 1] == a + b[..|b| - 1];
      WaitsOfAppend(a, b[..|b| - 1]);
    }
  }

  lemma WaitsOfOne(e: Event)
    ensures WaitsOf([e]) == if e.Waited? then [e.ms] else []
  {
    assert [e][..0] == [];
  }
}
