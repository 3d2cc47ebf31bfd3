/**
 The branch-only logic of the App Engine transaction bridge, and the session
 state machine it implements.

 `datastore.RunInTransaction` accepts one callback and decides commit or abort
 from the callback's return value. The bridge parks inside that callback until
 the caller decides; this module says what each decision turns into, how the
 private rollback sentinel is swallowed, and which outcomes a session can reach.
 */
module TxBridge {
  import opened Errors

  datatype Option<T> = None | Some(value: T)

  /** The transaction-scoped context handed to the callback; opaque to the bridge. */
  datatype Context = Context(id: nat)

  /** The options the bridge passes to `RunInTransaction`. */
  datatype TransactionOptions = TransactionOptions(xg: bool, attempts: nat)

  /** Cross-group, and a single attempt: the callback is never replayed. */
  const Options: TransactionOptions := TransactionOptions(true, 1)

  /** What the caller decides: `Commit()` or `Rollback()`. */
  datatype Decision = Commit | Rollback

  /** The value sent on the decision channel: two flags, of which `commit()` and `rollback()` set exactly one. */
  datatype TxResult = TxResult(commit: bool, rollback: bool)

  /** What the parked callback receives from the decision channel. */
  datatype Received = Closed | Sent(result: TxResult)

  /** The value `commit()` or `rollback()` sends. */
  function Signal(d: Decision): (r: TxResult)
    ensures r.commit <==> d == Commit
    ensures r.rollback <==> d == Rollback
    ensures r.commit != r.rollback
  {
    match d
    case Commit => TxResult(true, false)
    case Rollback => TxResult(false, true)
  }

  /**
   The callback's return value once a decision has arrived: nil lets the
   library commit, the sentinel makes it abort. The commit flag is tested
   first; a value with neither flag would panic, which no sender produces.
   */
  function DecisionReturn(result: TxResult, rollbackErr: Error): (ret: Error?)
    requires result.commit || result.rollback
    ensures ret == null <==> result.commit
    ensures ret != null ==> ret == rollbackErr
  {
    if result.commit then null
    else if result.rollback then rollbackErr
    else assert false; null
  }

  /**
   The behaviour assumed of `datastore.RunInTransaction` run with `Options`:
   `startErr` is the error it returns when no transaction can be opened (the
   callback then never runs); otherwise the callback runs once with `handle`,
   an error it returns aborts the transaction and is returned as is, and a nil
   return is followed by the commit, which reports `commitErr` (nil, or for
   instance a concurrent-transaction conflict).
   */
  datatype Primitive = Primitive(handle: Context, startErr: Error?, commitErr: Error?)

  /** The error `RunInTransaction` returns once the callback has returned `ret`. */
  function RunResult(p: Primitive, ret: Error?): (err: Error?)
    requires p.startErr == null
    ensures ret != null ==> err == ret
    ensures ret == null ==> err == p.commitErr
  {
    if ret != null then ret else p.commitErr
  }

  /**
   Everything one extractor works with: the store it runs against, its own
   rollback sentinel, and the error translation.
   */
  datatype Bridge = Bridge(store: Primitive, rollbackErr: Error, toWrapper: Error -> Error)
  {
    /**
     The sentinel is allocated afresh by each extractor, after the store's
     errors exist, so none of them is identical to it.
     */
    predicate SentinelFresh()
    {
      store.startErr != rollbackErr && store.commitErr != rollbackErr
    }
  }

  /**
   What the background task sends on the result channel once
   `RunInTransaction` has returned `runErr`: the sentinel, compared by
   identity, becomes nil, and whatever remains is translated.
   */
  function Outcome(b: Bridge, runErr: Error?): (out: Error?)
    ensures out == null <==> runErr == null || runErr == b.rollbackErr
    ensures runErr != null && runErr != b.rollbackErr ==> out == b.toWrapper(runErr)
  {
    var err := if runErr == b.rollbackErr then null else runErr;
    ToWrapperError(b.toWrapper, err)
  }

  /**
   The outcome of a session whose callback received `result`: a rollback is
   reported as nil although the library aborted; a commit reports the
   library's own commit error, translated.
   */
  function ResultOutcome(b: Bridge, result: TxResult): (out: Error?)
    requires b.store.startErr == null
    requires result.commit || result.rollback
    ensures !result.commit ==> out == null
    ensures result.commit && b.SentinelFresh() ==> out == ToWrapperError(b.toWrapper, b.store.commitErr)
  {
    Outcome(b, RunResult(b.store, DecisionReturn(result, b.rollbackErr)))
  }

  /**
   The outcome of a session whose decision channel was closed: the callback
   returns its own "channel closed" error, which is not the sentinel and so
   reaches the caller, translated.
   */
  function ClosedOutcome(b: Bridge, closedErr: Error): (out: Error?)
    requires b.store.startErr == null
    requires closedErr != b.rollbackErr
    ensures out != null && out == b.toWrapper(closedErr)
  {
    Outcome(b, RunResult(b.store, closedErr))
  }

  /**
   Only the sentinel itself is swallowed: an error with the same text, made
   by another `errors.New`, surfaces like any other error.
   */
  method SameTextIsNotTheSentinel(b: Bridge) returns (lookalike: Error, out: Error?)
    ensures lookalike.message == b.rollbackErr.message
    ensures out == Outcome(b, lookalike)
    ensures out != null && out == b.toWrapper(lookalike)
  {
    lookalike := new Error(b.rollbackErr.message);
    out := Outcome(b, lookalike);
  }

  // ---------------------------------------------------------------------------
  // The session as a state machine
  // ---------------------------------------------------------------------------

  /**
   An extractor is `Opening` while `newTxExtractor` waits for the first
   signal, `Open` once the handle has been delivered, and `Done` once the
   background task has sent its one outcome.
   */
  datatype State = Opening | Open | Done(outcome: Error?)

  /**
   `Start` launches `RunInTransaction`; `Forward` is a `Get`/`Put`/`Delete`
   sent straight to the transaction-scoped context; `Decide` is `commit()` or
   `rollback()`; `Abandon` is the decision channel found closed, with the
   "channel closed" error the callback then makes.
   */
  datatype Event = Start | Forward | Decide(d: Decision) | Abandon(closedErr: Error)

  /**
   Which events can happen in which state. Nothing reaches an extractor that
   is still opening; a decision is only ever sent to an open session (a second
   one would block forever on the unbuffered send), and only an open session's
   callback can find the channel closed, with an error it has just made.
   Forwarded operations are not guarded by the bridge at all.
   */
  predicate Allowed(b: Bridge, s: State, ev: Event)
  {
    match ev
    case Start => s.Opening?
    case Forward => !s.Opening?
    case Decide(_) => s.Open? && b.store.startErr == null
    case Abandon(closedErr) => s.Open? && b.store.startErr == null && closedErr != b.rollbackErr
  }

  function Step(b: Bridge, s: State, ev: Event): (t: State)
    requires Allowed(b, s, ev)
  {
    match ev
    case Start => if b.store.startErr == null then Open else Done(Outcome(b, b.store.startErr))
    case Forward => s
    case Decide(d) => Done(ResultOutcome(b, Signal(d)))
    case Abandon(closedErr) => Done(ClosedOutcome(b, closedErr))
  }

  predicate AllowedTrace(b: Bridge, s: State, evs: seq<Event>)
    decreases |evs|
  {
    |evs| == 0 || (Allowed(b, s, evs[0]) && AllowedTrace(b, Step(b, s, evs[0]), evs[1..]))
  }

  function Run(b: Bridge, s: State, evs: seq<Event>): (t: State)
    requires AllowedTrace(b, s, evs)
    decreases |evs|
  {
    if |evs| == 0 then s else Run(b, Step(b, s, evs[0]), evs[1..])
  }

  function Starts(evs: seq<Event>): (n: nat)
  {
    if |evs| == 0 then 0 else (if evs[0].Start? then 1 else 0) + Starts(evs[1..])
  }

  /** The events that end an open session: a decision, or the closed channel. */
  function Finishes(evs: seq<Event>): (n: nat)
  {
    if |evs| == 0 then 0 else (if evs[0].Decide? || evs[0].Abandon? then 1 else 0) + Finishes(evs[1..])
  }

  function FirstFinish(evs: seq<Event>): (ev: Event)
    requires Finishes(evs) > 0
  {
    if evs[0].Decide? || evs[0].Abandon? then evs[0] else FirstFinish(evs[1..])
  }

  /** A finished session accepts no decision and no event changes its outcome. */
  lemma {:induction false} FinishedSessionIsFinal(b: Bridge, s: State, evs: seq<Event>)
    requires s.Done? && AllowedTrace(b, s, evs)
    ensures Starts(evs) == 0 && Finishes(evs) == 0
    ensures Run(b, s, evs) == s
  {
    if |evs| > 0 {
      FinishedSessionIsFinal(b, Step(b, s, evs[0]), evs[1..]);
    }
  }

  /**
   An open session is ended at most once, by a decision or by the closed
   channel; until then it stays open whatever operations are forwarded (an
   operation's error does not end it), and the ending event fixes its outcome.
   */
  lemma {:induction false} OpenSessionFinishesOnce(b: Bridge, evs: seq<Event>)
    requires b.store.startErr == null && AllowedTrace(b, Open, evs)
    ensures Starts(evs) == 0 && Finishes(evs) <= 1
    ensures Finishes(evs) == 0 ==> Run(b, Open, evs) == Open
    ensures Finishes(evs) == 1 ==>
      Allowed(b, Open, FirstFinish(evs)) && Run(b, Open, evs) == Step(b, Open, FirstFinish(evs))
  {
    if |evs| > 0 {
      if evs[0].Forward? {
        OpenSessionFinishesOnce(b, evs[1..]);
      } else {
        FinishedSessionIsFinal(b, Step(b, Open, evs[0]), evs[1..]);
      }
    }
  }

  /**
   The whole life of an extractor: it starts exactly once; if the store cannot
   open a transaction it is done at once with a non-nil outcome and never
   takes a decision; otherwise it is open until its one ending event and then
   done with that event's outcome.
   */
  lemma SessionLifecycle(b: Bridge, evs: seq<Event>)
    requires b.SentinelFresh() && AllowedTrace(b, Opening, evs) && |evs| > 0
    ensures evs[0] == Start && Starts(evs) == 1 && Finishes(evs) <= 1
    ensures b.store.startErr != null ==>
      Finishes(evs) == 0 && Run(b, Opening, evs) == Done(b.toWrapper(b.store.startErr))
    ensures b.store.startErr == null && Finishes(evs) == 0 ==> Run(b, Opening, evs) == Open
    ensures b.store.startErr == null && Finishes(evs) == 1 ==>
      Allowed(b, Open, FirstFinish(evs)) && Run(b, Opening, evs) == Step(b, Open, FirstFinish(evs))
  {
    if b.store.startErr == null {
      OpenSessionFinishesOnce(b, evs[1..]);
    } else {
      FinishedSessionIsFinal(b, Step(b, Opening, evs[0]), evs[1..]);
    }
  }

  /** A session that is rolled back reports no error, although the library aborted it. */
  lemma RolledBackSessionReportsNil(b: Bridge, evs: seq<Event>)
    requires b.SentinelFresh() && AllowedTrace(b, Opening, evs) && |evs| > 0
    requires Finishes(evs) == 1 && FirstFinish(evs) == Decide(Rollback)
    ensures b.store.startErr == null
    ensures Run(b, Opening, evs) == Done(null)
  {
    SessionLifecycle(b, evs);
  }

  /**
   A committed session reports nil exactly when the library's commit
   succeeded, and otherwise that commit error, translated: a conflict is never
   mistaken for the sentinel.
   */
  lemma CommittedSessionReportsCommitError(b: Bridge, evs: seq<Event>)
    requires b.SentinelFresh() && AllowedTrace(b, Opening, evs) && |evs| > 0
    requires Finishes(evs) == 1 && FirstFinish(evs) == Decide(Commit)
    ensures b.store.startErr == null
    ensures Run(b, Opening, evs) == Done(ToWrapperError(b.toWrapper, b.store.commitErr))
    ensures Run(b, Opening, evs).outcome == null <==> b.store.commitErr == null
  {
    SessionLifecycle(b, evs);
  }

  /**
   A session whose decision channel was found closed reports the callback's
   "channel closed" error, translated, whatever the commit would have done.
   */
  lemma AbandonedSessionReportsFailure(b: Bridge, evs: seq<Event>)
    requires b.SentinelFresh() && AllowedTrace(b, Opening, evs) && |evs| > 0
    requires Finishes(evs) == 1 && FirstFinish(evs).Abandon?
    ensures b.store.startErr == null
    ensures Run(b, Opening, evs) == Done(b.toWrapper(FirstFinish(evs).closedErr))
    ensures Run(b, Opening, evs).outcome != null
  {
    SessionLifecycle(b, evs);
  }

  // ---------------------------------------------------------------------------
  // Single-key wrappers over the batch calls
  // ---------------------------------------------------------------------------

  /** A key, and the placeholder key a `Put` inside a transaction returns. */
  datatype Key = Key(id: nat)
  datatype PendingKey = PendingKey(id: nat)

  /**
   The error a batch call returns, by its dynamic type: nil, a `MultiError`
   holding one entry per key, or any other error.
   */
  datatype BatchError = NoError | MultiError(errs: seq<Error?>) | Other(err: Error)

  /** What `PutMulti` receives from the library: pending keys, and an error. */
  datatype PutReply = PutReply(pKeys: seq<PendingKey>, err: BatchError)

  /**
   The error a single-key wrapper returns for a one-key batch call: a
   `MultiError` collapses to its element 0, any other error passes through
   unchanged, and success is nil.
   */
  function SingleKeyError(e: BatchError): (r: Error?)
    requires e.MultiError? ==> |e.errs| > 0
    ensures e.NoError? ==> r == null
    ensures e.MultiError? ==> r == e.errs[0]
    ensures e.Other? ==> r == e.err
  {
    if e.MultiError? then e.errs[0]
    else if e.Other? then e.err
    else null
  }
}
