/**
 The transaction extractor and the transaction handle of the App Engine
 backend (aedatastore/transaction.go).

 The goroutine and its three unbuffered channels are modelled by what they
 achieve: each rendezvous is one sequential state transition of the
 extractor, and the transitions are exactly those of `TxBridge.Step`.
 */
module Aedatastore {
  import opened Errors
  import opened TxBridge

  /**
   txExtractor: one per transaction. `txCtx` is the transaction-scoped
   context, set when the handle is delivered; `state` stands for the position
   of the background task; `rollbackErr` is this extractor's own sentinel.
   */
  class TxExtractor {
    var txCtx: Option<Context>
    var state: State
    const store: Primitive
    const rollbackErr: Error
    const toWrapper: Error -> Error
    /** How often `RunInTransaction` has entered the callback. */
    ghost var callbackRuns: nat

    function Model(): Bridge
    {
      Bridge(store, rollbackErr, toWrapper)
    }

    ghost predicate Valid()
      reads this
    {
      && Model().SentinelFresh()
      && callbackRuns <= Options.attempts
      && (state.Opening? ==> callbackRuns == 0 && txCtx == None)
      && (state.Open? ==> callbackRuns == 1 && store.startErr == null)
    }

    /** The allocation part of `newTxExtractor`, with the fresh sentinel. */
    constructor (store: Primitive, toWrapper: Error -> Error)
      ensures Valid() && state == Opening && txCtx == None
      ensures this.store == store && this.toWrapper == toWrapper
      ensures fresh(rollbackErr) && rollbackErr.message == "rollback requested"
    {
      var sentinel := new Error("rollback requested");
      this.store := store;
      this.toWrapper := toWrapper;
      this.rollbackErr := sentinel;
      txCtx := None;
      state := Opening;
      callbackRuns := 0;
    }

    /**
     The background task starts `RunInTransaction`; the first signal the
     foreground receives is the handle when the callback is entered, or else
     the task's outcome.
     */
    method Begin() returns (first: Startup)
      requires Valid() && state == Opening
      modifies this`state, this`callbackRuns
      ensures Valid() && state == Step(Model(), Opening, Start)
      ensures first.Handle? <==> store.startErr == null
      ensures first.Handle? ==> first.ctx == store.handle
      ensures first.Result? ==> state == Done(first.err) && callbackRuns == 0
    {
      if store.startErr == null {
        callbackRuns := callbackRuns + 1;
        state := Open;
        first := Handle(store.handle);
      } else {
        var out := Outcome(Model(), store.startErr);
        state := Done(out);
        first := Result(out);
      }
    }

    /**
     The callback resumes with what it read from the decision channel, returns
     its error to `RunInTransaction`, and the task sends the one outcome.
     */
    method Resume(rcv: Received) returns (out: Error?, ghost closedErr: Error?)
      requires Valid() && state == Open
      requires rcv.Sent? ==> rcv.result.commit || rcv.result.rollback
      modifies this`state
      ensures Valid() && state == Done(out)
      ensures rcv.Sent? ==> out == ResultOutcome(Model(), rcv.result)
      ensures rcv.Closed? <==> closedErr != null
      ensures rcv.Closed? ==>
        && fresh(closedErr) && closedErr.message == "channel closed"
        && Allowed(Model(), old(state), Abandon(closedErr))
        && state == Step(Model(), old(state), Abandon(closedErr))
        && out != null
    {
      var ret: Error?;
      closedErr := null;
      if rcv.Closed? {
        var made := new Error("channel closed");
        ret := made;
        closedErr := made;
      } else {
        ret := DecisionReturn(rcv.result, rollbackErr);
      }
      out := Outcome(Model(), RunResult(store, ret));
      state := Done(out);
    }

    /** commit(): the library's commit error, translated, or nil. */
    method Commit() returns (err: Error?)
      requires Valid() && state == Open
      modifies this`state
      ensures Valid() && state == Step(Model(), old(state), Decide(Decision.Commit))
      ensures state == Done(err)
      ensures err == ToWrapperError(toWrapper, store.commitErr)
    {
      ghost var closedErr;
      err, closedErr := Resume(Sent(Signal(Decision.Commit)));
    }

    /** rollback(): always nil, the sentinel having been swallowed. */
    method Rollback() returns (err: Error?)
      requires Valid() && state == Open
      modifies this`state
      ensures Valid() && state == Step(Model(), old(state), Decide(Decision.Rollback))
      ensures state == Done(err)
      ensures err == null
    {
      ghost var closedErr;
      err, closedErr := Resume(Sent(Signal(Decision.Rollback)));
    }
  }

  /** The first value the `select` in `newTxExtractor` receives. */
  datatype Startup = Handle(ctx: Context) | Result(err: Error?)

  /**
   newTxExtractor: either an open extractor holding the transaction-scoped
   context and a nil error, or no extractor and the startup error (translated
   by the task and once more here).
   */
  method NewTxExtractor(store: Primitive, toWrapper: Error -> Error) returns (ext: TxExtractor?, err: Error?)
    ensures store.startErr == null ==>
      && ext != null && fresh(ext) && err == null
      && ext.Valid() && ext.state == Open && ext.txCtx == Some(store.handle)
      && ext.store == store && ext.toWrapper == toWrapper && fresh(ext.rollbackErr)
    ensures store.startErr != null ==>
      ext == null && err == toWrapper(toWrapper(store.startErr))
  {
    var e := new TxExtractor(store, toWrapper);
    var first := e.Begin();
    match first
    case Handle(ctx) =>
      e.txCtx := Some(ctx);
      return e, null;
    case Result(out) =>
      if out == null {
        // panic("unexpected state"): a nil outcome cannot win the race
        assert false;
      }
      return null, ToWrapperError(toWrapper, out);
  }

  /** The object `Commit` returns on success; it resolves pending keys. */
  class CommitImpl {
    constructor ()
    {
    }
  }

  /**
   transactionImpl: the handle the caller drives. `ext` is the extractor
   `getTxExtractor` finds in the client's context, if any. The batch calls of
   the library are the oracles `getMulti`, `putMulti` and `deleteMulti`, given
   the transaction-scoped context and the keys.
   */
  class Transaction {
    const ext: TxExtractor?

    constructor (ext: TxExtractor?)
      ensures this.ext == ext
    {
      this.ext := ext;
    }

    method GetMulti(keys: seq<Key>, getMulti: (Context, seq<Key>) -> BatchError) returns (err: BatchError)
      requires ext != null && ext.txCtx.Some?
      ensures err == getMulti(ext.txCtx.value, keys)
    {
      err := getMulti(ext.txCtx.value, keys);
    }

    method Get(key: Key, getMulti: (Context, seq<Key>) -> BatchError) returns (err: Error?)
      requires ext != null && ext.txCtx.Some?
      requires getMulti(ext.txCtx.value, [key]).MultiError? ==> |getMulti(ext.txCtx.value, [key]).errs| > 0
      ensures err == SingleKeyError(getMulti(ext.txCtx.value, [key]))
    {
      var batch := GetMulti([key], getMulti);
      err := SingleKeyError(batch);
    }

    method PutMulti(keys: seq<Key>, putMulti: (Context, seq<Key>) -> PutReply)
      returns (pKeys: Option<seq<PendingKey>>, err: BatchError)
      requires ext != null && ext.txCtx.Some?
      ensures err == putMulti(ext.txCtx.value, keys).err
      ensures pKeys.Some? <==> err.NoError?
      ensures pKeys.Some? ==> pKeys.value == putMulti(ext.txCtx.value, keys).pKeys
    {
      var reply := putMulti(ext.txCtx.value, keys);
      if !reply.err.NoError? {
        return None, reply.err;
      }
      return Some(reply.pKeys), NoError;
    }

    method Put(key: Key, putMulti: (Context, seq<Key>) -> PutReply)
      returns (pKey: Option<PendingKey>, err: Error?)
      requires ext != null && ext.txCtx.Some?
      requires putMulti(ext.txCtx.value, [key]).err.MultiError? ==> |putMulti(ext.txCtx.value, [key]).err.errs| > 0
      requires putMulti(ext.txCtx.value, [key]).err.NoError? ==> |putMulti(ext.txCtx.value, [key]).pKeys| > 0
      ensures err == SingleKeyError(putMulti(ext.txCtx.value, [key]).err)
      ensures pKey.Some? <==> putMulti(ext.txCtx.value, [key]).err.NoError?
      ensures pKey.Some? ==> pKey.value == putMulti(ext.txCtx.value, [key]).pKeys[0]
    {
      var pKeys, batch := PutMulti([key], putMulti);
      if !batch.NoError? {
        return None, SingleKeyError(batch);
      }
      return Some(pKeys.value[0]), null;
    }

    method DeleteMulti(keys: seq<Key>, deleteMulti: (Context, seq<Key>) -> BatchError) returns (err: BatchError)
      requires ext != null && ext.txCtx.Some?
      ensures err == deleteMulti(ext.txCtx.value, keys)
    {
      err := deleteMulti(ext.txCtx.value, keys);
    }

    method Delete(key: Key, deleteMulti: (Context, seq<Key>) -> BatchError) returns (err: Error?)
      requires ext != null && ext.txCtx.Some?
      requires deleteMulti(ext.txCtx.value, [key]).MultiError? ==> |deleteMulti(ext.txCtx.value, [key]).errs| > 0
      ensures err == SingleKeyError(deleteMulti(ext.txCtx.value, [key]))
    {
      var batch := DeleteMulti([key], deleteMulti);
      err := SingleKeyError(batch);
    }

    /**
     Commit: a fresh commit object and nil exactly when the extractor's
     outcome is nil; otherwise no commit object and that outcome.
     */
    method Commit() returns (c: CommitImpl?, err: Error?)
      requires ext != null && ext.Valid() && ext.state == Open
      modifies ext`state
      ensures ext.Valid() && ext.state == Done(err)
      ensures err == ToWrapperError(ext.toWrapper, ext.store.commitErr)
      ensures (c != null) <==> err == null
      ensures c != null ==> fresh(c)
    {
      err := ext.Commit();
      if err != null {
        return null, err;
      }
      c := new CommitImpl();
    }

    /** Rollback: nil on a session that was open, though the library aborted. */
    method Rollback() returns (err: Error?)
      requires ext != null && ext.Valid() && ext.state == Open
      modifies ext`state
      ensures ext.Valid() && ext.state == Done(null)
      ensures err == null
    {
      err := ext.Rollback();
    }
  }
}
