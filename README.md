# Transaction bridge of the App Engine datastore backend

The App Engine datastore library exposes a transaction only as
`RunInTransaction(ctx, callback, options)`. The callback receives a
transaction-scoped context and decides commit or abort by the error it returns.
The wrapper API, however, hands out a transaction handle that the caller drives
explicitly: `Get`/`Put`/`Delete` any number of times, then exactly one of
`Commit` or `Rollback`. `aedatastore/transaction.go` bridges the two. A
goroutine runs `RunInTransaction` and parks inside the callback after handing
the context to the foreground. It waits there for the decision, returns nil for
a commit or a private "rollback requested" sentinel for a rollback, and then
sends the library's final error back. Along the way the sentinel is turned back
into nil, and every other error is translated.

This project models that bridge in Dafny:

- `errors.dfy` (module `Errors`): Go error values. They compare by identity, so
  an error is an object, and nil is `null`. It also defines the error
  translation `ToWrapperError`, whose mapping is a parameter.
- `tx_bridge.dfy` (module `TxBridge`): the branch-only logic.
  - What a decision becomes as the callback's return value.
  - How the sentinel is swallowed.
  - What a commit, a rollback or a closed decision channel finally reports.
  - The `MultiError` collapse of the single-key wrappers.
  - The session as a state machine (`Opening`, `Open`, `Done(outcome)`), with
    lemmas over every sequence of events a session can see. A session ends by
    a decision or by its callback finding the decision channel closed.
- `transaction.dfy` (module `Aedatastore`):
  - `TxExtractor`, a class whose `state` field replaces the goroutine and its
    channels. Each rendezvous is one method call, proved to make exactly the
    transition of `TxBridge.Step`.
  - `NewTxExtractor`.
  - `Transaction`, the caller's handle.

Modelling choices:

- **`RunInTransaction`** is a `Primitive` value. It holds the context the
  callback receives, the error returned when no transaction can be opened
  (`startErr`), and the error of the commit that follows a nil callback return
  (`commitErr`, for example a concurrent-transaction conflict). The bridge
  calls it with `XG: true, Attempts: 1`. The constant `TxBridge.Options` only
  records those options: the oracle's behaviour is written for them, not
  computed from them. A non-nil callback error aborts and is returned as is,
  and `Options.attempts` bounds the ghost count of callback runs.
- **The rollback sentinel** is allocated by the `TxExtractor` constructor. Each
  extractor therefore has its own sentinel, distinct from every error the
  store produces (`Bridge.SentinelFresh`, part of `TxExtractor.Valid`).
- **The race in `newTxExtractor`** between the handle and the outcome is
  deterministic in the model. The handle is sent first thing in the callback,
  and the outcome only after `RunInTransaction` returns. So the handle wins
  exactly when the callback is entered, and an outcome that wins is a startup
  error, which is never nil.
- **The batch calls** `GetMulti`/`PutMulti`/`DeleteMulti` of the library, with
  the key conversion around them, are oracle parameters. Each is a function of
  the transaction-scoped context and the keys.
- **`getTxExtractor`** is modelled as the optional field `Transaction.ext`.

## Model

| member | source | states |
|---|---|---|
| `TxBridge.Signal` | aedatastore/transaction.go:206-213 | `commit()` sends a value with only the commit flag set, and `rollback()` sends one with only the rollback flag set. |
| `TxBridge.DecisionReturn` | aedatastore/transaction.go:54-60 | The callback returns nil exactly when the commit flag is set; otherwise it returns this extractor's sentinel. A value with neither flag is excluded. |
| `TxBridge.RunResult` | aedatastore/transaction.go:45-62 | This is the assumed behaviour of `RunInTransaction` with `Attempts: 1`. A callback error is returned as is. A nil callback return yields the commit's own error. |
| `TxBridge.Outcome` | aedatastore/transaction.go:63-67 | The task reports nil exactly when the library returned nil or the very sentinel, compared by identity. Every other error is reported translated. |
| `TxBridge.ResultOutcome` | aedatastore/transaction.go:45-67 | A rollback reports nil although the library aborted. A commit reports the library's commit error, translated, and is nil exactly when the commit succeeded. |
| `TxBridge.ClosedOutcome` | aedatastore/transaction.go:48-52 | A closed decision channel makes the callback return its "channel closed" error. That error is not the sentinel, so it reaches the caller, translated and non-nil. |
| `TxBridge.SameTextIsNotTheSentinel` | aedatastore/transaction.go:41 | An error with the same text as the sentinel, made separately, is not swallowed. |
| `TxBridge.FinishedSessionIsFinal` | aedatastore/transaction.go:206-213 | A finished session accepts no further decision, closed channel or start, and nothing changes its outcome. |
| `TxBridge.OpenSessionFinishesOnce` | aedatastore/transaction.go:46-68 | An open session is ended at most once, by a decision or by the closed channel. Forwarded operations leave it open, and the ending event fixes its outcome. |
| `TxBridge.SessionLifecycle` | aedatastore/transaction.go:33-81 | A session starts once. On a startup error it is done at once with the translated error and is never ended again. Otherwise it is open until its one ending event and then done with that event's outcome. |
| `TxBridge.RolledBackSessionReportsNil` | aedatastore/transaction.go:63-67 | Any session whose decision was a rollback ends with a nil outcome. |
| `TxBridge.CommittedSessionReportsCommitError` | aedatastore/transaction.go:54-67 | Any session whose decision was a commit ends with the translated commit error. That outcome is nil exactly when the library committed. |
| `TxBridge.AbandonedSessionReportsFailure` | aedatastore/transaction.go:48-52 | Any session whose decision channel was found closed ends with the translated "channel closed" error, which is never nil. |
| `TxBridge.SingleKeyError` | aedatastore/transaction.go:101-107 | A `MultiError` collapses to its element 0, any other error passes through unchanged, and success is nil. |
| `Aedatastore.TxExtractor.constructor` | aedatastore/transaction.go:33-41 | The extractor starts out opening, with no context and with a freshly allocated sentinel, so no store error and no other extractor's sentinel is identical to it. |
| `Aedatastore.TxExtractor.Begin` | aedatastore/transaction.go:43-78 | The first signal is the handle exactly when the store opened a transaction. The callback has then run once and the state is `Open`. Otherwise the first signal is the task's outcome, the state is `Done` with it, and the callback never ran. |
| `Aedatastore.TxExtractor.Resume` | aedatastore/transaction.go:48-67 | The callback resumes with what it read and the task delivers one outcome. A received decision yields `ResultOutcome`. A closed channel makes a fresh "channel closed" error, and the state moves by `Step` on the `Abandon` event to a non-nil outcome. |
| `Aedatastore.TxExtractor.Commit` | aedatastore/transaction.go:206-209 | This is `Step` on a commit decision. It returns the translated commit error and leaves the session done with it. |
| `Aedatastore.TxExtractor.Rollback` | aedatastore/transaction.go:211-214 | This is `Step` on a rollback decision. It returns nil and leaves the session done with a nil outcome. |
| `Aedatastore.NewTxExtractor` | aedatastore/transaction.go:33-81 | On success it returns a fresh, open extractor with a fresh sentinel, whose context is the handle, and a nil error. On failure it returns no extractor and the startup error, translated twice. The panic on a nil outcome is unreachable. |
| `Aedatastore.Transaction.GetMulti` | aedatastore/transaction.go:110-118 | It forwards the keys to the library's batch get on the extractor's context. |
| `Aedatastore.Transaction.Get` | aedatastore/transaction.go:99-108 | It returns the error of the one-key batch get for its key, which is element 0 of a `MultiError`, or any other error unchanged, or nil. |
| `Aedatastore.Transaction.PutMulti` | aedatastore/transaction.go:131-151 | On error it returns no pending keys and the error. Otherwise it returns the library's pending keys and nil. |
| `Aedatastore.Transaction.Put` | aedatastore/transaction.go:120-129 | It returns a pending key exactly when the batch put succeeded, and that key is `pKeys[0]`. The error is the one key's error. |
| `Aedatastore.Transaction.DeleteMulti` | aedatastore/transaction.go:164-172 | It forwards the keys to the library's batch delete on the extractor's context. |
| `Aedatastore.Transaction.Delete` | aedatastore/transaction.go:153-162 | It returns the error of the one-key batch delete for its key, collapsed like `Get`'s. |
| `Aedatastore.Transaction.Commit` | aedatastore/transaction.go:174-186 | It returns a fresh commit object exactly when the extractor's outcome is nil, and otherwise no commit object and that error. The outcome is the translated commit error. |
| `Aedatastore.Transaction.Rollback` | aedatastore/transaction.go:188-195 | It returns nil and leaves the session done with a nil outcome. |

## Left out

- Goroutine scheduling and the unbuffered channels are replaced by sequential transitions of `TxExtractor.state`. The only interleaving that matters, the startup race, is deterministic, as explained above.
- `Aedatastore.TxExtractor.Commit` and `Aedatastore.TxExtractor.Rollback` require an open session. The source has no "already finished" guard: a second decision blocks forever on the unbuffered send, and the model does not invent a fail-fast error.
- The nil guards in `GetMulti`, `PutMulti`, `DeleteMulti`, `Commit` and `Rollback` test the receiver `tx`, which is never nil there, instead of the extractor. The model omits them, and its methods require an extractor, because without one the source dereferences nil.
- The single-key wrappers require a one-key `MultiError` to be non-empty, and `Put` requires a successful batch put to return at least one pending key. The source indexes element 0 without a check.
- `toWrapperError`, `getMultiOps`/`putMultiOps`/`deleteMultiOps`, `toWrapperPendingKeys`, and the library's `GetMulti`/`PutMulti`/`DeleteMulti` are not part of this model. They appear only as oracle parameters. The translation is assumed to keep nil as nil and a non-nil error non-nil.
- Filling the destination structs of `Get` and reading the source structs of `Put` belong to the marshaling layer and are not modelled.
- `commitImpl.Key`, which resolves a pending key after a commit, calls `toOriginalPendingKey`/`toWrapperKey`. It is not modelled. The model only guarantees that a commit object exists exactly when the commit succeeded.
- `TransactionContext` and `Batch` are plumbing: one returns the client's context, and the other wraps the handle in a batch struct. Neither is modelled.
- Retries of `RunInTransaction` are not modelled, because the bridge always passes `Attempts: 1`. The ghost counter `callbackRuns` records that the callback runs at most once.
- Context cancellation and the library's timeouts are folded into `startErr` and `commitErr`.
- Nothing in the source closes the decision channel, so no method of the model does either. The closed-channel branch of the callback is modelled by `TxExtractor.Resume` on `Closed` and by the `Abandon` event of the state machine.
