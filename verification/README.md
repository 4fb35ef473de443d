# go-rendezvous core in Dafny

A model of the sequential logic around the goroutines and channels of
go-rendezvous: a library that runs Go functions asynchronously, hands each
result to its waiter exactly once through a one-shot "rendezvous", turns panics
into errors, and fans several tasks out under two policies, collect-all and
fail-fast.

Three layers are modelled, each with pure functions over immutable datatypes:

- **Fault-to-error conversion** (`Faults`, `Util`, `RootUtil`). A call of a Go
  function is described by how it ends (`Outcome`: `Returned(value, err)` or
  `Panicked(payload)`). `ToError` is a case split on the payload: an error is
  reused as it is, and any other payload is wrapped in `ErrorOf`. Each
  `SafeFunc*` wrapper is modelled by the result its never-panicking function
  returns when called, with the zero value of the result type passed
  explicitly. util/util.go and its copy util.go in the root package share one
  definition. `Pkg` records which of the two package-local `ErrorOf` types a
  payload is wrapped in.
- **The rendezvous** (`Rendezvous`). An `Rdv` is a capacity-one channel plus
  the program counter of the goroutine that feeds it. That goroutine sends one
  record, then closes the channel. `Receive` and `ReceiveWatch` are steps of
  the single consumer. Which arm of the `select` wins is an input (`Arm`). `Run`
  replays an arbitrary interleaving of producer and consumer steps, and
  `GoDeliversExactlyOnce` proves, for every interleaving, three things:
  - the first read the slot wins returns the fault-safe result;
  - every later read the slot wins panics;
  - a read the context wins returns the zero value and a context error.
- **Fan-out** (`RdvExt`). `RunSlice`/`Run2` collect every result in argument
  order, and their summary error is the lowest-index error. `RunSliceEg` and
  `Run2Eg` are all-or-nothing, keyed on the group's `Wait` result. The
  scheduler's choices are inputs: a `Race` says whether the context fires and
  which reads it wins, and `winner` says which failing member `Wait` saw first.
  `GoSlice`, `Go2`, `GoSliceEg` and `Go2Eg` deliver the corresponding result
  through a rendezvous. `Run2Eg` and `Go2Eg` model the code as written.
  `Run2EgIntended` and `Go2EgIntended` model what its doc comment promises.

In one place the code departs from its own doc comment. The comment on
`Run2Eg` (rdvext/rdvext.go:124-129) promises the non-error results whenever all
functions complete normally. `RunSliceEg` drains its members with a plain
`Receive()` (rdvext/rdvext.go:116-119). `Run2Eg` instead drains them with
`ReceiveWatch(ctx)` (rdvext/rdvext.go:146-147), which can lose values. The model
keeps both versions and records the difference under "Findings".

The doc comment of `RunSlice` (rdvext/rdvext.go:33-34) says that on a context
timeout or cancellation a context error is returned "for each of the funcs that
had not already returned". The code reads every task with `ReceiveWatch`. When
both `select` arms are ready, Go picks one of them at random, so a task that has
already returned can still get the context error. `Race` therefore lets the
context win any read once it has fired, as the code allows.

## Model

| member | source | states |
|---|---|---|
| Faults.ToError | util/util.go:30-37 | An error payload is returned unchanged. Any other payload, nil included, becomes `ErrorOf` of the given package holding exactly that payload. |
| Faults.ToErrorRoundTrip | util/util.go:30-37 | Unwrapping the converted error gives back the payload, for every payload except an `ErrorOf` of the same package. |
| Faults.ToErrorConflatesErrorOf | util/util.go:31-36 | Panicking with `ErrorOf{y}` and panicking with `y` give the same error, although the two payloads differ. |
| Faults.ToErrorIdempotent | util/util.go:32-33 | Converting the converted error again changes nothing. |
| Faults.ToErrorMessage | util/util.go:24-36 | The converted error's message is the payload's own message if the payload is an error, and otherwise its `%v` rendering. |
| Faults.Recover | util/util.go:63-71 | A normal return passes through. After a panic the value is the zero value. The error is the converted payload when the payload is non-nil, and nil otherwise. |
| Faults.RecoverIdempotent | util/util.go:62-72 | Wrapping an already-wrapped call changes nothing. |
| Faults.RecoverErrorIff | util/util.go:64-69 | The wrapper reports no error exactly when the call returned a nil error or panicked with nil. A real fault is never lost. |
| Faults.RecoverKeepsPayload | util/util.go:65-68 | A non-nil panic payload can be recovered from the reported error, unless it is an `ErrorOf` of the same package. |
| Faults.WithNilError | util/util.go:87 | A completed call becomes a return with a nil error. A fault stays the same panic. |
| Util.ToError | util/util.go:30-37 | Identity on errors. Every other value becomes `util.ErrorOf{x}`. |
| Util.ErrorOfMessage | util/util.go:24-26 | The message of the error made from a non-error value is that value's `%v` rendering. |
| Util.SafeFunc0E | util/util.go:62-72 | Never panics. A normal return of `f` is returned exactly. A non-nil panic payload `p` gives `(zero, ToError(p))`. A nil payload gives `(zero, nil)`. |
| Util.SafeFunc0VE | util/util.go:76-82 | For an error-only `f`: returns the error `f` returns, or the converted panic payload. |
| Util.SafeFunc0 | util/util.go:86-89 | For a value-only `f`: returns `f`'s value with a nil error when `f` completes, and the zero value with the converted payload when it panics. |
| Util.SafeFunc0V | util/util.go:93-96 | For a result-less `f`: nil when `f` completes, the converted payload when it panics. |
| Util.VoidWrappersKeepOnlyTheError | util/util.go:76-96 | The `VE` and `V` wrappers return exactly the error part of the `E` and plain wrappers. |
| Util.SafeFunc1E | util/util.go:100-110 | Equals `SafeFunc0E` of `f` with its argument fixed. |
| Util.SafeFunc1VE | util/util.go:114-120 | Equals `SafeFunc0VE` of `f` with its argument fixed. |
| Util.SafeFunc1 | util/util.go:124-127 | Equals `SafeFunc0` of `f` with its argument fixed. |
| Util.SafeFunc1V | util/util.go:131-134 | Equals `SafeFunc0V` of `f` with its argument fixed. |
| Util.SafeFunc2E | util/util.go:138-148 | Equals `SafeFunc0E` of `f` with both arguments fixed. |
| Util.SafeFunc2VE | util/util.go:152-158 | Equals `SafeFunc0VE` of `f` with both arguments fixed. |
| Util.SafeFunc2 | util/util.go:162-165 | Equals `SafeFunc0` of `f` with both arguments fixed. |
| Util.SafeFunc2V | util/util.go:169-172 | Equals `SafeFunc0V` of `f` with both arguments fixed. |
| RootUtil.ToError | util.go:25-32 | Identity on errors. Every other value becomes the root package's own `ErrorOf{x}`. |
| RootUtil.ErrorOfMessage | util.go:21-23 | The message of the error made from a non-error value is that value's `%v` rendering. |
| RootUtil.SafeFunc0E | util.go:52-62 | Never panics. A normal return passes through unchanged. A non-nil panic payload `p` gives `(zero, ToError(p))`. A nil payload gives `(zero, nil)`. |
| RootUtil.SafeFunc0VE | util.go:64-70 | Returns the error `f` returns, or the converted panic payload. |
| RootUtil.SafeFunc0 | util.go:72-75 | Returns `f`'s value with a nil error on completion, and the zero value with the converted payload on a panic. |
| RootUtil.SafeFunc0V | util.go:77-80 | Nil on completion, the converted payload on a panic. |
| RootUtil.VoidWrappersKeepOnlyTheError | util.go:64-80 | The `VE`/`V` wrappers return exactly the error part of the `E`/plain wrappers. |
| RootUtil.SafeFunc1E | util.go:82-92 | Equals `SafeFunc0E` of `f` with its argument forwarded unchanged. |
| RootUtil.SafeFunc1VE | util.go:94-100 | Equals `SafeFunc0VE` of `f` with its argument fixed. |
| RootUtil.SafeFunc1 | util.go:102-105 | Equals `SafeFunc0` of `f` with its argument fixed. |
| RootUtil.SafeFunc1V | util.go:107-110 | Equals `SafeFunc0V` of `f` with its argument fixed. |
| RootUtil.SafeFunc2E | util.go:112-122 | Equals `SafeFunc0E` of `f` with both arguments forwarded unchanged. |
| RootUtil.SafeFunc2VE | util.go:124-130 | Equals `SafeFunc0VE` of `f` with both arguments fixed. |
| RootUtil.SafeFunc2 | util.go:132-135 | Equals `SafeFunc0` of `f` with both arguments fixed. |
| RootUtil.SafeFunc2V | util.go:137-140 | Equals `SafeFunc0V` of `f` with both arguments fixed. |
| Rendezvous.Go | rdv/rendezvous.go:70-80 | Makes a fresh slot whose producer will send exactly `SafeFunc0E(f)`'s value and error with `chanOpen` true. A non-nil panic becomes the converted error in the record, and a nil panic leaves the zero value and a nil error. A panic never means a missing record. |
| Rendezvous.ProducerStepKeepsInv | rdv/rendezvous.go:72-78 | The producer's send always finds the slot empty and open, so it never blocks. Its close happens exactly once. Each step keeps the reachable-state invariant. |
| Rendezvous.Receive | rdv/rendezvous.go:41-47 | Takes a buffered record and drains the slot. On a drained, closed slot it panics with the closed-channel message. On a drained, open slot it waits. |
| Rendezvous.ReceiveWatch | rdv/rendezvous.go:55-66 | When the slot arm wins it is `Receive`, closed-slot panic included. When the context arm wins it returns `(zero, ctx.Err())` and leaves the slot untouched. |
| Rendezvous.GoEg | rdv/rendezvous.go:85-96 | Reports to the group exactly the error it places in the slot, which is `SafeFunc0E(f)`'s error. That error is nil exactly when `f` returned a nil error or panicked with nil. |
| Rendezvous.GoCtxApplySendsSafe | rdv/rendezvous.go:99-106 | Launching `CtxApply(ctx, f)` with `Go` sends the fault-safe result of `f` called with `ctx`: the context reaches the task, and a panic becomes the record's error. |
| Rendezvous.Await | rdv/rendezvous.go:53-65 | The one allowed read of a fresh rendezvous returns the record when the slot wins, and `(zero, ctx.Err())` when the context wins. |
| Rendezvous.CtxApplyWatch | rdv/rendezvous.go:112-121 | For a task that returns or panics, never panics. When the slot wins it returns `f(ctx)`'s normal result, the converted panic for a non-nil payload, or `(zero, nil)` for a nil one. When `ctx` fires first it returns `(zero, ctx.Err())`. |
| Rendezvous.RunObservations | rdv/rendezvous.go:41-80 | From any reachable state, along any schedule, the first slot read returns the record unless it was already taken, every later slot read panics, and context reads return a context error. |
| Rendezvous.GoDeliversExactlyOnce | rdv/rendezvous.go:41-80 | Along any schedule after `Go(f)`, the first slot read returns `SafeFunc0E(f)`'s result and every later one panics instead of returning stale data. |
| Rendezvous.WatchTimeoutKeepsRecord | rdv/rendezvous.go:62-63 | A read the context wins does not consume the slot, and a later `Receive` still gets the record. |
| Rendezvous.SecondReceivePanics | rdv/rendezvous.go:42-45 | After the producer has sent and closed, the first `Receive` returns the record and the second panics. |
| Rendezvous.ReceiveBeforeSendBlocks | rdv/rendezvous.go:42 | A `Receive` before the send waits rather than returning anything. |
| RdvExt.FirstError | rdvext/rdvext.go:52-58 | Nil exactly when every error is nil. Otherwise it is the error at the lowest index that has one. |
| RdvExt.RunSlice | rdvext/rdvext.go:38-61 | Returns exactly one result per task, at the task's position, even when the context fires. A slot win gives the task's fault-safe result. A context win gives `(zero, ctx.Err())`. The summary is the lowest-index error, and nil exactly when there is none. |
| RdvExt.Run2 | rdvext/rdvext.go:71-93 | `X1` comes from `f1` and `X2` from `f2`. The summary is `X1.Error` if non-nil, else `X2.Error`. |
| RdvExt.Run2IsRunSliceOfTwo | rdvext/rdvext.go:71-93 | `Run2` gives the same results and summary as `RunSlice` over `[f1, f2]`. |
| RdvExt.GroupWait | rdvext/rdvext.go:111-114 | Nil exactly when every member reported nil. Otherwise it is one of the members' errors. |
| RdvExt.AnyFailureCanWin | rdvext/rdvext.go:111-114 | Every failing member's error is a possible `Wait` result. |
| RdvExt.MemberErrorNoneIff | rdvext/rdvext.go:106-109 | A member reports nil exactly when its slot wins and its task returned nil or panicked with nil. |
| RdvExt.Members | rdvext/rdvext.go:106-109 | One fresh member per task, in order. Each reports its `CtxApplyWatch` error, and a member that reports nil carries its task's fault-safe value. |
| RdvExt.RunSliceEg | rdvext/rdvext.go:101-122 | On a group error it returns a nil slice and one of the members' errors. It succeeds exactly when every member succeeds, and then returns `len(funcs)` values in call order with a nil error. |
| RdvExt.RunSliceEgAnyFailureCanSurface | rdvext/rdvext.go:111-114 | Which failure `RunSliceEg` returns is decided in real time: any failing member's error can be the one returned. |
| RdvExt.FailFastAgreesWithCollectAll | rdvext/rdvext.go:101-122 | `RunSliceEg` succeeds exactly when `RunSlice` over the group's context has no summary error, and then both carry the same values. |
| RdvExt.Run2EgIntended | rdvext/rdvext.go:124-129 | Corrected, as the doc comment promises: on a group error it returns the zero tuple and that error. Otherwise it returns both tasks' values in argument order with a nil error. |
| RdvExt.Run2EgIntendedIsRunSliceEgOfTwo | rdvext/rdvext.go:101-150 | The intended `Run2Eg` gives the same error as `RunSliceEg` over `[f1, f2]`, and on success the same two values. |
| RdvExt.Run2Eg | rdvext/rdvext.go:130-150 | As written: the error is the intended one, and on a group error the tuple is zero. On success, a value whose drain read the slot wins is that task's fault-safe value. A value whose drain read the context wins is the zero value, and the error still stays nil. |
| RdvExt.Run2EgLosesValues | rdvext/rdvext.go:146-147 | A concrete schedule in which both tasks succeed and the written code returns `(0, 0), nil` where the intended result is `(1, 2), nil`. |
| RdvExt.GoSlice | rdvext/rdvext.go:162-170 | The slot delivers exactly what `RunSlice` returns. |
| RdvExt.Go2 | rdvext/rdvext.go:178-187 | The slot delivers exactly what `Run2` returns. |
| RdvExt.GoSliceEg | rdvext/rdvext.go:197-205 | The slot delivers exactly what `RunSliceEg` returns. |
| RdvExt.Go2Eg | rdvext/rdvext.go:215-224 | The slot delivers exactly what the written `Run2Eg` returns, lost values included. |
| RdvExt.Go2EgIntended | rdvext/rdvext.go:215-224 | The slot delivers exactly what `Run2EgIntended` returns. |
| RdvExt.Go2EgLosesValues | rdvext/rdvext.go:215-224 | On the input of `Run2EgLosesValues`, the written `Go2Eg` delivers `(0, 0), nil` where the intended one delivers `(1, 2), nil`. |

## Left out

- `RunWithTimeout` (util/util.go:176-184, util.go:142-150): it only derives a context with a wall-clock timeout and calls `f`; contexts are opaque here.
- Goroutines, `select` fairness, channel blocking, `errgroup` internals and context deadlines are not modelled as such; they are explicit inputs: the producer's progress and the winning `select` arm (`Arm`), the context race of a fan-out (`Race`), and the member whose failure `Wait` sees first (`winner`). A blocked read is the `Blocked` step, not waiting time.
- `%v` formatting: `ErrorOf.Error` takes the rendering as a parameter `render`.
- A task ending in `runtime.Goexit` (for example `t.FailNow` called inside a task) is not modelled. A task here either returns or panics (`Outcome`). With Goexit, the deferred `recover()` in `Go`/`GoEg` (rdv/rendezvous.go:72-78, 87-94) returns nil and the send is skipped. The deferred close still runs, so the channel is closed with nothing in it. Its first read therefore panics with the closed-channel message:
  - in `RunSlice`/`Run2` and in the function `CtxApplyWatch` returns, the panic escapes to the caller;
  - in `RunSliceEg`/`Run2Eg` it becomes an `ErrorOf` error in the member.

  `GoDeliversExactlyOnce` and the "never panics" clause of `CtxApplyWatch` hold only for tasks that return or panic.
- `panic(nil)` is modelled with the behaviour where `recover()` then returns nil, so the wrapper returns the zero results and no error; from Go 1.21 on such a panic arrives as a `*runtime.PanicNilError`, which this model would describe as an error payload.
- RdvExt.GroupWait: may pick any failing member, including one whose context error was caused by the group's own cancellation after an earlier failure; the real `Wait` never reports such a later error first. The contract is therefore weaker than the real order of failures.
- RdvExt.Race: the reads of one call choose their arms independently once the context has fired; the model does not track which records were ready at what time.
- The spans of time in which `errgroup.Wait` waits for the other members after a failure are not modelled, since the model has no clock.
- `Tuple3` and `Tuple4` are declared (`Util`) but no operation of the core uses them; the root package's tuple types are the same declarations.
- all/obsolete/oldasync.go, the demonstration programs and the package documentation files contain no part of this core.

## Findings

| source | as written | input that shows it | evidently intended | confidence | as-written member | corrected member |
|---|---|---|---|---|---|---|
| rdvext/rdvext.go:146-147 | after a successful `eg.Wait()`, `Run2Eg` reads both members with `ReceiveWatch(ctx)` on the caller's context; when that context is already done and the slot is also ready, `select` may pick `ctx.Done()`, and the value is replaced by the zero value while the returned error stays nil | `ctx` cancelled, `f1` and `f2` return `(1, nil)` and `(2, nil)`, both members' slots win inside the group so `Wait` returns nil, then both drain reads pick the context arm: result `((0, 0), nil)` | drain with `Receive()` as `RunSliceEg` does (rdvext/rdvext.go:117-119), returning `((1, 2), nil)` | medium; not executed | RdvExt.Run2Eg, RdvExt.Run2EgLosesValues, RdvExt.Go2Eg, RdvExt.Go2EgLosesValues | RdvExt.Run2EgIntended, RdvExt.Go2EgIntended |
