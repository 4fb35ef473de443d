/** The Go values the rendezvous core passes around: errors, panic payloads,
    how a call of a function ends, and the contexts tasks are given. */
module Values {

  /** A Go value that may be nil: `None` stands for nil. */
  datatype Option<+T> = None | Some(value: T)

  /** A Go value that is neither nil nor an error. How `%v` renders it is left
      abstract: every function that needs a rendering takes it as a parameter. */
  datatype Value = StrValue(s: string) | IntValue(i: int) | OtherValue(id: nat)

  /** The package that declares an `ErrorOf` type: `util` (util/util.go) or the
      root package `rendezvous` (util.go), whose copy is a distinct Go type. */
  datatype Pkg = UtilPkg | RootPkg

  /** Why a context is done, as `ctx.Err()` reports it. */
  datatype CtxReason = Canceled | DeadlineExceeded

  /** A non-nil Go `error`. */
  datatype Error =
    | TaskError(msg: string)           // an error made outside this core: errors.New, a runtime error, ...
    | ErrorOf(pkg: Pkg, value: Any)    // `ErrorOf{Value}` of package `pkg`
    | CtxError(reason: CtxReason)      // context.Canceled or context.DeadlineExceeded

  /** A Go `interface{}`, as handed to `panic` and returned by `recover`. */
  datatype Any = Nil | ErrValue(err: Error) | Other(v: Value)

  /** `Error()` of an error; `render` is the `%v` formatting of a value. */
  function Message(e: Error, render: Any -> string): string {
    match e
    case TaskError(msg) => msg
    case ErrorOf(_, x) => render(x)
    case CtxError(Canceled) => "context canceled"
    case CtxError(DeadlineExceeded) => "context deadline exceeded"
  }

  /** How a call of a function returning `(U, error)` ends. */
  datatype Outcome<U> = Returned(value: U, err: Option<Error>) | Panicked(payload: Any)

  /** How a call of a function returning only a `U` ends. */
  datatype PlainOutcome<U> = Completed(result: U) | Faulted(fault: Any)

  /** The `(U, error)` pair returned by a call that cannot panic. */
  datatype Ret<U> = Ret(value: U, err: Option<Error>)

  /** An opaque `context.Context`: one a caller supplies, or the one
      `errgroup.WithContext` derives from it. */
  datatype Ctx = CallerCtx(id: nat) | GroupCtx(parent: Ctx)
}
