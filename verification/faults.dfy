/** Fault-to-error conversion shared by the two copies of the `SafeFunc` family:
    the type switch of `ToError` and the deferred `recover()` of the wrappers.
    Both copies are the same code; they differ only in which package's
    `ErrorOf` type a non-error payload is wrapped in. */
module Faults {
  import opened Values

  /** `ToError` of package `pkg`: an error payload is reused as it is, and
      anything else (nil included, which takes the `default` branch of the
      type switch) is wrapped in that package's `ErrorOf`. */
  function ToError(pkg: Pkg, x: Any): (e: Error)
    ensures x.ErrValue? ==> e == x.err
    ensures !x.ErrValue? ==> e.ErrorOf? && e.pkg == pkg && e.value == x
  {
    match x
    case ErrValue(err) => err
    case _ => ErrorOf(pkg, x)
  }

  /** Reference inverse of `ToError`: the payload an error stands for. An
      `ErrorOf` of package `pkg` stands for the value it wraps; every other
      error stands for itself. */
  function Unwrap(pkg: Pkg, e: Error): Any {
    if e.ErrorOf? && e.pkg == pkg then e.value else ErrValue(e)
  }

  /** True of the one kind of payload `ToError` cannot tell apart from another:
      an error that is itself an `ErrorOf` of the same package. */
  predicate WrapsErrorOf(pkg: Pkg, x: Any) {
    x.ErrValue? && x.err.ErrorOf? && x.err.pkg == pkg
  }

  /** Every payload except an `ErrorOf` of the same package can be recovered
      from the error `ToError` makes of it. */
  lemma ToErrorRoundTrip(pkg: Pkg, x: Any)
    requires !WrapsErrorOf(pkg, x)
    ensures Unwrap(pkg, ToError(pkg, x)) == x
  {
  }

  /** Panicking with `ErrorOf{y}` and panicking with `y` itself end in the same
      error, so the round trip above cannot be extended to that case. */
  lemma ToErrorConflatesErrorOf(pkg: Pkg, y: Any)
    requires !y.ErrValue?
    ensures ToError(pkg, ErrValue(ErrorOf(pkg, y))) == ToError(pkg, y)
    ensures ErrValue(ErrorOf(pkg, y)) != y
  {
  }

  /** Converting an error a second time changes nothing. */
  lemma ToErrorIdempotent(pkg: Pkg, x: Any)
    ensures ToError(pkg, ErrValue(ToError(pkg, x))) == ToError(pkg, x)
  {
  }

  /** The message of the converted error: an error keeps its own message and
      any other payload is rendered with `%v`. */
  lemma ToErrorMessage(pkg: Pkg, x: Any, render: Any -> string)
    ensures Message(ToError(pkg, x), render) == if x.ErrValue? then Message(x.err, render) else render(x)
  {
  }

  /** What a `SafeFunc*E` wrapper of package `pkg` returns when the call it
      wraps ends with `o`. The named results start at their zero values and are
      set only by a normal return; the deferred `recover()` then overwrites the
      error with the converted payload, but only when that payload is non-nil. */
  function Recover<U>(pkg: Pkg, o: Outcome<U>, zero: U): (r: Ret<U>)
    ensures o.Returned? ==> r.value == o.value && r.err == o.err
    ensures o.Panicked? ==> r.value == zero
    ensures o.Panicked? && o.payload.Nil? ==> r.err.None?
    ensures o.Panicked? && !o.payload.Nil? ==> r.err == Some(ToError(pkg, o.payload))
  {
    match o
    case Returned(v, e) => Ret(v, e)
    case Panicked(p) => if p.Nil? then Ret(zero, None) else Ret(zero, Some(ToError(pkg, p)))
  }

  /** A wrapped call that returns normally, seen as an outcome again. */
  function Lift<U>(r: Ret<U>): Outcome<U> {
    Returned(r.value, r.err)
  }

  /** Wrapping an already wrapped function changes nothing. */
  lemma RecoverIdempotent<U>(pkg: Pkg, o: Outcome<U>, zero: U)
    ensures Recover(pkg, Lift(Recover(pkg, o, zero)), zero) == Recover(pkg, o, zero)
  {
  }

  /** The wrapper reports no error exactly when the call returned a nil error
      or panicked with a nil payload: a real fault is never lost. */
  lemma RecoverErrorIff<U>(pkg: Pkg, o: Outcome<U>, zero: U)
    ensures Recover(pkg, o, zero).err.None? <==> (o.Returned? && o.err.None?) || (o.Panicked? && o.payload.Nil?)
  {
  }

  /** A non-nil panic payload survives in the reported error, unless it was an
      `ErrorOf` of the same package. */
  lemma RecoverKeepsPayload<U>(pkg: Pkg, o: Outcome<U>, zero: U)
    requires o.Panicked? && !o.payload.Nil? && !WrapsErrorOf(pkg, o.payload)
    ensures Recover(pkg, o, zero).err.Some?
    ensures Unwrap(pkg, Recover(pkg, o, zero).err.value) == o.payload
  {
    ToErrorRoundTrip(pkg, o.payload);
  }

  /** The adapter `func() (U, error) { return f(), nil }` by which the wrappers
      of functions without an error result reuse the `E` wrappers. */
  function WithNilError<U>(o: PlainOutcome<U>): (r: Outcome<U>)
    ensures o.Completed? ==> r.Returned? && r.value == o.result && r.err.None?
    ensures o.Faulted? ==> r.Panicked? && r.payload == o.fault
  {
    match o
    case Completed(v) => Returned(v, None)
    case Faulted(p) => Panicked(p)
  }
}
