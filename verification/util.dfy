/** util/util.go: the fault-safe wrappers `SafeFunc*` and `ToError`. A Go
    function is given here by how a call of it ends (`Outcome`, `PlainOutcome`);
    each wrapper is modelled by the result its never-panicking function returns
    when called, and `zero` is the zero value of the result type. */
module Util {
  import opened Values
  import Faults

  /** Fixed-arity result containers; the position of a field is the position
      of the call argument it comes from. */
  datatype Tuple2<T1, T2> = Tuple2(x1: T1, x2: T2)
  datatype Tuple3<T1, T2, T3> = Tuple3(x1: T1, x2: T2, x3: T3)
  datatype Tuple4<T1, T2, T3, T4> = Tuple4(x1: T1, x2: T2, x3: T3, x4: T4)

  /** `ToError`: the identity on errors; anything else becomes an `ErrorOf`
      of this package holding the value. */
  function ToError(x: Any): (e: Error)
    ensures x.ErrValue? ==> e == x.err
    ensures !x.ErrValue? ==> e == ErrorOf(UtilPkg, x)
  {
    Faults.ToError(UtilPkg, x)
  }

  /** `ErrorOf.Error`: the message of the error made of a non-error value is
      the `%v` rendering of that value. */
  lemma ErrorOfMessage(x: Any, render: Any -> string)
    requires !x.ErrValue?
    ensures Message(ToError(x), render) == render(x)
  {
  }

  /** `SafeFunc0E(f)()`: never panics. A normal return of `f` passes through
      unchanged; a panic yields the zero value together with the converted
      payload, or with no error when the recovered payload is nil. */
  function SafeFunc0E<U>(f: () -> Outcome<U>, zero: U): (r: Ret<U>)
    ensures f().Returned? ==> r == Ret(f().value, f().err)
    ensures f().Panicked? && !f().payload.Nil? ==> r == Ret(zero, Some(ToError(f().payload)))
    ensures f().Panicked? && f().payload.Nil? ==> r == Ret(zero, None)
  {
    Faults.Recover(UtilPkg, f(), zero)
  }

  /** `SafeFunc0VE(f)()` for an `f` returning only an error (its value is the
      unit): the error `f` returns, or the converted panic payload. */
  function SafeFunc0VE(f: () -> Outcome<()>): (err: Option<Error>)
    ensures f().Returned? ==> err == f().err
    ensures f().Panicked? && !f().payload.Nil? ==> err == Some(ToError(f().payload))
    ensures f().Panicked? && f().payload.Nil? ==> err.None?
  {
    SafeFunc0E(f, ()).err
  }

  /** `SafeFunc0(f)()` for an `f` without an error result: `f`'s value with a
      nil error when it completes, the zero value and the converted payload
      when it panics. */
  function SafeFunc0<U>(f: () -> PlainOutcome<U>, zero: U): (r: Ret<U>)
    ensures f().Completed? ==> r == Ret(f().result, None)
    ensures f().Faulted? && !f().fault.Nil? ==> r == Ret(zero, Some(ToError(f().fault)))
    ensures f().Faulted? && f().fault.Nil? ==> r == Ret(zero, None)
  {
    SafeFunc0E(() => Faults.WithNilError(f()), zero)
  }

  /** `SafeFunc0V(f)()` for an `f` with no results: nil when it completes, the
      converted payload when it panics. */
  function SafeFunc0V(f: () -> PlainOutcome<()>): (err: Option<Error>)
    ensures f().Completed? ==> err.None?
    ensures f().Faulted? && !f().fault.Nil? ==> err == Some(ToError(f().fault))
    ensures f().Faulted? && f().fault.Nil? ==> err.None?
  {
    SafeFunc0VE(() => Faults.WithNilError(f()))
  }

  /** The `V` and `VE` wrappers return exactly the error component of the
      wrapper that also returns a value. */
  lemma VoidWrappersKeepOnlyTheError(f: () -> Outcome<()>, g: () -> PlainOutcome<()>)
    ensures SafeFunc0VE(f) == SafeFunc0E(f, ()).err
    ensures SafeFunc0V(g) == SafeFunc0(g, ()).err
  {
  }

  /** `SafeFunc1E(f)(t1)`: `SafeFunc0E` of `f` with its argument fixed. */
  function SafeFunc1E<T1, U>(f: T1 -> Outcome<U>, zero: U, t1: T1): (r: Ret<U>)
    ensures r == SafeFunc0E(() => f(t1), zero)
  {
    Faults.Recover(UtilPkg, f(t1), zero)
  }

  /** `SafeFunc1VE(f)(t1)`: `SafeFunc0VE` of `f` with its argument fixed. */
  function SafeFunc1VE<T1>(f: T1 -> Outcome<()>, t1: T1): (err: Option<Error>)
    ensures err == SafeFunc0VE(() => f(t1))
  {
    SafeFunc1E(f, (), t1).err
  }

  /** `SafeFunc1(f)(t1)`: `SafeFunc0` of `f` with its argument fixed. */
  function SafeFunc1<T1, U>(f: T1 -> PlainOutcome<U>, zero: U, t1: T1): (r: Ret<U>)
    ensures r == SafeFunc0(() => f(t1), zero)
  {
    SafeFunc1E(t => Faults.WithNilError(f(t)), zero, t1)
  }

  /** `SafeFunc1V(f)(t1)`: `SafeFunc0V` of `f` with its argument fixed. */
  function SafeFunc1V<T1>(f: T1 -> PlainOutcome<()>, t1: T1): (err: Option<Error>)
    ensures err == SafeFunc0V(() => f(t1))
  {
    SafeFunc1VE(t => Faults.WithNilError(f(t)), t1)
  }

  /** `SafeFunc2E(f)(t1, t2)`: `SafeFunc0E` of `f` with its arguments fixed. */
  function SafeFunc2E<T1, T2, U>(f: (T1, T2) -> Outcome<U>, zero: U, t1: T1, t2: T2): (r: Ret<U>)
    ensures r == SafeFunc0E(() => f(t1, t2), zero)
  {
    Faults.Recover(UtilPkg, f(t1, t2), zero)
  }

  /** `SafeFunc2VE(f)(t1, t2)`: `SafeFunc0VE` of `f` with its arguments fixed. */
  function SafeFunc2VE<T1, T2>(f: (T1, T2) -> Outcome<()>, t1: T1, t2: T2): (err: Option<Error>)
    ensures err == SafeFunc0VE(() => f(t1, t2))
  {
    SafeFunc2E(f, (), t1, t2).err
  }

  /** `SafeFunc2(f)(t1, t2)`: `SafeFunc0` of `f` with its arguments fixed. */
  function SafeFunc2<T1, T2, U>(f: (T1, T2) -> PlainOutcome<U>, zero: U, t1: T1, t2: T2): (r: Ret<U>)
    ensures r == SafeFunc0(() => f(t1, t2), zero)
  {
    SafeFunc2E((a, b) => Faults.WithNilError(f(a, b)), zero, t1, t2)
  }

  /** `SafeFunc2V(f)(t1, t2)`: `SafeFunc0V` of `f` with its arguments fixed. */
  function SafeFunc2V<T1, T2>(f: (T1, T2) -> PlainOutcome<()>, t1: T1, t2: T2): (err: Option<Error>)
    ensures err == SafeFunc0V(() => f(t1, t2))
  {
    SafeFunc2VE((a, b) => Faults.WithNilError(f(a, b)), t1, t2)
  }
}
