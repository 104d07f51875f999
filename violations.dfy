/**
 * policy/violations.go: the deferred field-error constructors and the
 * per-check accumulator of violation labels and field errors.
 *
 * An ErrFn, like a PathFn, is a possibly nil closure that yields an error or
 * nil; it is represented by what it yields.
 */
module Violations {
  import opened Wrappers
  import opened Field
  import opened Paths
  import opened Seqs

  datatype ErrFn = NoErr | ErrThunk(err: Option<Error>)

  /** f.withBadValue(v): nil stays nil, an error-less closure stays error-less,
      and otherwise the same error with only its bad value replaced. */
  function WithBadValue(f: ErrFn, badValue: Value): (r: ErrFn)
    ensures r.NoErr? <==> f.NoErr?
    ensures r.ErrThunk? ==> (r.err.None? <==> f.err.None?)
    ensures r.ErrThunk? && r.err.Some? ==>
      && r.err.value.errorType == f.err.value.errorType
      && r.err.value.field == f.err.value.field
      && r.err.value.badValue == badValue
  {
    match f
    case NoErr => NoErr
    case ErrThunk(None) => ErrThunk(None)
    case ErrThunk(Some(e)) => ErrThunk(Some(e.(badValue := badValue)))
  }

  /** forbidden(pathFn): absent for an absent builder, nil when the path is
      nil, otherwise a Forbidden error at exactly that path. */
  function Forbidden(pathFn: PathFn): (r: ErrFn)
    ensures r.NoErr? <==> pathFn.NoPath?
    ensures r.ErrThunk? ==> (r.err.None? <==> pathFn.path.None?)
    ensures r.ErrThunk? && r.err.Some? ==>
      r.err.value.errorType == ErrorTypeForbidden && r.err.value.field == pathFn.path.value
  {
    match pathFn
    case NoPath => NoErr
    case PathThunk(None) => ErrThunk(None)
    case PathThunk(Some(p)) => ErrThunk(Some(ForbiddenError(p)))
  }

  /** required(pathFn): as forbidden, with a Required error. */
  function Required(pathFn: PathFn): (r: ErrFn)
    ensures r.NoErr? <==> pathFn.NoPath?
    ensures r.ErrThunk? ==> (r.err.None? <==> pathFn.path.None?)
    ensures r.ErrThunk? && r.err.Some? ==>
      r.err.value.errorType == ErrorTypeRequired && r.err.value.field == pathFn.path.value
  {
    match pathFn
    case NoPath => NoErr
    case PathThunk(None) => ErrThunk(None)
    case PathThunk(Some(p)) => ErrThunk(Some(RequiredError(p)))
  }

  /** What calling one errFn contributes: nothing for a nil function or a nil result. */
  function Yield(f: ErrFn): seq<Error>
  {
    if f.ErrThunk? && f.err.Some? then [f.err.value] else []
  }

  /** The errors Add collects from its errFns, in argument order. */
  function Collected(errFns: seq<ErrFn>): seq<Error>
  {
    FlatMap(errFns, Yield)
  }

  /** When every errFn yields an error, Add collects exactly those errors, in
      argument order. */
  lemma {:induction false} CollectedInOrder(errFns: seq<ErrFn>)
    requires forall i :: 0 <= i < |errFns| ==> errFns[i].ErrThunk? && errFns[i].err.Some?
    ensures |Collected(errFns)| == |errFns|
    ensures forall i :: 0 <= i < |errFns| ==> Collected(errFns)[i] == errFns[i].err.value
  {
    if errFns != [] {
      var n := |errFns| - 1;
      CollectedInOrder(errFns[..n]);
    }
  }

  /** Nil functions and nil results add nothing. */
  lemma CollectedSkipsNil(errFns: seq<ErrFn>)
    requires forall i :: 0 <= i < |errFns| ==> errFns[i].NoErr? || errFns[i].err.None?
    ensures Collected(errFns) == []
  {
    FlatMapEmpty(errFns, Yield);
  }

  /** Adding two runs of errFns collects the two runs of errors. */
  lemma CollectedAppend(a: seq<ErrFn>, b: seq<ErrFn>)
    ensures Collected(a + b) == Collected(a) + Collected(b)
  {
    FlatMapAppend(a, b, Yield);
  }

  /** Collecting errFns gathered item by item is collecting each item's run. */
  lemma {:induction false} CollectedFlatMap<T>(s: seq<T>, f: T -> seq<ErrFn>, g: T -> seq<Error>)
    requires forall x :: g(x) == Collected(f(x))
    ensures Collected(FlatMap(s, f)) == FlatMap(s, g)
  {
    if s != [] {
      var n := |s| - 1;
      CollectedFlatMap(s[..n], f, g);
      CollectedAppend(FlatMap(s[..n], f), f(s[n]));
    }
  }

  /** The Violations accumulator: labels always, field errors only on request. */
  class Violations {
    var data: seq<string>
    var errs: Option<seq<Error>>
    const withFieldErrors: bool

    ghost predicate Valid()
      reads this
    {
      errs.Some? <==> withFieldErrors
    }

    /** NewViolations: no labels; an empty error list iff field errors are wanted. */
    constructor (withFieldErrors: bool)
      ensures Valid()
      ensures this.withFieldErrors == withFieldErrors
      ensures data == []
      ensures errs == if withFieldErrors then Some([]) else None
    {
      this.withFieldErrors := withFieldErrors;
      data := [];
      errs := if withFieldErrors then Some([]) else None;
    }

    /** Add appends the entry, and with field errors on appends what the
        errFns yield; with field errors off the error list stays nil. */
    method Add(entry: string, errFns: seq<ErrFn>)
      requires Valid()
      modifies this
      ensures Valid()
      ensures data == old(data) + [entry]
      ensures errs == if withFieldErrors then Some(old(errs).value + Collected(errFns)) else old(errs)
    {
      data := data + [entry];
      if withFieldErrors {
        assert errFns[..0] == [] && old(errs).value + [] == old(errs).value;
        for i := 0 to |errFns|
          invariant data == old(data) + [entry]
          invariant errs == Some(old(errs).value + Collected(errFns[..i]))
        {
          FlatMapStep(errFns, i, Yield);
          ghost var before := errs.value;
          var errFn := errFns[i];
          if errFn.ErrThunk? {
            var err := errFn.err;
            if err.Some? {
              assert Yield(errFn) == [err.value];
              errs := Some(errs.value + [err.value]);
            }
          }
          assert errs.value == before + Yield(errFn);
          assert old(errs).value + Collected(errFns[..i]) + Yield(errFn)
              == old(errs).value + Collected(errFns[..i + 1]);
        }
        assert errFns[..|errFns|] == errFns;
      }
    }

    function Empty(): (b: bool)
      reads this
      ensures b <==> Len() == 0
    {
      |data| == 0
    }

    function Data(): seq<string>
      reads this
    {
      data
    }

    function Len(): (n: nat)
      reads this
      ensures n == |Data()|
    {
      |data|
    }

    function Errs(): (e: Option<seq<Error>>)
      reads this
      requires Valid()
      ensures e.None? <==> !withFieldErrors
    {
      errs
    }
  }
}
