/** internal/middleware/middleware.go: handlers, their outcomes and the chain around them. */
module Middleware {
  import opened Jobs

  /** What calling a handler comes to: nil, an error, or a panic on its way up. */
  datatype Outcome = Ok | Err(message: string) | Panicked(value: string)

  type Handler = Job -> Outcome
  type Middleware = Handler -> Handler

  /** The first middleware is the outermost. */
  function Chain(base: Handler, mws: seq<Middleware>): Handler {
    if mws == [] then base else mws[0](Chain(base, mws[1..]))
  }

  /** Chain as it is written: a loop from the last middleware to the first. */
  method BuildChain(base: Handler, mws: seq<Middleware>) returns (h: Handler)
    ensures h == Chain(base, mws)
  {
    h := base;
    var i := |mws|;
    assert mws[i..] == [];
    while i > 0
      invariant 0 <= i <= |mws|
      invariant h == Chain(base, mws[i..])
    {
      i := i - 1;
      assert mws[i..][1..] == mws[i + 1..];
      h := mws[i](h);
    }
    assert mws[0..] == mws;
  }

  /** No middleware leaves the handler as it is, and one is wrapped around it once. */
  lemma ChainSmall(base: Handler, m: Middleware)
    ensures Chain(base, []) == base && Chain(base, [m]) == m(base)
  {
    assert [m][1..] == [];
  }

  /** Chaining two lists at once is chaining the second and then the first around the result:
      middlewares added later are nearer to the handler. */
  lemma {:induction false} ChainConcat(base: Handler, xs: seq<Middleware>, ys: seq<Middleware>)
    ensures Chain(base, xs + ys) == Chain(Chain(base, ys), xs)
  {
    if xs == [] {
      assert xs + ys == ys;
    } else {
      assert (xs + ys)[1..] == xs[1..] + ys;
      ChainConcat(base, xs[1..], ys);
    }
  }

  /** The deferred recover of RecoveryMiddleware and of Pool.runHandler. */
  function Recovered(o: Outcome): (r: Outcome)
    ensures !r.Panicked?
    ensures !o.Panicked? ==> r == o
    ensures o.Panicked? ==> r.Err? && "panic: " + o.value <= r.message
  {
    match o
    case Panicked(v) => Err("panic: " + v)
    case _ => o
  }

  function Recovery(next: Handler): Handler {
    (job: Job) => Recovered(next(job))
  }

  /** Logging, metrics and timeouts hand the outcome through, a panic included. */
  ghost predicate Transparent(m: Middleware) {
    forall h: Handler, job: Job :: m(h)(job) == h(job)
  }

  function Logging(next: Handler): Handler {
    (job: Job) => next(job)
  }

  lemma LoggingIsTransparent()
    ensures Transparent(Logging)
  {
  }

  /** Transparent middlewares do not change what comes out. */
  lemma {:induction false} TransparentChain(base: Handler, mws: seq<Middleware>, job: Job)
    requires forall i | 0 <= i < |mws| :: Transparent(mws[i])
    ensures Chain(base, mws)(job) == base(job)
  {
    if mws != [] {
      TransparentChain(base, mws[1..], job);
      assert Transparent(mws[0]);
    }
  }

  /** With recovery anywhere in the chain and only transparent middlewares outside it, no panic
      gets out, whatever panics further in; what is caught is the outcome of the inner chain. */
  lemma RecoveryCatches(base: Handler, outer: seq<Middleware>, inner: seq<Middleware>, job: Job)
    requires forall i | 0 <= i < |outer| :: Transparent(outer[i])
    ensures Chain(base, outer + [Recovery] + inner)(job) == Recovered(Chain(base, inner)(job))
  {
    assert outer + [Recovery] + inner == outer + ([Recovery] + inner);
    ChainConcat(base, outer, [Recovery] + inner);
    ChainConcat(base, [Recovery], inner);
    assert Chain(Chain(base, inner), [Recovery]) == Recovery(Chain(base, inner)) by {
      assert [Recovery][1..] == [];
    }
    TransparentChain(Chain(base, [Recovery] + inner), outer, job);
  }
}
