/** The worker contract, the invocation parameters of a worker and the
    functional options that build them (worker.go).

    A Go `WorkerParameter` is a closure that writes fields of a
    `*workerParams`. Every such pointer refers either to the local struct
    that `Director.With` builds or to a copy made by `range`: each option is
    modelled as the transform `WorkerParams -> WorkerParams` it performs on
    that struct. The slices such a struct holds are taken as values here;
    that Go may share their backing arrays with the caller is not modelled. */
module Workers {

  datatype Option<+T> = None | Some(value: T)

  /** Go `int` and `time.Duration` are 64-bit signed integers. */
  type Int = x: int | -0x8000_0000_0000_0000 <= x < 0x8000_0000_0000_0000

  /** `time.Duration`, in nanoseconds. */
  type Duration = Int

  /** `time.Time`, as nanoseconds since an arbitrary epoch. */
  type Time = int

  /** An untyped argument or result (`interface{}`); the engine never looks inside it. */
  datatype Value = Value(token: int)

  /** The error a worker returns. */
  datatype WorkError = WorkError(message: string)

  /** Execution context handed to a worker. */
  datatype Context = Background | Todo | Derived(tag: nat)

  /** A non-nil `chan<- error`, known by its identity only. */
  datatype ErrChan = ErrChan(tag: nat)

  /** A `<-chan interface{}` event source, known by its identity only. */
  datatype EventChan = EventChan(tag: nat)

  /** What one call of `Worker.Work` returns: results, and an error or nil. */
  datatype WorkResult = WorkResult(results: seq<Value>, err: Option<WorkError>)

  /** `Worker.Work(ctx, args...)`. A worker is modelled as a function of its
      context and arguments. */
  type Worker = (Context, seq<Value>) -> WorkResult

  /** The delay rule of the loop strand (`func(time.Time) time.Duration`). */
  type DelayRule = Time -> Duration

  /** `workerParams`. A nil Go func or channel is `None`. */
  datatype WorkerParams = WorkerParams(
    id: string,
    firstArgs: seq<Value>,
    delayFunc: Option<DelayRule>,
    amountOfExecutions: Int,
    nextWorkers: seq<string>,
    notifyOnError: bool,
    panicOnError: bool,
    notifyOnErrorChan: Option<ErrChan>,
    stopOnError: bool,
    tickerDurations: seq<Duration>,
    eventChannels: seq<EventChan>,
    rootContext: Context)

  /** `WorkerParameter`: one functional option. */
  type WorkerParameter = WorkerParams -> WorkerParams

  /** The two notification fields agree: notification is on exactly when there
      is a channel to notify. */
  predicate NotifyConsistent(p: WorkerParams) {
    p.notifyOnError <==> p.notifyOnErrorChan.Some?
  }

  /** `defaultWorkerParams`: no repetition, stop on error, no notification,
      no id, no arguments, no triggers, no downstream workers. */
  function DefaultWorkerParams(): (p: WorkerParams)
    ensures p.amountOfExecutions == 0 && p.stopOnError
    ensures !p.notifyOnError && !p.panicOnError && NotifyConsistent(p)
    ensures p.id == "" && p.firstArgs == [] && p.nextWorkers == [] && p.delayFunc.None?
    ensures p.tickerDurations == [] && p.eventChannels == [] && p.rootContext == Background
  {
    WorkerParams("", [], None, 0, [], false, false, None, true, [], [], Background)
  }

  /** `Id(id)`: names the worker. */
  function Id(id: string): (param: WorkerParameter)
    ensures forall p :: param(p) == p.(id := id)
  {
    (p: WorkerParams) => p.(id := id)
  }

  /** `WithDelayFunc(f)`: sets the delay rule (nil clears it). */
  function WithDelayFunc(delayFunc: Option<DelayRule>): (param: WorkerParameter)
    ensures forall p :: param(p) == p.(delayFunc := delayFunc)
  {
    (p: WorkerParams) => p.(delayFunc := delayFunc)
  }

  /** `WithDelay(d)`: a delay rule that waits `d` whatever the time. */
  function WithDelay(duration: Duration): (param: WorkerParameter)
    ensures forall p :: param(p).delayFunc.Some? && param(p) == p.(delayFunc := param(p).delayFunc)
    ensures forall p, t :: param(p).delayFunc.value(t) == duration
  {
    WithDelayFunc(Some((t: Time) => duration))
  }

  /** `Repeat(n)`: sets the loop bound. */
  function Repeat(n: Int): (param: WorkerParameter)
    ensures forall p :: param(p) == p.(amountOfExecutions := n)
  {
    (p: WorkerParams) => p.(amountOfExecutions := n)
  }

  /** `Infinitely()`: a negative loop bound, and nothing else. */
  function Infinitely(): (param: WorkerParameter)
    ensures forall p :: param(p).amountOfExecutions < 0
    ensures forall p :: param(p) == p.(amountOfExecutions := param(p).amountOfExecutions)
  {
    Repeat(-1)
  }

  /** `WithArgs(args...)`: replaces the arguments of the first execution. */
  function WithArgs(args: seq<Value>): (param: WorkerParameter)
    ensures forall p :: param(p) == p.(firstArgs := args)
  {
    (p: WorkerParams) => p.(firstArgs := args)
  }

  /** `TriggenOn(chs...)`: subscribes to more event channels, after the earlier ones. */
  function TriggenOn(channels: seq<EventChan>): (param: WorkerParameter)
    ensures forall p :: param(p) == p.(eventChannels := p.eventChannels + channels)
  {
    (p: WorkerParams) => p.(eventChannels := p.eventChannels + channels)
  }

  /** `Every(d)`: adds one ticker period at the end of the list. */
  function Every(duration: Duration): (param: WorkerParameter)
    ensures forall p :: param(p) == p.(tickerDurations := p.tickerDurations + [duration])
  {
    (p: WorkerParams) => p.(tickerDurations := p.tickerDurations + [duration])
  }

  /** `NotifyError(ch)`: sets the error channel; notification is on iff `ch` is not nil. */
  function NotifyError(errCh: Option<ErrChan>): (param: WorkerParameter)
    ensures forall p :: param(p).notifyOnErrorChan == errCh && NotifyConsistent(param(p))
    ensures forall p :: param(p) == p.(notifyOnError := param(p).notifyOnError, notifyOnErrorChan := errCh)
  {
    (p: WorkerParams) => p.(notifyOnError := errCh != None, notifyOnErrorChan := errCh)
  }

  /** `IgnoreWorkerErrors(b)`: stop on error exactly when errors are not ignored. */
  function IgnoreWorkerErrors(ignore: bool): (param: WorkerParameter)
    ensures forall p :: param(p) == p.(stopOnError := !ignore)
  {
    (p: WorkerParams) => p.(stopOnError := !ignore)
  }

  /** `PanicOnError(b)`: sets the panic flag (which the director never reads). */
  function PanicOnError(b: bool): (param: WorkerParameter)
    ensures forall p :: param(p) == p.(panicOnError := b)
  {
    (p: WorkerParams) => p.(panicOnError := b)
  }

  /** `WithContext(ctx)`: sets the root context. */
  function WithContext(ctx: Context): (param: WorkerParameter)
    ensures forall p :: param(p) == p.(rootContext := ctx)
  {
    (p: WorkerParams) => p.(rootContext := ctx)
  }

  /** `Next(ids...)`: appends downstream worker ids, after the earlier ones. */
  function Next(ids: seq<string>): (param: WorkerParameter)
    ensures forall p :: param(p) == p.(nextWorkers := p.nextWorkers + ids)
  {
    (p: WorkerParams) => p.(nextWorkers := p.nextWorkers + ids)
  }

  /** The options applied in argument order: `for _, o := range params { o(&p) }`. */
  function ApplyAll(p: WorkerParams, params: seq<WorkerParameter>): (r: WorkerParams)
    ensures params == [] ==> r == p
    ensures |params| == 1 ==> r == params[0](p)
    decreases |params|
  {
    if params == [] then p
    else params[|params| - 1](ApplyAll(p, params[..|params| - 1]))
  }

  /** Applying two lists of options one after the other is applying their concatenation. */
  lemma {:induction false} ApplyAllConcat(p: WorkerParams, a: seq<WorkerParameter>, b: seq<WorkerParameter>)
    ensures ApplyAll(p, a + b) == ApplyAll(ApplyAll(p, a), b)
    decreases |b|
  {
    if b == [] {
      assert a + b == a;
    } else {
      assert (a + b)[..|a + b| - 1] == a + b[..|b| - 1];
      ApplyAllConcat(p, a, b[..|b| - 1]);
    }
  }

  /** The options act in argument order, as the `range` loop of
      `Director.With` applies them: the first option acts on the defaults,
      the rest on what it left. */
  lemma ApplyAllInArgumentOrder(p: WorkerParams, params: seq<WorkerParameter>)
    requires params != []
    ensures ApplyAll(p, params) == ApplyAll(params[0](p), params[1..])
  {
    assert params == [params[0]] + params[1..];
    ApplyAllConcat(p, [params[0]], params[1..]);
  }

  /** An option leaves the field that `field` reads untouched. */
  ghost predicate Keeps<F>(field: WorkerParams -> F, param: WorkerParameter) {
    forall p :: field(param(p)) == field(p)
  }

  /** A field written by one option keeps that value through any later
      options that do not touch it: for an overwriting option, the last
      application wins. */
  lemma {:induction false} LastWriteWins<F>(field: WorkerParams -> F, v: F, p: WorkerParams,
                                            before: seq<WorkerParameter>, write: WorkerParameter,
                                            after: seq<WorkerParameter>)
    requires forall q :: field(write(q)) == v
    requires forall i :: 0 <= i < |after| ==> Keeps(field, after[i])
    ensures field(ApplyAll(p, before + [write] + after)) == v
    decreases |after|
  {
    var all := before + [write] + after;
    if after == [] {
      assert all[..|all| - 1] == before;
    } else {
      assert all[..|all| - 1] == before + [write] + after[..|after| - 1];
      LastWriteWins(field, v, p, before, write, after[..|after| - 1]);
      assert Keeps(field, after[|after| - 1]);
    }
  }

  /** For the overwriting options that name, seed or repeat a worker, the
      second of two applications wins. */
  lemma OverwritesLastWins(p: WorkerParams, a: string, b: string, x: seq<Value>, y: seq<Value>,
                           m: Int, n: Int)
    ensures Id(b)(Id(a)(p)) == Id(b)(p)
    ensures WithArgs(y)(WithArgs(x)(p)) == WithArgs(y)(p)
    ensures Repeat(n)(Repeat(m)(p)) == Repeat(n)(p)
  {
  }

  /** The same for the delay rule, the panic flag and the context. */
  lemma PolicyOverwritesLastWins(p: WorkerParams, f: Option<DelayRule>, g: Option<DelayRule>,
                                 c: Context, e: Context, s: bool, t: bool)
    ensures WithDelayFunc(g)(WithDelayFunc(f)(p)) == WithDelayFunc(g)(p)
    ensures WithContext(e)(WithContext(c)(p)) == WithContext(e)(p)
    ensures PanicOnError(t)(PanicOnError(s)(p)) == PanicOnError(t)(p)
  {
  }

  /** `IgnoreWorkerErrors(b)` twice is `IgnoreWorkerErrors(b)` once. */
  lemma IgnoreWorkerErrorsIdempotent(p: WorkerParams, ignore: bool)
    ensures IgnoreWorkerErrors(ignore)(IgnoreWorkerErrors(ignore)(p)) == IgnoreWorkerErrors(ignore)(p)
    ensures IgnoreWorkerErrors(ignore)(p).stopOnError != ignore
  {
  }

  /** `Infinitely()` has the same effect as `Repeat(-1)`. */
  lemma InfinitelyIsRepeatMinusOne(p: WorkerParams)
    ensures Infinitely()(p) == Repeat(-1)(p)
  {
  }

  /** `k` copies of `Every(d)`. */
  function EveryTimes(d: Duration, k: nat): (params: seq<WorkerParameter>)
    ensures |params| == k
  {
    seq(k, _ => Every(d))
  }

  /** Applying `Every(d)` `k` times adds exactly `k` copies of `d` after the
      periods already there. */
  lemma {:induction false} EveryAccumulates(p: WorkerParams, d: Duration, k: nat)
    ensures ApplyAll(p, EveryTimes(d, k)).tickerDurations == p.tickerDurations + seq(k, _ => d)
    ensures |ApplyAll(p, EveryTimes(d, k)).tickerDurations| == |p.tickerDurations| + k
  {
    if k > 0 {
      var ps := EveryTimes(d, k);
      assert ps[..k - 1] == EveryTimes(d, k - 1);
      var q := ApplyAll(p, EveryTimes(d, k - 1));
      assert ApplyAll(p, ps) == Every(d)(q);
      EveryAccumulates(p, d, k - 1);
      assert seq(k - 1, _ => d) + [d] == seq(k, _ => d);
    }
  }

  /** A `Next` option appends its ids after those the earlier options left. */
  lemma {:induction false} NextAppends(p: WorkerParams, before: seq<WorkerParameter>, ids: seq<string>)
    ensures ApplyAll(p, before + [Next(ids)]).nextWorkers == ApplyAll(p, before).nextWorkers + ids
  {
    var all := before + [Next(ids)];
    assert all[..|all| - 1] == before;
    assert all[|all| - 1] == Next(ids);
  }

  /** A `TriggenOn` option appends its channels after those the earlier options left. */
  lemma {:induction false} TriggenOnAppends(p: WorkerParams, before: seq<WorkerParameter>, chs: seq<EventChan>)
    ensures ApplyAll(p, before + [TriggenOn(chs)]).eventChannels == ApplyAll(p, before).eventChannels + chs
  {
    var all := before + [TriggenOn(chs)];
    assert all[..|all| - 1] == before;
    assert all[|all| - 1] == TriggenOn(chs);
  }
}
