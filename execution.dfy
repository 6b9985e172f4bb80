/** What one invocation of a workplace's worker does (`execWorker`,
    director.go), and the sequences of invocations that the loop, ticker and
    event strands produce. Spawned goroutines are not run: the downstream
    executions an invocation starts are returned as a list of dispatches. */
module Execution {
  import opened Workers

  /** `workplace` (workplace.go) without its wait groups. */
  datatype Workplace = Workplace(id: string, worker: Worker, params: WorkerParams)

  /** The director's `workplaces` map. */
  type Registry = map<string, Workplace>

  /** Every workplace is stored under its own id. */
  ghost predicate Keyed(reg: Registry) {
    forall k :: k in reg ==> reg[k].id == k
  }

  /** `go d.execWorker(&nextWp, results...)`: a downstream execution started
      but not awaited. */
  datatype Dispatch = Dispatch(target: string, args: seq<Value>)

  /** The record of one `execWorker` call: the arguments, what the worker
      returned, whether the error was handed to the notification channel,
      whether the calling strand may go on, and the downstream executions
      started. */
  datatype Invocation = Invocation(
    args: seq<Value>,
    results: seq<Value>,
    err: Option<WorkError>,
    notified: bool,
    proceed: bool,
    dispatches: seq<Dispatch>)

  /** The targets of a list of dispatches, in order. */
  function Targets(ds: seq<Dispatch>): (ts: seq<string>)
    ensures |ts| == |ds|
  {
    seq(|ds|, i requires 0 <= i < |ds| => ds[i].target)
  }

  /** The fan-out loop of `execWorker`: one dispatch, with this invocation's
      results, per listed id that names a registered workplace. */
  function FanOut(ids: seq<string>, reg: Registry, results: seq<Value>): (ds: seq<Dispatch>)
    ensures |ds| <= |ids|
    ensures forall i :: 0 <= i < |ds| ==> ds[i].target in reg && ds[i].args == results
    decreases |ids|
  {
    if ids == [] then []
    else
      var id := ids[|ids| - 1];
      FanOut(ids[..|ids| - 1], reg, results) + (if id in reg then [Dispatch(id, results)] else [])
  }

  /** The fan-out keeps the order of the list: fanning out over a
      concatenation is fanning out over each part in turn. */
  lemma {:induction false} FanOutConcat(a: seq<string>, b: seq<string>, reg: Registry, results: seq<Value>)
    ensures FanOut(a + b, reg, results) == FanOut(a, reg, results) + FanOut(b, reg, results)
    decreases |b|
  {
    if b == [] {
      assert a + b == a;
    } else {
      assert (a + b)[..|a + b| - 1] == a + b[..|b| - 1];
      FanOutConcat(a, b[..|b| - 1], reg, results);
    }
  }

  /** A registered id is dispatched as many times as it is listed (duplicates
      repeat), an unknown id never. */
  lemma {:induction false} FanOutMultiplicity(ids: seq<string>, reg: Registry, results: seq<Value>, x: string)
    ensures multiset(Targets(FanOut(ids, reg, results)))[x] == if x in reg then multiset(ids)[x] else 0
    decreases |ids|
  {
    if ids != [] {
      var init, id := ids[..|ids| - 1], ids[|ids| - 1];
      assert ids == init + [id];
      FanOutMultiplicity(init, reg, results, x);
      var prefix := FanOut(init, reg, results);
      var tail := if id in reg then [Dispatch(id, results)] else [];
      assert Targets(prefix + tail) == Targets(prefix) + Targets(tail);
    }
  }

  /** When every listed id is registered, the dispatches follow the list exactly. */
  lemma {:induction false} FanOutAllKnown(ids: seq<string>, reg: Registry, results: seq<Value>)
    requires forall i :: 0 <= i < |ids| ==> ids[i] in reg
    ensures Targets(FanOut(ids, reg, results)) == ids
    decreases |ids|
  {
    if ids != [] {
      var init, id := ids[..|ids| - 1], ids[|ids| - 1];
      FanOutAllKnown(init, reg, results);
      var prefix := FanOut(init, reg, results);
      assert Targets(prefix + [Dispatch(id, results)]) == Targets(prefix) + [id];
    }
  }

  /** `execWorker(wp, args...)`: call the worker under `context.TODO()`; on an
      error, notify if asked to, and halt the strand if `stopOnError`;
      otherwise fan out to the downstream workplaces and let the strand go on.
      The contract is the failure policy: the strand halts exactly when the
      worker erred under `stopOnError`, and then nothing is dispatched; in
      every other case, a failed call included, the strand goes on and every
      registered downstream id is dispatched with the results. */
  function Invoke(reg: Registry, wp: Workplace, args: seq<Value>): (inv: Invocation)
    ensures inv.args == args
    ensures inv.results == wp.worker(Todo, args).results
    ensures inv.err == wp.worker(Todo, args).err
    ensures inv.proceed <==> wp.worker(Todo, args).err.None? || !wp.params.stopOnError
    ensures !inv.proceed ==> inv.dispatches == []
    ensures inv.proceed ==> inv.dispatches == FanOut(wp.params.nextWorkers, reg, inv.results)
    ensures inv.notified <==> inv.err.Some? && wp.params.notifyOnError
  {
    var out := wp.worker(Todo, args);
    var notified := out.err.Some? && wp.params.notifyOnError;
    if out.err.Some? && wp.params.stopOnError then
      Invocation(args, out.results, out.err, notified, false, [])
    else
      Invocation(args, out.results, out.err, notified, true, FanOut(wp.params.nextWorkers, reg, out.results))
  }

  /** Neither the panic flag nor the root context has any effect on an
      invocation: no fatal escalation, and the worker gets `context.TODO()`. */
  lemma InvokeIgnoresPanicAndContext(reg: Registry, wp: Workplace, args: seq<Value>, b: bool, ctx: Context)
    ensures Invoke(reg, wp.(params := wp.params.(panicOnError := b, rootContext := ctx)), args)
         == Invoke(reg, wp, args)
  {
  }

  /** A chain A -> B: when A lists B as its only downstream id, B is
      registered and A's worker succeeds, A's invocation starts B exactly
      once, with A's results as its arguments. */
  lemma ChainDispatchesOnce(reg: Registry, a: Workplace, b: string, args: seq<Value>)
    requires b in reg && a.params.nextWorkers == [b] && a.worker(Todo, args).err.None?
    ensures Invoke(reg, a, args).proceed
    ensures Invoke(reg, a, args).dispatches == [Dispatch(b, a.worker(Todo, args).results)]
  {
    assert [b][..0] == [];
  }

  /** How many rounds the loop controller of `Repeat(amount)` allows within a
      horizon of `horizon` rounds: a negative amount is unbounded, a
      non-negative one allows that many rounds as far as the horizon reaches. */
  function Rounds(amount: Int, horizon: nat): (r: nat)
    ensures r <= horizon
    ensures amount < 0 ==> r == horizon
    ensures 0 <= amount ==> r <= amount
    ensures 0 <= amount <= horizon ==> r == amount
  {
    if amount < 0 then horizon
    else if amount < horizon then amount
    else horizon
  }

  /** The loop and ticker strands: up to `rounds` invocations, each fed the
      previous one's results, stopping right after one that halts. The first
      call, when there is one, is made on `args`. */
  function LoopRun(reg: Registry, wp: Workplace, args: seq<Value>, rounds: nat): (trace: seq<Invocation>)
    ensures |trace| <= rounds
    ensures rounds > 0 ==> trace != [] && trace[0] == Invoke(reg, wp, args)
    decreases rounds
  {
    if rounds == 0 then []
    else
      var inv := Invoke(reg, wp, args);
      if inv.proceed then [inv] + LoopRun(reg, wp, inv.results, rounds - 1) else [inv]
  }

  /** The event strand: one invocation per received value, with that value
      as the sole argument, stopping right after one that halts. */
  function EventRun(reg: Registry, wp: Workplace, events: seq<Value>): (trace: seq<Invocation>)
    ensures |trace| <= |events|
    ensures events != [] ==> trace != [] && trace[0] == Invoke(reg, wp, [events[0]])
    decreases |events|
  {
    if events == [] then []
    else
      var inv := Invoke(reg, wp, [events[0]]);
      if inv.proceed then [inv] + EventRun(reg, wp, events[1..]) else [inv]
  }

  /** Every entry of a strand's trace is one `execWorker` call on its arguments. */
  ghost predicate Invocations(reg: Registry, wp: Workplace, trace: seq<Invocation>) {
    forall i :: 0 <= i < |trace| ==> trace[i] == Invoke(reg, wp, trace[i].args)
  }

  /** A strand halts only at its last invocation, and stops early only because
      of it. */
  ghost predicate StopsAtFirstHalt(trace: seq<Invocation>, budget: nat) {
    && |trace| <= budget
    && (forall i :: 0 <= i < |trace| - 1 ==> trace[i].proceed)
    && (|trace| < budget ==> trace != [] && !trace[|trace| - 1].proceed)
  }

  /** The loop strand calls the worker first with `args`, then each time with
      the previous call's results; it makes `rounds` calls unless one halts,
      and then that call is its last. */
  lemma {:induction false} LoopRunShape(reg: Registry, wp: Workplace, args: seq<Value>, rounds: nat)
    ensures var trace := LoopRun(reg, wp, args, rounds);
      && Invocations(reg, wp, trace)
      && StopsAtFirstHalt(trace, rounds)
      && (trace != [] ==> trace[0].args == args)
      && (forall i :: 0 < i < |trace| ==> trace[i].args == trace[i - 1].results)
    decreases rounds
  {
    if rounds > 0 {
      var inv := Invoke(reg, wp, args);
      if inv.proceed {
        var rest := LoopRun(reg, wp, inv.results, rounds - 1);
        LoopRunShape(reg, wp, inv.results, rounds - 1);
        var trace := [inv] + rest;
        assert forall i :: 0 < i < |trace| ==> trace[i] == rest[i - 1];
      }
    }
  }

  /** With no halting call, the loop strand makes exactly `rounds` calls. */
  lemma LoopRunWithoutHalt(reg: Registry, wp: Workplace, args: seq<Value>, rounds: nat)
    requires forall inv | inv in LoopRun(reg, wp, args, rounds) :: inv.proceed
    ensures |LoopRun(reg, wp, args, rounds)| == rounds
  {
    LoopRunShape(reg, wp, args, rounds);
  }

  /** The event strand calls the worker once per event, in order, with the
      event as its sole argument, until the first call that halts. */
  lemma {:induction false} EventRunShape(reg: Registry, wp: Workplace, events: seq<Value>)
    ensures var trace := EventRun(reg, wp, events);
      && Invocations(reg, wp, trace)
      && StopsAtFirstHalt(trace, |events|)
      && (forall i :: 0 <= i < |trace| ==> trace[i].args == [events[i]])
    decreases |events|
  {
    if events != [] {
      var inv := Invoke(reg, wp, [events[0]]);
      if inv.proceed {
        var rest := EventRun(reg, wp, events[1..]);
        EventRunShape(reg, wp, events[1..]);
        var trace := [inv] + rest;
        assert forall i :: 0 < i < |trace| ==> trace[i] == rest[i - 1] && events[i] == events[1..][i - 1];
      }
    }
  }

  /** `Repeat(n)` with `0 <= n` bounds the loop strand at `n` rounds; after
      `Infinitely()` only the horizon bounds it; the default never runs it. */
  lemma RepeatRounds(p: WorkerParams, n: Int, horizon: nat)
    ensures 0 <= n <= horizon ==> Rounds(Repeat(n)(p).amountOfExecutions, horizon) == n
    ensures Rounds(Infinitely()(p).amountOfExecutions, horizon) == horizon
    ensures Rounds(DefaultWorkerParams().amountOfExecutions, horizon) == 0
  {
  }
}
