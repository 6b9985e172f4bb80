/** The director (director.go): a registry of workplaces with a
    not-started/started lifecycle, the loop controller, and the loop, ticker
    and event strands of one workplace driven sequentially over finite
    inputs. Panics become `Fail` outcomes; goroutines, wait groups, timers and
    channels are not modelled. */
module Directors {
  import opened Workers
  import opened Execution

  /** `DirectorAlreadyWorks`, `DirectorNotWorks`. */
  datatype DirectorError = DirectorAlreadyWorks | DirectorNotWorks

  /** Either the operation went through or it panicked with the given error. */
  datatype Outcome = Pass | Fail(error: DirectorError)

  /** `func() string`: the k-th call (from 0) returns `gen(k)`. A generator
      with internal state is thus a function of how often it was called. */
  type IdGenerator = nat -> string

  /** `directorOptions`. */
  datatype DirectorOptions = DirectorOptions(idGenerator: IdGenerator)

  /** `DirectorOption`: one functional option of the director. */
  type DirectorOption = DirectorOptions -> DirectorOptions

  /** `defaultOptions`: the UUID generator, whose random output is a parameter here. */
  function DefaultOptions(uuidGen: IdGenerator): (o: DirectorOptions)
    ensures o.idGenerator == uuidGen
  {
    DirectorOptions(uuidGen)
  }

  /** `WithIdGenerator(g)`: replaces the id generator. */
  function WithIdGenerator(generator: IdGenerator): (option: DirectorOption)
    ensures forall o :: option(o).idGenerator == generator
  {
    (o: DirectorOptions) => o.(idGenerator := generator)
  }

  /** The options applied in argument order (`NewDirector`). */
  function ApplyOptions(o: DirectorOptions, options: seq<DirectorOption>): (r: DirectorOptions)
    ensures options == [] ==> r == o
    ensures |options| == 1 ==> r == options[0](o)
    decreases |options|
  {
    if options == [] then o
    else options[|options| - 1](ApplyOptions(o, options[..|options| - 1]))
  }

  /** One `WithIdGenerator` option per generator, in order. */
  function GeneratorOptions(gens: seq<IdGenerator>): (options: seq<DirectorOption>)
    ensures |options| == |gens|
  {
    seq(|gens|, i requires 0 <= i < |gens| => WithIdGenerator(gens[i]))
  }

  /** Of several `WithIdGenerator` options the last one wins; with none, the
      UUID generator stays. */
  lemma {:induction false} LastGeneratorWins(uuidGen: IdGenerator, gens: seq<IdGenerator>)
    ensures ApplyOptions(DefaultOptions(uuidGen), GeneratorOptions(gens)).idGenerator
         == if gens == [] then uuidGen else gens[|gens| - 1]
  {
    if gens != [] {
      var options := GeneratorOptions(gens);
      assert options[|options| - 1] == WithIdGenerator(gens[|gens| - 1]);
    }
  }

  /** The workplace `With` builds: the generated id, replaced by the
      parameters' own id when that is not empty. */
  function NewWorkplace(worker: Worker, p: WorkerParams, generated: string): (wp: Workplace)
    ensures wp.worker == worker && wp.params == p
    ensures p.id != "" ==> wp.id == p.id
    ensures p.id == "" ==> wp.id == generated
  {
    var wp := Workplace(generated, worker, p);
    if wp.params.id != "" then wp.(id := wp.params.id) else wp
  }

  /** `d.workplaces[wp.id] = wp`: stores the workplace under its id,
      replacing any earlier one there, and leaves every other entry alone. */
  function Register(reg: Registry, wp: Workplace): (r: Registry)
    ensures r.Keys == reg.Keys + {wp.id}
    ensures r[wp.id] == wp
    ensures forall k :: k in reg && k != wp.id ==> r[k] == reg[k]
  {
    reg[wp.id := wp]
  }

  /** Registering keeps every workplace under its own id. */
  lemma RegisterKeepsKeyed(reg: Registry, wp: Workplace)
    requires Keyed(reg)
    ensures Keyed(Register(reg, wp))
  {
  }

  /** `uint` is 64 bits wide: `uint(x)` wraps a negative `x` around. */
  const UINT_RANGE: int := 0x1_0000_0000_0000_0000

  type Uint = x: int | 0 <= x < UINT_RANGE

  function ToUint(x: Int): (u: Uint)
    ensures 0 <= x ==> u == x
    ensures x < 0 ==> u == x + UINT_RANGE
  {
    x % UINT_RANGE
  }

  /** `loopController`: counts rounds up to `max`, or forever when `inf`. */
  class LoopController {
    var n: Uint
    var max: Uint
    var inf: bool

    /** `newLoopController(max)`. */
    constructor (max: Int)
      ensures n == 0 && this.max == ToUint(max) && inf == (max < 0)
    {
      this.max := ToUint(max);
      n := 0;
      inf := max < 0;
    }

    /** `Check`: may another round run? Always when unbounded; otherwise
        exactly while fewer than `max` rounds have been counted. */
    function Check(): (more: bool)
      reads this
      ensures inf ==> more
      ensures !inf ==> (more <==> n < max)
    {
      inf || n < max
    }

    /** `Inc`: counts a round, unless unbounded. */
    method Inc()
      modifies this
      ensures max == old(max) && inf == old(inf)
      ensures n == if inf then old(n) else (old(n) + 1) % UINT_RANGE
    {
      if !inf {
        n := (n + 1) % UINT_RANGE;
      }
    }
  }

  /** Runs the `for i := newLoopController(max); i.Check(); i.Inc()` skeleton
      for at most `horizon` rounds and counts the rounds: exactly `max` of
      them when `0 <= max <= horizon`, and the whole horizon when `max < 0`. */
  method CountChecks(max: Int, horizon: nat) returns (rounds: nat)
    ensures 0 <= max ==> rounds == if max < horizon then max else horizon
    ensures max < 0 ==> rounds == horizon
  {
    var c := new LoopController(max);
    rounds := 0;
    while c.Check() && rounds < horizon
      invariant rounds <= horizon
      invariant c.inf == (max < 0) && c.max == ToUint(max)
      invariant !c.inf ==> c.n == rounds && rounds <= max
      decreases horizon - rounds
    {
      c.Inc();
      rounds := rounds + 1;
    }
  }

  /** What the three kinds of strand of one workplace did: the loop strand,
      one trace per ticker and one per event channel, and whether a ticker
      strand panicked (which ends the whole process in Go). */
  datatype StationRun = StationRun(
    loop: seq<Invocation>,
    tickers: seq<seq<Invocation>>,
    events: seq<seq<Invocation>>,
    panicked: bool)

  /** `Director`. The id generator's call count `generated` stands for the
      generator's internal progress. */
  class Director {
    var workplaces: Registry
    var options: DirectorOptions
    var started: bool
    var generated: nat

    /** Every workplace is registered under its own id. */
    ghost predicate Valid()
      reads this
    {
      Keyed(workplaces)
    }

    /** `NewDirector(options...)`: an empty, not started director whose id
        generator is the UUID generator as modified by the options, in order. */
    constructor (uuidGen: IdGenerator, opts: seq<DirectorOption>)
      ensures Valid()
      ensures workplaces == map[] && !started && generated == 0
      ensures options == ApplyOptions(DefaultOptions(uuidGen), opts)
    {
      var o := DefaultOptions(uuidGen);
      for i := 0 to |opts|
        invariant o == ApplyOptions(DefaultOptions(uuidGen), opts[..i])
      {
        assert opts[..i + 1][..i] == opts[..i];
        o := opts[i](o);
      }
      assert opts[..|opts|] == opts;
      workplaces := map[];
      options := o;
      started := false;
      generated := 0;
    }

    /** `With(worker, params...)`: refused once started; otherwise builds the
        parameters from the defaults and the options in order, resolves the id
        (calling the generator in any case) and stores the workplace. */
    method With(worker: Worker, params: seq<WorkerParameter>) returns (outcome: Outcome)
      requires Valid()
      modifies this
      ensures Valid()
      ensures started == old(started) && options == old(options)
      ensures old(started) ==> outcome == Fail(DirectorAlreadyWorks)
      ensures old(started) ==> workplaces == old(workplaces) && generated == old(generated)
      ensures !old(started) ==> outcome == Pass && generated == old(generated) + 1
      ensures !old(started) ==>
        workplaces == Register(old(workplaces),
                               NewWorkplace(worker, ApplyAll(DefaultWorkerParams(), params),
                                            old(options.idGenerator(generated))))
    {
      if started {
        return Fail(DirectorAlreadyWorks);
      }
      var p := DefaultWorkerParams();
      for i := 0 to |params|
        invariant p == ApplyAll(DefaultWorkerParams(), params[..i])
      {
        assert params[..i + 1][..i] == params[..i];
        p := params[i](p);
      }
      assert params[..|params|] == params;
      var id := options.idGenerator(generated);
      generated := generated + 1;
      var wp := NewWorkplace(worker, p, id);
      RegisterKeepsKeyed(workplaces, wp);
      workplaces := Register(workplaces, wp);
      outcome := Pass;
    }

    /** `Begin(params...)`: refused once started; otherwise marks the director
        started. The override pass applies every option to a copy of each
        workplace (the loop variable of `range`), so the stored workplaces
        keep their parameters. */
    method Begin(params: seq<WorkerParameter>) returns (outcome: Outcome)
      requires Valid()
      modifies this
      ensures Valid()
      ensures outcome == if old(started) then Fail(DirectorAlreadyWorks) else Pass
      ensures started
      ensures workplaces == old(workplaces) && options == old(options) && generated == old(generated)
    {
      if started {
        return Fail(DirectorAlreadyWorks);
      }
      started := true;
      for i := 0 to |params|
        invariant started && workplaces == old(workplaces)
        invariant options == old(options) && generated == old(generated)
      {
        var keys := workplaces.Keys;
        while keys != {}
          invariant keys <= workplaces.Keys
          invariant started && workplaces == old(workplaces)
          invariant options == old(options) && generated == old(generated)
          decreases keys
        {
          var k :| k in keys;
          var wp := workplaces[k];
          wp := wp.(params := params[i](wp.params));
          keys := keys - {k};
        }
      }
      outcome := Pass;
    }

    /** `Wait`: refused before the director has started. */
    method Wait() returns (outcome: Outcome)
      ensures started <==> outcome == Pass
      ensures !started ==> outcome == Fail(DirectorNotWorks)
    {
      if !started {
        return Fail(DirectorNotWorks);
      }
      outcome := Pass;
    }

    /** `execWorker(wp, args...)`: one invocation, with the downstream
        executions it starts listed in order rather than spawned. Each
        dispatch names a stored workplace, and `workplaces[id]` finds the
        workplace whose id it is. */
    method ExecWorker(wp: Workplace, args: seq<Value>) returns (inv: Invocation)
      requires Valid()
      ensures inv == Invoke(workplaces, wp, args)
      ensures forall i :: 0 <= i < |inv.dispatches| ==>
        inv.dispatches[i].target in workplaces && workplaces[inv.dispatches[i].target].id == inv.dispatches[i].target
      ensures inv.results == wp.worker(Todo, args).results
      ensures !inv.proceed <==> wp.worker(Todo, args).err.Some? && wp.params.stopOnError
      ensures !inv.proceed ==> inv.dispatches == []
    {
      var out := wp.worker(Todo, args);
      var notified := out.err.Some? && wp.params.notifyOnError;
      if out.err.Some? && wp.params.stopOnError {
        return Invocation(args, out.results, out.err, notified, false, []);
      }
      var ids := wp.params.nextWorkers;
      var dispatches := [];
      for i := 0 to |ids|
        invariant dispatches == FanOut(ids[..i], workplaces, out.results)
      {
        assert ids[..i + 1][..i] == ids[..i];
        if ids[i] in workplaces {
          dispatches := dispatches + [Dispatch(ids[i], out.results)];
        }
      }
      assert ids[..|ids|] == ids;
      inv := Invocation(args, out.results, out.err, notified, true, dispatches);
    }

    /** `execWorkerLoop(wp)` observed for at most `horizon` rounds: the
        worker's invocations as the loop strand makes them, each fed the
        previous results, within the rounds the loop controller allows. */
    method ExecWorkerLoop(wp: Workplace, horizon: nat) returns (trace: seq<Invocation>)
      requires Valid()
      ensures trace == LoopRun(workplaces, wp, wp.params.firstArgs,
                               Rounds(wp.params.amountOfExecutions, horizon))
    {
      var amount := wp.params.amountOfExecutions;
      ghost var total := Rounds(amount, horizon);
      var args := wp.params.firstArgs;
      var c := new LoopController(amount);
      var steps := 0;
      trace := [];
      while c.Check() && steps < horizon
        invariant steps <= total
        invariant c.inf == (amount < 0) && c.max == ToUint(amount)
        invariant !c.inf ==> c.n == steps
        invariant trace + LoopRun(workplaces, wp, args, total - steps)
               == LoopRun(workplaces, wp, wp.params.firstArgs, total)
        decreases horizon - steps
      {
        var inv := ExecWorker(wp, args);
        assert steps < total;
        assert LoopRun(workplaces, wp, args, total - steps)
            == if inv.proceed then [inv] + LoopRun(workplaces, wp, inv.results, total - steps - 1) else [inv];
        trace := trace + [inv];
        if !inv.proceed {
          return;
        }
        args := inv.results;
        c.Inc();
        steps := steps + 1;
      }
    }

    /** `execWorkerWithTicker(wp, d)` over `ticks` ticks: like the loop strand,
        each tick's invocation is fed the previous one's results. A period
        that is not positive makes `time.NewTicker` panic before any tick. */
    method ExecWorkerWithTicker(wp: Workplace, duration: Duration, ticks: nat)
      returns (trace: seq<Invocation>, panicked: bool)
      requires Valid()
      ensures panicked <==> duration <= 0
      ensures panicked ==> trace == []
      ensures !panicked ==> trace == LoopRun(workplaces, wp, wp.params.firstArgs, ticks)
    {
      if duration <= 0 {
        return [], true;
      }
      panicked := false;
      var args := wp.params.firstArgs;
      trace := [];
      var tick := 0;
      while tick < ticks
        invariant tick <= ticks
        invariant trace + LoopRun(workplaces, wp, args, ticks - tick)
               == LoopRun(workplaces, wp, wp.params.firstArgs, ticks)
      {
        var inv := ExecWorker(wp, args);
        trace := trace + [inv];
        if !inv.proceed {
          return;
        }
        args := inv.results;
        tick := tick + 1;
      }
    }

    /** `listenChannel(wp, i)` over the values the channel delivers before it
        closes: one invocation per value, until one halts. */
    method ListenChannel(wp: Workplace, events: seq<Value>) returns (trace: seq<Invocation>)
      requires Valid()
      ensures trace == EventRun(workplaces, wp, events)
    {
      trace := [];
      var i := 0;
      while i < |events|
        invariant i <= |events|
        invariant trace + EventRun(workplaces, wp, events[i..]) == EventRun(workplaces, wp, events)
      {
        var inv := ExecWorker(wp, [events[i]]);
        trace := trace + [inv];
        if !inv.proceed {
          return;
        }
        assert events[i..][1..] == events[i + 1..];
        i := i + 1;
      }
    }

    /** `execWorkplace(id)`: the loop strand, one ticker strand per period and
        one event strand per channel, each run on its own input. A ticker
        strand with a non-positive period panics and makes no calls. */
    method ExecWorkplace(id: string, horizon: nat, ticks: seq<nat>, feeds: seq<seq<Value>>)
      returns (run: StationRun)
      requires Valid()
      requires id in workplaces
      requires |ticks| == |workplaces[id].params.tickerDurations|
      requires |feeds| == |workplaces[id].params.eventChannels|
      ensures var wp := workplaces[id];
        && run.loop == LoopRun(workplaces, wp, wp.params.firstArgs,
                               Rounds(wp.params.amountOfExecutions, horizon))
        && |run.tickers| == |ticks|
        && (forall j :: 0 <= j < |ticks| ==>
              run.tickers[j] == if wp.params.tickerDurations[j] <= 0 then []
                                else LoopRun(workplaces, wp, wp.params.firstArgs, ticks[j]))
        && (run.panicked <==> exists j :: 0 <= j < |ticks| && wp.params.tickerDurations[j] <= 0)
        && |run.events| == |feeds|
        && (forall j :: 0 <= j < |feeds| ==> run.events[j] == EventRun(workplaces, wp, feeds[j]))
    {
      var wp := workplaces[id];
      var durations := wp.params.tickerDurations;
      var loop := ExecWorkerLoop(wp, horizon);
      var tickers := [];
      var panicked := false;
      for j := 0 to |ticks|
        invariant |tickers| == j
        invariant forall m :: 0 <= m < j ==>
          tickers[m] == if durations[m] <= 0 then [] else LoopRun(workplaces, wp, wp.params.firstArgs, ticks[m])
        invariant panicked <==> exists m :: 0 <= m < j && durations[m] <= 0
      {
        var t, p := ExecWorkerWithTicker(wp, durations[j], ticks[j]);
        tickers := tickers + [t];
        panicked := panicked || p;
      }
      var events := [];
      for j := 0 to |feeds|
        invariant |events| == j
        invariant forall m :: 0 <= m < j ==> events[m] == EventRun(workplaces, wp, feeds[m])
      {
        var e := ListenChannel(wp, feeds[j]);
        events := events + [e];
      }
      run := StationRun(loop, tickers, events, panicked);
    }
  }

  /** A director's lifecycle seen from a client: registering before the
      start works, waiting before it and registering or starting after it
      are refused, and the refused registration leaves the registry as it
      was. */
  method LifecycleScenario(uuidGen: IdGenerator, worker: Worker)
    returns (registered: Outcome, earlyWait: Outcome, lateRegistration: Outcome,
             secondStart: Outcome, wait: Outcome, ids: set<string>)
    ensures registered == Pass && earlyWait == Fail(DirectorNotWorks)
    ensures lateRegistration == Fail(DirectorAlreadyWorks) && secondStart == Fail(DirectorAlreadyWorks)
    ensures wait == Pass
    ensures ids == {"a"}
  {
    var d := new Director(uuidGen, []);
    var params := [Id("a")];
    assert params[..0] == [];
    assert ApplyAll(DefaultWorkerParams(), params).id == "a";
    registered := d.With(worker, params);
    assert d.workplaces.Keys == {"a"};
    earlyWait := d.Wait();
    var started := d.Begin([]);
    lateRegistration := d.With(worker, [Id("b")]);
    secondStart := d.Begin([]);
    assert d.workplaces.Keys == {"a"};
    wait := d.Wait();
    ids := d.workplaces.Keys;
  }
}
