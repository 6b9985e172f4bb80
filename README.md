# Task director: a Dafny model

This project models the sequential decision logic of a Go task orchestrator (package `task`).
A `Director` keeps a registry of workplaces. Each workplace is a worker plus its invocation parameters, stored under an id.
The director also has a not-started/started lifecycle.
Once started, each workplace runs three kinds of strand:
- a loop strand, bounded by a repeat count or unbounded;
- one ticker strand per configured period;
- one event strand per subscribed channel.

Every strand funnels through one invocation step, `execWorker`. That step calls the worker and applies the failure policy. It then fans the results out to the downstream workplaces.

Modules:

- `Workers` (`worker.dfy`, from worker.go): values, the worker contract, the parameter record `WorkerParams`, its defaults, and every functional option.
  An option is a transform `WorkerParams -> WorkerParams`: a Go option writes through a pointer to the struct that `With` builds, or to a copy of it.
  The slices in that struct are modelled as values (see `Workers.WithArgs` under "## Left out").
  `ApplyAll` applies a list of options in argument order.
- `Execution` (`execution.dfy`, from director.go and workplace.go): the workplace record and one invocation (`Invoke`) with its fan-out (`FanOut`).
  It also holds the traces of the loop and ticker strands (`LoopRun`) and of the event strand (`EventRun`).
  Each strand is a list of invocation records. A spawned downstream execution is recorded as a `Dispatch`, not run.
- `Directors` (`director.dfy`, from director.go): the director options, the `LoopController` class and the `Director` class.
  `Director` has its lifecycle methods, the invocation method `ExecWorker`, and the strand drivers `ExecWorkerLoop`, `ExecWorkerWithTicker`, `ListenChannel` and `ExecWorkplace`.
  Each driver is proved equal to the trace function above, and the trace functions' properties are proved as lemmas.

Notes on the code as written, which the model follows:

- The ticker strand feeds each tick's invocation the previous tick's results (director.go:125-130). It does not start every tick from the first arguments. So it has the same shape as the loop strand.
- The comment on `PanicOnError` (worker.go:116) says the director will panic on an error. But `panicOnError` is never read, so an error is never escalated to a fatal one.
- The comment on `WithContext` (worker.go:125-127) says the director stops new executions when the context is done. But the worker always gets `context.TODO()` (director.go:144,146), and nothing reads the configured root context. `InvokeIgnoresPanicAndContext` states both facts.
- `Begin`'s override pass applies each option to the loop variable of a `range` over a map of structs, which is a copy (director.go:67-70). The stored parameters never change, and `Director.Begin` states this.
- director.go reads `params.workNumber` and `params.timeoutFunc`, while worker.go declares `amountOfExecutions` and `delayFunc`. They are treated as the same fields.
- The id generator is called on every accepted `With`, even when the parameters supply their own id (director.go:48). The director counts those calls in `generated`.

## Model

| member | source | states |
|---|---|---|
| `Workers.DefaultWorkerParams` | worker.go:33-39 | no repetition, stop on error, no notification, no panic, empty id, no arguments, no delay, no tickers, no channels, no downstream ids, background context |
| `Workers.Id` | worker.go:43-47 | sets the id and no other field |
| `Workers.WithDelayFunc` | worker.go:56-60 | sets the delay rule and no other field |
| `Workers.WithDelay` | worker.go:51-53 | the resulting delay rule returns the given duration at every time, and no other field changes |
| `Workers.Repeat` | worker.go:65-69 | sets the repeat count and no other field |
| `Workers.Infinitely` | worker.go:72-74 | makes the repeat count negative and changes no other field |
| `Workers.WithArgs` | worker.go:78-82 | replaces the first arguments and no other field |
| `Workers.TriggenOn` | worker.go:85-89 | appends the channels after the existing ones, nothing else changes |
| `Workers.Every` | worker.go:93-97 | appends exactly one period at the end, nothing else changes |
| `Workers.NotifyError` | worker.go:100-105 | sets the channel; notification is on exactly when the channel is not nil; nothing else changes |
| `Workers.IgnoreWorkerErrors` | worker.go:110-114 | stopOnError becomes the negation of the flag, nothing else changes |
| `Workers.PanicOnError` | worker.go:119-123 | sets the panic flag and no other field |
| `Workers.WithContext` | worker.go:130-134 | sets the root context and no other field |
| `Workers.Next` | worker.go:138-142 | appends the ids after the existing ones, nothing else changes |
| `Workers.ApplyAll` | director.go:43-46 | no options leave the defaults as they are, and a single option acts alone on them |
| `Workers.ApplyAllInArgumentOrder` | director.go:43-46 | the options act in argument order: the first acts on the defaults, the rest on what it left |
| `Workers.ApplyAllConcat` | director.go:43-46 | applying options in order composes: a concatenated list acts as its parts one after the other |
| `Workers.LastWriteWins` | worker.go:43-134 | a field written by an option keeps the written value through all later options that leave it alone, so the last overwrite wins |
| `Workers.OverwritesLastWins` | worker.go:43-82 | for Id, WithArgs and Repeat the second of two applications wins |
| `Workers.PolicyOverwritesLastWins` | worker.go:56-134 | for WithDelayFunc, WithContext and PanicOnError the second of two applications wins |
| `Workers.IgnoreWorkerErrorsIdempotent` | worker.go:110-114 | applying IgnoreWorkerErrors(b) twice is applying it once |
| `Workers.InfinitelyIsRepeatMinusOne` | worker.go:72-74 | Infinitely() has the effect of Repeat(-1) |
| `Workers.EveryAccumulates` | worker.go:93-97 | k applications of Every(d) add exactly k copies of d after the existing periods |
| `Workers.NextAppends` | worker.go:138-142 | after any earlier options, Next(ids) appends ids to the list they left |
| `Workers.TriggenOnAppends` | worker.go:85-89 | after any earlier options, TriggenOn(chs) appends chs to the list they left |
| `Execution.FanOut` | director.go:156-161 | every dispatch targets a registered id and carries this invocation's results; there are no more dispatches than listed ids |
| `Execution.FanOutConcat` | director.go:156-161 | the dispatches follow the order of the id list |
| `Execution.FanOutMultiplicity` | director.go:156-161 | a registered id is dispatched as often as it is listed, an unregistered id never |
| `Execution.FanOutAllKnown` | director.go:156-161 | when every listed id is registered, the dispatch targets are exactly the list |
| `Execution.Invoke` | director.go:138-163 | the worker is called on the given arguments and its results and error are recorded; the strand halts iff the worker erred under stopOnError, and then nothing is dispatched; otherwise, even on an error, it continues and fans out; the error is notified iff notifyOnError |
| `Execution.InvokeIgnoresPanicAndContext` | director.go:143-147 | the panic flag and the root context have no effect on an invocation |
| `Execution.ChainDispatchesOnce` | director.go:156-162 | with next = [B], B registered and a successful call, B is dispatched exactly once with the caller's results |
| `Execution.Rounds` | director.go:188-204 | the loop controller allows no more rounds than the horizon; a negative repeat count allows the whole horizon; a count n >= 0 allows at most n, and exactly n when n is within the horizon |
| `Execution.LoopRun` | director.go:98-136 | the loop or ticker strand makes at most the allowed number of calls, and when any call is allowed the first one is made on the first arguments |
| `Execution.EventRun` | director.go:172-180 | the event strand makes at most one call per received value, and when a value arrives the first call gets it as its sole argument |
| `Execution.LoopRunShape` | director.go:98-113 | the loop strand first passes the first arguments, then each call's results to the next; it makes the allowed number of calls unless one halts, and that call is its last |
| `Execution.LoopRunWithoutHalt` | director.go:104-108 | with no halting call the loop strand makes exactly the allowed number of calls |
| `Execution.EventRunShape` | director.go:172-180 | the event strand makes one call per event, in order, with the event as sole argument, until the first halting call |
| `Execution.RepeatRounds` | director.go:188-198 | Repeat(n) with n >= 0 allows n rounds, Infinitely() is unbounded, and the default allows none |
| `Directors.DefaultOptions` | director.go:212-216 | the default generator is the UUID generator |
| `Directors.WithIdGenerator` | director.go:222-226 | the option installs the given generator |
| `Directors.ApplyOptions` | director.go:27-30 | no options leave the default director options as they are, and a single option acts alone on them |
| `Directors.LastGeneratorWins` | director.go:26-30 | of several WithIdGenerator options the last wins; with none the UUID generator stays |
| `Directors.NewWorkplace` | director.go:47-55 | the id is the parameters' id when that is not empty, otherwise the generated id |
| `Directors.Register` | director.go:56 | the workplace is stored under its id, overwriting an earlier one, and every other entry is unchanged |
| `Directors.RegisterKeepsKeyed` | director.go:47-56 | registering keeps every workplace under its own id |
| `Directors.ToUint` | director.go:190 | conversion to uint keeps non-negative values and wraps negative ones modulo 2^64 |
| `Directors.LoopController.constructor` | director.go:188-194 | a fresh controller has count 0, bound uint(max), and is infinite iff max < 0 |
| `Directors.LoopController.Check` | director.go:196-198 | an unbounded controller always allows another round; a bounded one exactly while fewer than max rounds have been counted |
| `Directors.LoopController.Inc` | director.go:200-204 | the count grows by one (as a uint) unless the controller is infinite |
| `Directors.CountChecks` | director.go:196-204 | a fresh controller lets exactly max rounds pass when max >= 0, and every round when max < 0 |
| `Directors.Director.constructor` | director.go:26-35 | a new director is empty and not started, and its generator comes from applying the options in order |
| `Directors.Director.With` | director.go:37-58 | refused with DirectorAlreadyWorks once started, registry unchanged; otherwise the options are applied in order over the defaults and the workplace is registered under its resolved id |
| `Directors.Director.Begin` | director.go:60-77 | refused with DirectorAlreadyWorks once started; afterwards started is true, and the registry is unchanged by the override pass |
| `Directors.Director.Wait` | director.go:80-87 | refused with DirectorNotWorks before start, accepted after |
| `Directors.Director.ExecWorker` | director.go:138-163 | the fan-out loop builds exactly the registered downstream dispatches in list order, each naming the stored workplace with that id; halts iff erred under stopOnError |
| `Directors.Director.ExecWorkerLoop` | director.go:98-113 | the loop strand driven by the loop controller makes exactly the loop-strand trace within the horizon |
| `Directors.Director.ExecWorkerWithTicker` | director.go:122-136 | a non-positive period panics in time.NewTicker before any call; otherwise the ticker strand over k ticks threads results like a loop strand of k rounds |
| `Directors.Director.ListenChannel` | director.go:172-180 | the event strand over a finite feed makes exactly the event-strand trace |
| `Directors.Director.ExecWorkplace` | director.go:89-96 | one loop trace, one trace per ticker period and one per event channel, each from the stored workplace; the run panics iff some ticker period is not positive, and that ticker makes no calls |
| `Directors.LifecycleScenario` | director.go:37-87 | register, then start, then wait are accepted; waiting before start and registering or starting after start are refused, and the refused registration does not change the registry |

## Left out

- Goroutines and wait groups are not modelled. This covers the launch fan-out in `Begin` (director.go:72-76), the blocking in `Wait` and the wait groups of workplace.go. Strands run one after another, each on its own input, and no interleaving is modelled.
- Downstream executions spawned by the fan-out are returned as `Dispatch` records and are not run. Nothing tracks them, as in the code.
- Real time is not modelled. `time.Sleep` on the delay rule and the ticker cadence are left out. The delay rule is a value that is never evaluated. The ticker period matters only through its sign: a non-positive one panics.
- The notification send is recorded as the `notified` flag. The send itself, which may block indefinitely when nobody receives, is not modelled.
- Event channels are finite sequences of received values, ending when the channel closes. A nil channel, which blocks forever, is not modelled.
- Context cancellation is not modelled: nothing in the director observes the root context.
- middleware.go (the status gauges and the timeout wrapper) is not part of this model. Its behaviour exists only under concurrent calls and real time.
- `uuidGen` calls an external UUID library. Its output is a parameter of the `Director` constructor.
- The read of `started` before the lock is taken (director.go:38, 61) is a data race. Only the sequential behaviour is modelled.
- A worker is a function of its context and arguments. A worker with internal state (one that counts its calls, say) is not modelled.
- Go `int` is taken to be 64 bits wide (`Workers.Int`), and `uint` likewise.
- `execWorker`'s two branches on `len(args) == 0` (director.go:143-147) call the worker the same way and are modelled as one call.
- Directors.Director.ExecWorkerLoop: an unbounded loop strand (negative repeat count) runs forever in the source. The model observes only its first `horizon` rounds.
- Directors.Director.ExecWorkerWithTicker: the ticker strand never ends on its own in the source. The model runs it for a given number of ticks. A panic is recorded as a flag; that it ends the whole process, cutting the other strands short, is not modelled.
- Workers.WithArgs: the stored first arguments are a snapshot. worker.go:80 stores the caller's slice itself, so a later write by the caller, or a worker writing into its `args` (director.go:146), can change the arguments the loop and ticker strands start from (director.go:101, 125). This aliasing is not modelled; the same holds for the slices `Next`, `Every` and `TriggenOn` append to.
