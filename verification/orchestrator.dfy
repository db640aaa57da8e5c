/** The plugin host: discovers component assemblies by file name, builds one
    component from each, connects every one to the single shared bus, and
    sequences their initialization and disposal. */
module Orchestrator {
  import opened Common
  import opened PathOrder

  type ComponentId = nat

  /** Identity of a bus instance; the host creates exactly one. */
  type BusId = nat

  /** The origin the host puts on its own log events. */
  const HostNamespace: string := "SensorMonitor.Host"

  /** The text in front of a load failure's exception, spelling included. */
  const LoadErrorPrefix: string := "Assembly.LoadFrom(dataAssemblyFullpath) / Exceptiuon : "

  /** The text logged when the host is told to stop. */
  const ShutdownNotice: string := "SIGINT Received"

  /** What trying to build a component from one candidate file gives: loading
      the assembly, finding its `Entry` type or running its parameterless
      constructor threw; the object built is not a component; or a component. */
  datatype Build = LoadThrows(error: string) | NotAComponent | Component(id: ComponentId)

  datatype Category = Comment | Info | Debug | Warning | Error

  /** A log event; the time stamp and the stack trace are left out. */
  datatype LogEvent = LogEvent(message: string, category: Category, origin: string)

  /** A component the host kept: built from `path`, connected to `bus`, and
      with its log events forwarded to the host's log. */
  datatype Attached = Attached(id: ComponentId, path: string, bus: BusId)

  /** The host.  `sinkAttached` says whether anyone listens on the host's
      `Log` event; `sink` is what that listener has received. */
  datatype Core = Core(
    bus: BusId,
    components: seq<Attached>,
    loopContinue: bool,
    sinkAttached: bool,
    sink: seq<LogEvent>)

  datatype AttachResult = AttachResult(found: bool, core: Core)

  /** What a component's `Initialize` does. */
  datatype InitOutcome = Ready | Refused | InitThrows(error: nat)

  /** The behaviour of one component: its `Initialize`, and the exception its
      `Dispose` throws, if any. */
  datatype Behaviour = Behaviour(init: InitOutcome, disposeThrows: Option<nat>)

  /** A lifecycle call the host makes on a component. */
  datatype Call = Initialize(id: ComponentId) | Dispose(id: ComponentId)

  /** How `Run` ends: an `Initialize` returned false; an exception escaped; it
      is still in the serve loop; or it disposed everything and returned. */
  datatype RunEnd = Refusal | Threw(error: Exn) | Serving | Completed

  datatype RunResult = RunResult(calls: seq<Call>, end: RunEnd)

  /** The host constructor: creates the bus, no components, the serve loop
      armed, nobody listening yet. */
  function NewCore(bus: BusId): (c: Core)
    ensures c.bus == bus && c.components == [] && c.loopContinue
    ensures !c.sinkAttached && c.sink == []
  {
    Core(bus, [], true, false, [])
  }

  /** A listener subscribes to the host's `Log` event. */
  function AddSink(c: Core): (r: Core)
    ensures r.sinkAttached && r.sink == c.sink
    ensures r.bus == c.bus && r.components == c.components && r.loopContinue == c.loopContinue
  {
    c.(sinkAttached := true)
  }

  /** Raising the host's `Log` event: it reaches the listener if there is one
      and is lost otherwise. */
  function Emit(c: Core, e: LogEvent): (r: Core)
    ensures r.sink == if c.sinkAttached then c.sink + [e] else c.sink
    ensures r.bus == c.bus && r.components == c.components
    ensures r.loopContinue == c.loopContinue && r.sinkAttached == c.sinkAttached
  {
    if c.sinkAttached then c.(sink := c.sink + [e]) else c
  }

  /** The components an attach pass keeps, in candidate order: one for each
      candidate that builds a component, connected to `bus`. */
  function Kept(candidates: seq<string>, build: string -> Build, bus: BusId): seq<Attached> {
    if candidates == [] then []
    else
      var rest := Kept(candidates[1..], build, bus);
      match build(candidates[0])
      case Component(id) => [Attached(id, candidates[0], bus)] + rest
      case _ => rest
  }

  /** The Error events an attach pass raises, in candidate order: one for
      each candidate whose build throws. */
  function LoadErrors(candidates: seq<string>, build: string -> Build): seq<LogEvent> {
    if candidates == [] then []
    else
      var rest := LoadErrors(candidates[1..], build);
      match build(candidates[0])
      case LoadThrows(e) => [LogEvent(LoadErrorPrefix + e, Error, HostNamespace)] + rest
      case _ => rest
  }

  /** One iteration of the attach loop. */
  function AttachOne(c: Core, path: string, build: string -> Build): Core {
    match build(path)
    case LoadThrows(e) => Emit(c, LogEvent(LoadErrorPrefix + e, Error, HostNamespace))
    case NotAComponent => c
    case Component(id) => c.(components := c.components + [Attached(id, path, c.bus)])
  }

  /** The attach loop over the candidates in order: it appends exactly the
      kept components and raises exactly the load errors, and changes nothing
      else. */
  function AttachAll(c: Core, candidates: seq<string>, build: string -> Build): (r: Core)
    decreases |candidates|
    ensures r.bus == c.bus && r.loopContinue == c.loopContinue && r.sinkAttached == c.sinkAttached
    ensures r.components == c.components + Kept(candidates, build, c.bus)
    ensures r.sink == c.sink + (if c.sinkAttached then LoadErrors(candidates, build) else [])
  {
    if candidates == [] then c
    else
      var c1 := AttachOne(c, candidates[0], build);
      var r := AttachAll(c1, candidates[1..], build);
      match build(candidates[0])
      case LoadThrows(e) =>
        AppendAssoc(c.sink, [LogEvent(LoadErrorPrefix + e, Error, HostNamespace)], LoadErrors(candidates[1..], build));
        r
      case NotAComponent => r
      case Component(id) =>
        AppendAssoc(c.components, [Attached(id, candidates[0], c.bus)], Kept(candidates[1..], build, c.bus));
        r
  }

  /** `Attach`: the sorted candidates; none is "no components" (false,
      nothing attached); otherwise every candidate is tried and the answer is
      true, however many failed. */
  function Attach(c: Core, files: seq<string>, matches: string -> bool, build: string -> Build): (r: AttachResult)
    ensures r.found <==> exists i :: 0 <= i < |files| && matches(files[i])
    ensures !r.found ==> r.core == c
    ensures r.core.bus == c.bus && r.core.loopContinue == c.loopContinue && r.core.sinkAttached == c.sinkAttached
    ensures r.core.components == c.components + Kept(Candidates(files, matches), build, c.bus)
    ensures r.core.sink == c.sink + (if c.sinkAttached then LoadErrors(Candidates(files, matches), build) else [])
  {
    var candidates := Candidates(files, matches);
    if candidates == [] then
      assert c.components + [] == c.components && c.sink + [] == c.sink;
      AttachResult(false, c)
    else AttachResult(true, AttachAll(c, candidates, build))
  }

  /** The handler the host hangs on each kept component's `Log` event: the
      event is raised again, unchanged, on the host's own `Log`. */
  function ForwardComponentLog(c: Core, from: Attached, e: LogEvent): (r: Core)
    ensures from in c.components && c.sinkAttached ==> r.sink == c.sink + [e]
    ensures !(from in c.components && c.sinkAttached) ==> r.sink == c.sink
    ensures r.components == c.components && r.loopContinue == c.loopContinue
    ensures r.bus == c.bus && r.sinkAttached == c.sinkAttached
    ensures from in c.components ==> r == Emit(c, e)
  {
    if from in c.components then Emit(c, e) else c
  }

  /** `Core.Dispose`, run on the signal: one Info event, and the serve loop
      is told to stop. */
  function Shutdown(c: Core): (r: Core)
    ensures !r.loopContinue
    ensures r.components == c.components && r.bus == c.bus && r.sinkAttached == c.sinkAttached
    ensures r.sink == if c.sinkAttached then c.sink + [LogEvent(ShutdownNotice, Info, HostNamespace)] else c.sink
  {
    Emit(c, LogEvent(ShutdownNotice, Info, HostNamespace)).(loopContinue := false)
  }

  /** One `Initialize` call per component, in list order. */
  function InitCalls(cs: seq<Attached>): (r: seq<Call>)
    ensures |r| == |cs| && forall k :: 0 <= k < |cs| ==> r[k] == Initialize(cs[k].id)
  {
    seq(|cs|, k requires 0 <= k < |cs| => Initialize(cs[k].id))
  }

  /** One `Dispose` call per component, in list order. */
  function DisposeCalls(cs: seq<Attached>): (r: seq<Call>)
    ensures |r| == |cs| && forall k :: 0 <= k < |cs| ==> r[k] == Dispose(cs[k].id)
  {
    seq(|cs|, k requires 0 <= k < |cs| => Dispose(cs[k].id))
  }

  /** How a list relates to its tail: what both per-component loops need when
      they recurse past the first component. */
  lemma TailSlices(cs: seq<Attached>, n: nat)
    requires n < |cs|
    ensures forall k :: 1 <= k < |cs| ==> cs[k] == cs[1..][k - 1]
    ensures cs[..n + 1] == [cs[0]] + cs[1..][..n]
  {
  }

  /** The calls made on a list's first `n + 1` components are the call on
      its head followed by the calls on its tail's first `n`. */
  lemma CallsCons(cs: seq<Attached>, n: nat)
    requires n < |cs|
    ensures InitCalls(cs[..n + 1]) == [Initialize(cs[0].id)] + InitCalls(cs[1..][..n])
    ensures DisposeCalls(cs[..n + 1]) == [Dispose(cs[0].id)] + DisposeCalls(cs[1..][..n])
  {
    TailSlices(cs, n);
  }

  /** The first loop of `Run`: `Initialize` on each component in order,
      stopping at the first that returns false or throws. */
  function InitializeAll(cs: seq<Attached>, behave: ComponentId -> Behaviour): (r: RunResult)
    decreases |cs|
    ensures |r.calls| <= |cs| && r.calls == InitCalls(cs[..|r.calls|])
    ensures r.end == Completed || r.end == Refusal || r.end.Threw?
    ensures r.end == Completed <==> forall k :: 0 <= k < |cs| ==> behave(cs[k].id).init == Ready
    ensures r.end == Completed ==> |r.calls| == |cs|
    ensures r.end != Completed ==> (|r.calls| > 0
      && forall k :: 0 <= k < |r.calls| - 1 ==> behave(cs[k].id).init == Ready)
    ensures r.end == Refusal ==> behave(cs[|r.calls| - 1].id).init == Refused
    ensures r.end.Threw? ==> r.end.error.Raised? && |r.calls| > 0
    ensures r.end.Threw? ==> behave(cs[|r.calls| - 1].id).init == InitThrows(r.end.error.id)
  {
    if cs == [] then RunResult([], Completed)
    else
      match behave(cs[0].id).init
      case Refused => RunResult([Initialize(cs[0].id)], Refusal)
      case InitThrows(e) => RunResult([Initialize(cs[0].id)], Threw(Raised(e)))
      case Ready =>
        var rest := InitializeAll(cs[1..], behave);
        TailSlices(cs, |rest.calls|);
        CallsCons(cs, |rest.calls|);
        RunResult([Initialize(cs[0].id)] + rest.calls, rest.end)
  }

  /** The last loop of `Run`: `Dispose` on each component in order.  Nothing
      catches an exception from a `Dispose`, so it ends the loop. */
  function DisposeAll(cs: seq<Attached>, behave: ComponentId -> Behaviour): (r: RunResult)
    decreases |cs|
    ensures |r.calls| <= |cs| && r.calls == DisposeCalls(cs[..|r.calls|])
    ensures r.end == Completed || r.end.Threw?
    ensures r.end == Completed <==> forall k :: 0 <= k < |cs| ==> behave(cs[k].id).disposeThrows.None?
    ensures r.end == Completed ==> |r.calls| == |cs|
    ensures r.end.Threw? ==> r.end.error.Raised? && |r.calls| > 0
    ensures r.end.Threw? ==> forall k :: 0 <= k < |r.calls| - 1 ==> behave(cs[k].id).disposeThrows.None?
    ensures r.end.Threw? ==> behave(cs[|r.calls| - 1].id).disposeThrows == Some(r.end.error.id)
  {
    if cs == [] then RunResult([], Completed)
    else
      match behave(cs[0].id).disposeThrows
      case Some(e) => RunResult([Dispose(cs[0].id)], Threw(Raised(e)))
      case None =>
        var rest := DisposeAll(cs[1..], behave);
        TailSlices(cs, |rest.calls|);
        CallsCons(cs, |rest.calls|);
        RunResult([Dispose(cs[0].id)] + rest.calls, rest.end)
  }

  /** `Run`: initialize everything in order and give up at the first failure;
      otherwise wait in the serve loop while the loop flag is set, and once it
      is clear dispose everything in order. */
  function Run(c: Core, behave: ComponentId -> Behaviour): (r: RunResult)
    ensures (exists k :: 0 <= k < |r.calls| && r.calls[k].Dispose?) ==>
      !c.loopContinue && forall k :: 0 <= k < |c.components| ==> behave(c.components[k].id).init == Ready
    ensures r.end == Serving <==>
      c.loopContinue && forall k :: 0 <= k < |c.components| ==> behave(c.components[k].id).init == Ready
    ensures r.end == Serving ==> r.calls == InitCalls(c.components)
    ensures r.end == Refusal ==> exists k :: (0 <= k < |c.components|
      && behave(c.components[k].id).init == Refused && r.calls == InitCalls(c.components[..k + 1])
      && forall j :: 0 <= j < k ==> behave(c.components[j].id).init == Ready)
    ensures (!c.loopContinue && (forall k :: 0 <= k < |c.components| ==> behave(c.components[k].id).init == Ready)
      && (forall k :: 0 <= k < |c.components| ==> behave(c.components[k].id).disposeThrows.None?)) ==>
      r == RunResult(InitCalls(c.components) + DisposeCalls(c.components), Completed)
  {
    var init := InitializeAll(c.components, behave);
    if init.end != Completed then
      assert forall k :: 0 <= k < |init.calls| ==> !init.calls[k].Dispose?;
      assert init.end == Refusal ==> var k := |init.calls| - 1; c.components[..k + 1] == c.components[..|init.calls|];
      init
    else if c.loopContinue then
      assert c.components[..|init.calls|] == c.components;
      RunResult(init.calls, Serving)
    else
      assert c.components[..|init.calls|] == c.components;
      var d := DisposeAll(c.components, behave);
      assert d.end == Completed ==> c.components[..|d.calls|] == c.components;
      RunResult(init.calls + d.calls, d.end)
  }
}
