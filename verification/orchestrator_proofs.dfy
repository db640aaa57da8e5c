/** Properties of the plugin host: what an attach pass keeps and logs, in
    which order, and how `Run` sequences the lifecycle calls. */
module OrchestratorProofs {
  import opened Common
  import opened PathOrder
  import opened Orchestrator

  /** Keeping works candidate by candidate: over a split candidate list the
      kept components are those of the front followed by those of the back. */
  lemma {:induction false} KeptDistributes(a: seq<string>, b: seq<string>, build: string -> Build, bus: BusId)
    ensures Kept(a + b, build, bus) == Kept(a, build, bus) + Kept(b, build, bus)
  {
    if a == [] {
      assert a + b == b;
    } else {
      assert (a + b)[1..] == a[1..] + b;
      KeptDistributes(a[1..], b, build, bus);
    }
  }

  /** Logging works candidate by candidate, in the same way. */
  lemma {:induction false} LoadErrorsDistribute(a: seq<string>, b: seq<string>, build: string -> Build)
    ensures LoadErrors(a + b, build) == LoadErrors(a, build) + LoadErrors(b, build)
  {
    if a == [] {
      assert a + b == b;
    } else {
      assert (a + b)[1..] == a[1..] + b;
      LoadErrorsDistribute(a[1..], b, build);
    }
  }

  /** A single candidate: a throwing build gives exactly one Error event and
      no component; a non-component gives neither; a component gives exactly
      one kept entry, on the host's bus, and no event. */
  lemma SingleCandidate(f: string, build: string -> Build, bus: BusId)
    ensures build(f).LoadThrows? ==> Kept([f], build, bus) == []
    ensures build(f).LoadThrows? ==>
      LoadErrors([f], build) == [LogEvent(LoadErrorPrefix + build(f).error, Error, HostNamespace)]
    ensures build(f) == NotAComponent ==> Kept([f], build, bus) == [] && LoadErrors([f], build) == []
    ensures build(f).Component? ==> Kept([f], build, bus) == [Attached(build(f).id, f, bus)] && LoadErrors([f], build) == []
  {
    assert [f][1..] == [];
  }

  /** Every kept component was built from one of the candidates and is
      connected to the host's bus; and every candidate that builds a
      component is kept. */
  lemma {:induction false} KeptMembers(candidates: seq<string>, build: string -> Build, bus: BusId)
    ensures forall a :: a in Kept(candidates, build, bus) ==>
      a.bus == bus && a.path in candidates && build(a.path) == Component(a.id)
    ensures forall f :: f in candidates && build(f).Component? ==> Attached(build(f).id, f, bus) in Kept(candidates, build, bus)
  {
    if candidates != [] {
      KeptMembers(candidates[1..], build, bus);
      assert forall f :: f in candidates[1..] ==> f in candidates;
      assert forall f :: f in candidates ==> f == candidates[0] || f in candidates[1..];
    }
  }

  /** Components listed in ascending order of the paths they came from. */
  predicate PathsAscend(s: seq<Attached>) {
    forall i, j :: 0 <= i < j < |s| ==> LexLe(s[i].path, s[j].path)
  }

  /** Kept components come in the order of their paths when the candidates
      are sorted. */
  lemma {:induction false} KeptFollowsPathOrder(candidates: seq<string>, build: string -> Build, bus: BusId)
    requires Sorted(candidates)
    ensures PathsAscend(Kept(candidates, build, bus))
  {
    if candidates != [] {
      var rest := Kept(candidates[1..], build, bus);
      assert Sorted(candidates[1..]) by {
        forall i, j | 0 <= i < j < |candidates[1..]| ensures LexLe(candidates[1..][i], candidates[1..][j]) {
          assert candidates[1..][i] == candidates[i + 1] && candidates[1..][j] == candidates[j + 1];
        }
      }
      KeptFollowsPathOrder(candidates[1..], build, bus);
      KeptMembers(candidates[1..], build, bus);
      forall k | 0 <= k < |rest| ensures LexLe(candidates[0], rest[k].path) {
        assert rest[k] in rest;
        var j :| 0 <= j < |candidates[1..]| && candidates[1..][j] == rest[k].path;
        assert candidates[j + 1] == rest[k].path;
      }
      var kept := Kept(candidates, build, bus);
      if build(candidates[0]).Component? {
        assert kept == [Attached(build(candidates[0]).id, candidates[0], bus)] + rest;
        forall i, j | 0 <= i < j < |kept| ensures LexLe(kept[i].path, kept[j].path) {
          assert kept[j] == rest[j - 1];
          if i > 0 {
            assert kept[i] == rest[i - 1];
          } else {
            assert kept[0].path == candidates[0];
            assert LexLe(candidates[0], rest[j - 1].path);
          }
        }
      } else {
        assert kept == rest;
      }
    }
  }

  /** What one `Attach` adds: each new component comes from a listed file the
      pattern accepts and that built a component, is connected to the host's
      one bus, and they come in ascending path order; and every such file
      gives a new component. */
  lemma AttachedComponents(c: Core, files: seq<string>, matches: string -> bool, build: string -> Build)
    ensures var r := Attach(c, files, matches, build).core;
      var added := r.components[|c.components|..];
      && r.components == c.components + added
      && (forall a :: a in added ==>
            a.bus == c.bus && a.path in files && matches(a.path) && build(a.path) == Component(a.id))
      && PathsAscend(added)
      && (forall f :: f in files && matches(f) && build(f).Component? ==> Attached(build(f).id, f, c.bus) in added)
  {
    var candidates := Candidates(files, matches);
    var r := Attach(c, files, matches, build).core;
    assert r.components[|c.components|..] == Kept(candidates, build, c.bus);
    CandidatesAreMatchingFiles(files, matches);
    KeptMembers(candidates, build, c.bus);
    KeptFollowsPathOrder(candidates, build, c.bus);
  }

  /** The order components are attached in, and the errors logged, do not
      depend on the order the directory listing returned the files in. */
  lemma AttachIgnoresListingOrder(c: Core, files1: seq<string>, files2: seq<string>, matches: string -> bool, build: string -> Build)
    requires multiset(files1) == multiset(files2)
    ensures Attach(c, files1, matches, build) == Attach(c, files2, matches, build)
  {
    var m1 := Matching(files1, matches);
    var m2 := Matching(files2, matches);
    assert multiset(m1) == multiset(m2);
    SortIsCanonical(m1, m2);
  }

  /** Three candidates where the second fails to load: the first and the third
      are attached, in that order, and exactly one Error event is logged. */
  lemma SecondOfThreeFailsScenario(c: Core, build: string -> Build)
    requires c.sinkAttached
    requires build("a") == Component(1) && build("b") == LoadThrows("bad image") && build("c") == Component(3)
    ensures AttachAll(c, ["a", "b", "c"], build).components == c.components + [Attached(1, "a", c.bus), Attached(3, "c", c.bus)]
    ensures AttachAll(c, ["a", "b", "c"], build).sink == c.sink + [LogEvent(LoadErrorPrefix + "bad image", Error, HostNamespace)]
  {
    SingleCandidate("a", build, c.bus);
    SingleCandidate("b", build, c.bus);
    SingleCandidate("c", build, c.bus);
    KeptDistributes(["a"], ["b", "c"], build, c.bus);
    KeptDistributes(["b"], ["c"], build, c.bus);
    LoadErrorsDistribute(["a"], ["b", "c"], build);
    LoadErrorsDistribute(["b"], ["c"], build);
    assert ["a", "b", "c"] == ["a"] + (["b"] + ["c"]);
    assert ["b", "c"] == ["b"] + ["c"];
  }

  /** The console host subscribes to the host's log only after `Attach`, so
      the load errors of that first attach never reach it. */
  lemma ConsoleHostMissesAttachErrors(bus: BusId, files: seq<string>, matches: string -> bool, build: string -> Build)
    ensures AddSink(Attach(NewCore(bus), files, matches, build).core).sink == []
  {
  }

  /** How the initialize loop ends at a component that is not ready: a
      refusal, or the exception its `Initialize` throws. */
  function StopOf(b: Behaviour): RunEnd {
    match b.init
    case InitThrows(e) => Threw(Raised(e))
    case _ => Refusal
  }

  /** `InitializeAll` stops at the first component that refuses or throws,
      having called exactly the components up to and including it. */
  lemma {:induction false} InitializeAllStopsAt(cs: seq<Attached>, behave: ComponentId -> Behaviour, k: nat)
    requires k < |cs| && behave(cs[k].id).init != Ready
    requires forall j :: 0 <= j < k ==> behave(cs[j].id).init == Ready
    ensures InitializeAll(cs, behave) == RunResult(InitCalls(cs[..k + 1]), StopOf(behave(cs[k].id)))
  {
    if k == 0 {
      assert InitCalls(cs[..1]) == [Initialize(cs[0].id)];
    } else {
      assert behave(cs[0].id).init == Ready;
      assert forall j :: 0 <= j < k - 1 ==> cs[1..][j] == cs[j + 1];
      InitializeAllStopsAt(cs[1..], behave, k - 1);
      CallsCons(cs, k);
    }
  }

  /** An exception from any component's `Initialize` escapes `Run` at once:
      the components before it were initialized, none after it is, the serve
      loop is never entered and nothing is disposed. */
  lemma RunStopsAtFirstThrow(c: Core, behave: ComponentId -> Behaviour, k: nat, e: nat)
    requires k < |c.components| && behave(c.components[k].id).init == InitThrows(e)
    requires forall j :: 0 <= j < k ==> behave(c.components[j].id).init == Ready
    ensures Run(c, behave) == RunResult(InitCalls(c.components[..k + 1]), Threw(Raised(e)))
  {
    InitializeAllStopsAt(c.components, behave, k);
  }

  /** `Run` stops at the first component whose `Initialize` returns false:
      nothing after it is initialized, the serve loop is never entered and
      nothing is disposed. */
  lemma RunStopsAtFirstRefusal(c: Core, behave: ComponentId -> Behaviour, k: nat)
    requires k < |c.components| && behave(c.components[k].id).init == Refused
    requires forall j :: 0 <= j < k ==> behave(c.components[j].id).init == Ready
    ensures Run(c, behave) == RunResult(InitCalls(c.components[..k + 1]), Refusal)
  {
    InitializeAllStopsAt(c.components, behave, k);
  }

  /** With every component ready, `Run` stays in the serve loop while the loop
      flag is set; once `Core.Dispose` has cleared it, `Run` disposes every
      component in list order (stopping at a `Dispose` that throws). */
  lemma RunDisposesAfterShutdown(c: Core, behave: ComponentId -> Behaviour)
    requires c.loopContinue
    requires forall k :: 0 <= k < |c.components| ==> behave(c.components[k].id).init == Ready
    ensures Run(c, behave) == RunResult(InitCalls(c.components), Serving)
    ensures var d := DisposeAll(c.components, behave);
      Run(Shutdown(c), behave) == RunResult(InitCalls(c.components) + d.calls, d.end)
    ensures (forall k :: 0 <= k < |c.components| ==> behave(c.components[k].id).disposeThrows.None?) ==>
      Run(Shutdown(c), behave) == RunResult(InitCalls(c.components) + DisposeCalls(c.components), Completed)
  {
    var init := InitializeAll(c.components, behave);
    assert c.components[..|init.calls|] == c.components;
  }

  /** `DisposeAll` stops at the first `Dispose` that throws, having called
      exactly the components up to and including it. */
  lemma {:induction false} DisposeAllStopsAt(cs: seq<Attached>, behave: ComponentId -> Behaviour, k: nat)
    requires k < |cs| && behave(cs[k].id).disposeThrows.Some?
    requires forall j :: 0 <= j < k ==> behave(cs[j].id).disposeThrows.None?
    ensures DisposeAll(cs, behave) == RunResult(DisposeCalls(cs[..k + 1]), Threw(Raised(behave(cs[k].id).disposeThrows.value)))
  {
    if k == 0 {
      assert DisposeCalls(cs[..1]) == [Dispose(cs[0].id)];
    } else {
      assert behave(cs[0].id).disposeThrows.None?;
      assert forall j :: 0 <= j < k - 1 ==> cs[1..][j] == cs[j + 1];
      DisposeAllStopsAt(cs[1..], behave, k - 1);
      CallsCons(cs, k);
    }
  }

  /** A `Dispose` that throws ends `Run` there: the components after it are
      not disposed. */
  lemma DisposeThrowStopsDisposal(c: Core, behave: ComponentId -> Behaviour, k: nat)
    requires !c.loopContinue
    requires forall j :: 0 <= j < |c.components| ==> behave(c.components[j].id).init == Ready
    requires k < |c.components| && behave(c.components[k].id).disposeThrows.Some?
    requires forall j :: 0 <= j < k ==> behave(c.components[j].id).disposeThrows.None?
    ensures Run(c, behave) == RunResult(InitCalls(c.components) + DisposeCalls(c.components[..k + 1]),
                                        Threw(Raised(behave(c.components[k].id).disposeThrows.value)))
  {
    var init := InitializeAll(c.components, behave);
    assert init.end == Completed;
    assert c.components[..|init.calls|] == c.components;
    DisposeAllStopsAt(c.components, behave, k);
  }

  /** The components shipped with the host throw from `Initialize`: `Run`
      then makes exactly one call, to the first component, and the exception
      escapes before anything is disposed. */
  lemma ShippedComponentsScenario(c: Core, behave: ComponentId -> Behaviour, e: nat)
    requires |c.components| > 0
    requires forall k :: 0 <= k < |c.components| ==> behave(c.components[k].id).init == InitThrows(e)
    ensures Run(c, behave) == RunResult([Initialize(c.components[0].id)], Threw(Raised(e)))
  {
    var init := InitializeAll(c.components, behave);
    assert init.end != Completed;
    assert |init.calls| == 1;
  }
}
