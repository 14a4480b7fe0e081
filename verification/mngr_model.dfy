/** The apps manager as a pure state machine: the registry, the run/idle
    machine, the "with topo" wrapper, the repair ticker and the status timing
    gates. Every operation maps the manager state and the answers of its
    collaborators (`Env`) to the new state and the list of collaborator
    actions it performed. The class in module Mngr is proved against these
    functions. */
module MngrModel {
  import opened Results
  import opened MngrH

  /** Flash period of the green heartbeat LED. */
  const HEARTBEAT_MS := 500
  /** Time between two repair steps. */
  const REPAIR_MS := 250
  /** Time an app stays in error before NEXTONERR moves on. */
  const ERROR_MS := 10000

  /** C's `isalnum` in the "C" locale. */
  predicate IsAlnum(c: char) {
    ('0' <= c <= '9') || ('A' <= c <= 'Z') || ('a' <= c <= 'z')
  }

  predicate IsAlnumName(s: string) {
    forall i :: 0 <= i < |s| ==> IsAlnum(s[i])
  }

  /** One registration slot. The three lifecycle handlers are identified by the
      slot itself; `hasCmd` says whether a configuration plugin is present. */
  datatype App = App(name: string, oled: string, xlbl: string, ylbl: string,
                     flags: bv32, hasCmd: bool, help: Option<string>)

  /** What registration asserts about a descriptor, besides a free slot. */
  predicate Registrable(a: App) {
    && a.hasCmd == a.help.Some?
    && FlagsKnown(a.flags)
    && IsAlnumName(a.name)
  }

  /** The always-registered app at index 0: no flags, no plugin. */
  const VoidApp := App("voidapp", "USB command", "--", "--", FLAGS_NONE, false, None)

  /** The "with topo" wrapper's state and its latched error. */
  datatype WrapState = TopoBuild | AppAnim | WrapError
  datatype Wrapper = Wrapper(state: WrapState, error: AoResult)

  /** The manager's global state; `apps` holds the `count` registered slots. */
  datatype Mngr = Mngr(apps: seq<App>, appix: int, running: bool, result: AoResult,
                       lastGrn: int, lastRepair: int, lastError: int, wrap: Wrapper)

  /** The clock and what the collaborators answer during one manager call. */
  datatype Env = Env(now: int, appStart: AoResult, appStep: AoResult,
                     topoDone: bool, topoStep: AoResult,
                     clrError: AoResult, goActive: AoResult)

  /** An action the manager performs on a collaborator. */
  datatype Call = AppStart(ix: int) | AppStep(ix: int) | AppStop(ix: int) | AppCmd(ix: int)
                | TopoBuildStart | TopoBuildStep | ClrError | GoActive

  datatype Outcome = Outcome(m: Mngr, calls: seq<Call>)
  datatype WrapOutcome = WrapOutcome(w: Wrapper, r: AoResult, calls: seq<Call>)
  datatype RepairOutcome = RepairOutcome(r: AoResult, lastRepair: int, calls: seq<Call>)

  /** The invariant the manager keeps after init: the voidapp in slot 0, every
      slot passed registration, the current index in range, and an ERROR state
      of the wrapper always holds a real error. */
  ghost predicate Valid(m: Mngr) {
    && 1 <= |m.apps| <= REGISTRATION_SLOTS
    && m.apps[0] == VoidApp
    && (forall i :: 0 <= i < |m.apps| ==> Registrable(m.apps[i]))
    && 0 <= m.appix < |m.apps|
    && (m.wrap.state == WrapError ==> m.wrap.error != Ok)
  }

  predicate HasTopo(m: Mngr)
    requires 0 <= m.appix < |m.apps|
  {
    HasFlag(m.apps[m.appix].flags, FLAGS_WITHTOPO)
  }

  // === registry ============================================================

  /** `aoapps_mngr_init`: only the voidapp, current but not running, no error.
      The wrapper keeps its zero-initialised state. */
  function Init(now: int): (m: Mngr)
    ensures Valid(m)
    ensures m.apps == [VoidApp] && m.appix == 0 && !m.running && m.result == Ok
  {
    Mngr([VoidApp], 0, false, Ok, now, now, now, Wrapper(TopoBuild, Ok))
  }

  /** `aoapps_mngr_register`: the descriptor takes slot `count`, nothing else changes. */
  function Register(m: Mngr, a: App): (m': Mngr)
    requires Valid(m) && |m.apps| < REGISTRATION_SLOTS && Registrable(a)
    ensures Valid(m')
    ensures |m'.apps| == |m.apps| + 1 && m'.apps[|m.apps|] == a
    ensures forall i :: 0 <= i < |m.apps| ==> m'.apps[i] == m.apps[i]
    ensures m' == m.(apps := m'.apps)
  {
    m.(apps := m.apps + [a])
  }

  // === status and repair ===================================================

  /** `aoapps_mngr_showstatus` without the LEDs and text: while an error is
      latched it stamps `lastError`; otherwise it restarts the heartbeat
      period once it has run out. It never changes the result. */
  function ShowStatus(m: Mngr, now: int): (m': Mngr)
    ensures m' == m.(lastError := m'.lastError, lastGrn := m'.lastGrn)
    ensures m.result != Ok ==> m'.lastError == now && m'.lastGrn == m.lastGrn
    ensures m.result == Ok ==> m'.lastError == m.lastError
    ensures m'.lastGrn != m.lastGrn ==> m.result == Ok && now - m.lastGrn > HEARTBEAT_MS && m'.lastGrn == now
  {
    if m.result != Ok then m.(lastError := now)
    else if now - m.lastGrn > HEARTBEAT_MS then m.(lastGrn := now)
    else m
  }

  /** `aoapps_mngr_repair`: when more than REPAIR_MS passed, send clrerror then
      goactive, stopping at the first failure; the time stamp moves only when
      both succeeded. */
  function Repair(lastRepair: int, env: Env): (o: RepairOutcome)
    ensures env.now - lastRepair <= REPAIR_MS ==> o == RepairOutcome(Ok, lastRepair, [])
    ensures env.now - lastRepair > REPAIR_MS ==> |o.calls| >= 1 && o.calls[0] == ClrError
    ensures GoActive in o.calls ==> env.clrError == Ok
    ensures o.r != Ok ==> o.lastRepair == lastRepair
                          && o.r == (if env.clrError != Ok then env.clrError else env.goActive)
    ensures o.lastRepair != lastRepair <==>
              env.now - lastRepair > REPAIR_MS && env.clrError == Ok && env.goActive == Ok
    ensures o.lastRepair == lastRepair || o.lastRepair == env.now
  {
    if env.now - lastRepair > REPAIR_MS then
      if env.clrError != Ok then RepairOutcome(env.clrError, lastRepair, [ClrError])
      else if env.goActive != Ok then RepairOutcome(env.goActive, lastRepair, [ClrError, GoActive])
      else RepairOutcome(Ok, env.now, [ClrError, GoActive])
    else RepairOutcome(Ok, lastRepair, [])
  }

  // === the "with topo" wrapper =============================================

  /** `aoapps_mngr_startwithtopo`: trigger the scan, report ok at once. */
  function StartWithTopo(): WrapOutcome {
    WrapOutcome(Wrapper(TopoBuild, Ok), Ok, [TopoBuildStart])
  }

  /** `aoapps_mngr_stepwithtopo` for the app in slot `ix`. */
  function StepWithTopo(w: Wrapper, ix: int, env: Env): (o: WrapOutcome)
    ensures w.state == WrapError ==> o == WrapOutcome(w, w.error, [])
    ensures w.state == TopoBuild && !env.topoDone ==>
              o.r == Ok && o.calls == [TopoBuildStep] && o.w.error == env.topoStep
              && (o.w.state == WrapError <==> env.topoStep != Ok)
              && (o.w.state != WrapError ==> o.w.state == TopoBuild)
    ensures w.state == TopoBuild && env.topoDone ==>
              o.calls == [AppStart(ix)] && o.r == env.appStart && o.w == Wrapper(AppAnim, env.appStart)
    ensures w.state == AppAnim ==>
              o.calls == [AppStep(ix)] && o.r == env.appStep && o.w.error == env.appStep
              && (o.w.state == WrapError <==> env.appStep != Ok)
              && (o.w.state != WrapError ==> o.w.state == AppAnim)
    ensures (w.state == WrapError ==> w.error != Ok) ==> (o.w.state == WrapError ==> o.w.error != Ok)
  {
    match w.state
    case TopoBuild =>
      if !env.topoDone then
        WrapOutcome(Wrapper(if env.topoStep != Ok then WrapError else TopoBuild, env.topoStep),
                    Ok, [TopoBuildStep])
      else
        // the state set on a failed start is overwritten by APPANIM right after
        WrapOutcome(Wrapper(AppAnim, env.appStart), env.appStart, [AppStart(ix)])
    case AppAnim =>
      WrapOutcome(Wrapper(if env.appStep != Ok then WrapError else AppAnim, env.appStep),
                  env.appStep, [AppStep(ix)])
    case WrapError =>
      WrapOutcome(w, w.error, [])
  }

  // === run/idle machine ====================================================

  /** `aoapps_mngr_start(ix)`: make `ix` current and running, latch what its
      start (or the wrapper's start) reports. Running even if that failed. */
  function Start(m: Mngr, ix: int, env: Env): (o: Outcome)
    requires Valid(m) && !m.running && 0 <= ix < |m.apps|
    ensures Valid(o.m) && o.m.running && o.m.appix == ix && o.m.apps == m.apps
    ensures o.m.result == (if HasFlag(m.apps[ix].flags, FLAGS_WITHTOPO) then Ok else env.appStart)
    ensures o.calls == (if HasFlag(m.apps[ix].flags, FLAGS_WITHTOPO) then [TopoBuildStart] else [AppStart(ix)])
    ensures o.m.wrap == (if HasFlag(m.apps[ix].flags, FLAGS_WITHTOPO) then Wrapper(TopoBuild, Ok) else m.wrap)
    ensures o.m.lastGrn == env.now && o.m.lastRepair == m.lastRepair
    ensures o.m.lastError == (if o.m.result != Ok then env.now else m.lastError)
  {
    var current := m.(appix := ix, running := true, lastGrn := env.now);
    var started :=
      if HasFlag(m.apps[ix].flags, FLAGS_WITHTOPO) then
        var t := StartWithTopo();
        Outcome(current.(result := t.r, wrap := t.w), t.calls)
      else
        Outcome(current.(result := env.appStart), [AppStart(ix)]);
    Outcome(ShowStatus(started.m, env.now), started.calls)
  }

  /** `aoapps_mngr_stop`: call the app's stop (its errors are ignored) and go
      idle; the current index and the latched result stay. */
  function Stop(m: Mngr): (o: Outcome)
    requires Valid(m) && m.running
    ensures Valid(o.m) && !o.m.running
    ensures o.m == m.(running := false)
    ensures o.calls == [AppStop(m.appix)]
  {
    Outcome(m.(running := false), [AppStop(m.appix)])
  }

  /** `aoapps_mngr_switch(ix)`: stop, then start `ix`. */
  function Switch(m: Mngr, ix: int, env: Env): (o: Outcome)
    requires Valid(m) && m.running && 0 <= ix < |m.apps|
    ensures Valid(o.m) && o.m.running && o.m.appix == ix && o.m.apps == m.apps
    ensures |o.calls| == 2 && o.calls[0] == AppStop(m.appix)
    ensures o.m.result == (if HasFlag(m.apps[ix].flags, FLAGS_WITHTOPO) then Ok else env.appStart)
  {
    var stopped := Stop(m);
    var started := Start(stopped.m, ix, env);
    Outcome(started.m, stopped.calls + started.calls)
  }

  /** The target of `aoapps_mngr_switchnext`: `appix % (count-1) + 1`. The C
      remainder agrees with Dafny's for the non-negative `appix`. */
  function NextAppix(appix: int, count: int): (r: int)
    requires count >= 2 && appix >= 0
    ensures 1 <= r < count
    ensures appix < count - 1 ==> r == appix + 1
    ensures appix == count - 1 ==> r == 1
  {
    appix % (count - 1) + 1
  }

  /** `aoapps_mngr_switchnext`: switch to the next app, skipping the voidapp. */
  function SwitchNext(m: Mngr, env: Env): (o: Outcome)
    requires Valid(m) && m.running && |m.apps| >= 2
    ensures Valid(o.m) && o.m.running && o.m.appix == NextAppix(m.appix, |m.apps|)
    ensures o.m.appix != 0
  {
    Switch(m, NextAppix(m.appix, |m.apps|), env)
  }

  /** An app with NEXTONERR is never the voidapp, so the manager holds at least
      two apps and the division in `switchnext` is safe. */
  lemma NextOnErrImpliesTwoApps(m: Mngr)
    requires Valid(m) && HasFlag(m.apps[m.appix].flags, FLAGS_NEXTONERR)
    ensures m.appix != 0 && |m.apps| >= 2
  {
  }

  /** The step of the current app, directly or through the wrapper. */
  function AppStepOf(m: Mngr, env: Env): (o: WrapOutcome)
    requires 0 <= m.appix < |m.apps|
  {
    if HasTopo(m) then StepWithTopo(m.wrap, m.appix, env)
    else WrapOutcome(m.wrap, env.appStep, [AppStep(m.appix)])
  }

  /** `aoapps_mngr_step`. With an error latched nothing is stepped; only the
      NEXTONERR timeout may switch on. Otherwise step the app, run the repair
      ticker after an ok step when WITHREPAIR is set, and update the status. */
  function Step(m: Mngr, env: Env): (o: Outcome)
    requires Valid(m) && m.running
    ensures Valid(o.m) && o.m.running && o.m.apps == m.apps
  {
    if m.result != Ok then
      if HasFlag(m.apps[m.appix].flags, FLAGS_NEXTONERR) && env.now - m.lastError > ERROR_MS then
        NextOnErrImpliesTwoApps(m);
        SwitchNext(m, env)
      else
        Outcome(m, [])
    else
      var stepped := AppStepOf(m, env);
      var m1 := m.(result := stepped.r, wrap := stepped.w);
      var repaired :=
        if stepped.r == Ok && HasFlag(m.apps[m.appix].flags, FLAGS_WITHREPAIR) then
          var rep := Repair(m.lastRepair, env);
          Outcome(m1.(result := rep.r, lastRepair := rep.lastRepair), stepped.calls + rep.calls)
        else
          Outcome(m1, stepped.calls);
      Outcome(ShowStatus(repaired.m, env.now), repaired.calls)
  }

  /** The manager stepped once per clock/collaborator snapshot in `envs`. */
  function Run(m: Mngr, envs: seq<Env>): (o: Outcome)
    requires Valid(m) && m.running
    ensures Valid(o.m) && o.m.running && o.m.apps == m.apps
    decreases |envs|
  {
    if envs == [] then Outcome(m, [])
    else
      var first := Step(m, envs[0]);
      var rest := Run(first.m, envs[1..]);
      Outcome(rest.m, first.calls + rest.calls)
  }

  // === properties ==========================================================

  /** NEXTONERR is set and the error has been latched for more than ERROR_MS. */
  predicate TimeoutDue(m: Mngr, env: Env)
    requires 0 <= m.appix < |m.apps|
  {
    HasFlag(m.apps[m.appix].flags, FLAGS_NEXTONERR) && env.now - m.lastError > ERROR_MS
  }

  /** With an error latched a step calls neither the app nor the wrapper and
      changes nothing, unless the NEXTONERR timeout is due; then it switches to
      the next app, which starts afresh. */
  lemma StepWithLatchedError(m: Mngr, env: Env)
    requires Valid(m) && m.running && m.result != Ok
    ensures !TimeoutDue(m, env) ==> Step(m, env) == Outcome(m, [])
    ensures TimeoutDue(m, env) ==> Step(m, env) == SwitchNext(m, env)
    ensures TimeoutDue(m, env) ==>
              var o := Step(m, env);
              var next := NextAppix(m.appix, |m.apps|);
              && o.m.appix == next && o.calls[0] == AppStop(m.appix)
              && o.m.result == (if HasFlag(m.apps[next].flags, FLAGS_WITHTOPO) then Ok else env.appStart)
              && AppStep(m.appix) !in o.calls && TopoBuildStep !in o.calls
  {
    if TimeoutDue(m, env) {
      NextOnErrImpliesTwoApps(m);
      var o := Step(m, env);
      var next := NextAppix(m.appix, |m.apps|);
      assert o.calls == [AppStop(m.appix)] + Start(Stop(m).m, next, env).calls;
    }
  }

  /** Freeze on fault: as long as the NEXTONERR timeout is not due, any number
      of steps leaves the manager exactly as it was and calls nothing. */
  lemma {:induction false} ErrorFreezes(m: Mngr, envs: seq<Env>)
    requires Valid(m) && m.running && m.result != Ok
    requires forall i :: 0 <= i < |envs| ==> !TimeoutDue(m, envs[i])
    ensures Run(m, envs) == Outcome(m, [])
    decreases |envs|
  {
    if envs != [] {
      StepWithLatchedError(m, envs[0]);
      ErrorFreezes(m, envs[1..]);
    }
  }

  /** A step when no error is latched: the app (or wrapper) step decides the
      result; only an ok step is followed by the repair ticker. */
  lemma StepWhenOk(m: Mngr, env: Env)
    requires Valid(m) && m.running && m.result == Ok
    ensures var s := AppStepOf(m, env);
            var o := Step(m, env);
            && o.m.wrap == s.w && o.m.appix == m.appix
            && (s.r != Ok ==> o.m.result == s.r && o.calls == s.calls && o.m.lastError == env.now)
            && (s.r == Ok && !HasFlag(m.apps[m.appix].flags, FLAGS_WITHREPAIR) ==>
                  o.m.result == Ok && o.calls == s.calls)
            && (s.r == Ok && HasFlag(m.apps[m.appix].flags, FLAGS_WITHREPAIR) ==>
                  o.m.result == Repair(m.lastRepair, env).r
                  && o.calls == s.calls + Repair(m.lastRepair, env).calls
                  && o.m.lastRepair == Repair(m.lastRepair, env).lastRepair)
  {
  }

  // --- switchnext cycles through 1..count-1 --------------------------------

  /** The index reached after `k` calls of switchnext starting at `ix`. */
  function NextIter(ix: int, count: int, k: nat): (r: int)
    requires count >= 2 && 0 <= ix < count
    ensures 0 <= r < count
    ensures k >= 1 ==> r != 0
    decreases k
  {
    if k == 0 then ix else NextIter(NextAppix(ix, count), count, k - 1)
  }

  lemma {:induction false} NextIterUp(j: int, count: int, k: nat)
    requires count >= 2 && 1 <= j && j + k <= count - 1
    ensures NextIter(j, count, k) == j + k
    decreases k
  {
    if k > 0 {
      NextIterUp(j + 1, count, k - 1);
    }
  }

  /** From the voidapp, switchnext visits 1, 2, ..., count-1 in order. */
  lemma {:induction false} NextIterVisitsInOrder(count: int, k: nat)
    requires count >= 2 && 1 <= k <= count - 1
    ensures NextIter(0, count, k) == k
  {
    assert NextIter(0, count, k) == NextIter(1, count, k - 1);
    NextIterUp(1, count, k - 1);
  }

  lemma {:induction false} NextIterAdd(ix: int, count: int, a: nat, b: nat)
    requires count >= 2 && 0 <= ix < count
    ensures NextIter(ix, count, a + b) == NextIter(NextIter(ix, count, a), count, b)
    decreases a
  {
    if a > 0 {
      NextIterAdd(NextAppix(ix, count), count, a - 1, b);
    }
  }

  /** ... and then starts over at 1: the visiting order repeats with period
      count-1 and index 0 is never reached again. */
  lemma {:induction false} NextIterPeriodic(count: int, k: nat)
    requires count >= 2 && k >= 1
    ensures NextIter(0, count, (count - 1) + k) == NextIter(0, count, k)
    ensures NextIter(0, count, k) != 0
  {
    NextIterAdd(0, count, count - 1, k);
    NextIterVisitsInOrder(count, count - 1);
    assert NextIter(count - 1, count, k) == NextIter(1, count, k - 1);
    assert NextIter(0, count, k) == NextIter(1, count, k - 1);
  }

  // --- the "with topo" wrapper ---------------------------------------------

  /** A failed scan step is reported one call late: the manager's step that ran
      it latches no error (and even runs the repair ticker), the wrapper moves to
      ERROR, and the next step surfaces the scan error without calling anything. */
  lemma ScanFailureSurfacesLate(m: Mngr, e1: Env, e2: Env)
    requires Valid(m) && m.running && m.result == Ok && HasTopo(m) && m.wrap.state == TopoBuild
    requires !e1.topoDone && e1.topoStep != Ok
    ensures var o1 := Step(m, e1);
            && o1.m.wrap == Wrapper(WrapError, e1.topoStep)
            && o1.m.result == (if HasFlag(m.apps[m.appix].flags, FLAGS_WITHREPAIR)
                               then Repair(m.lastRepair, e1).r else Ok)
            && o1.calls[0] == TopoBuildStep
    ensures var o1 := Step(m, e1);
            o1.m.result == Ok ==> Step(o1.m, e2) == Outcome(o1.m.(result := e1.topoStep, lastError := e2.now), [])
  {
    StepWhenOk(m, e1);
    var o1 := Step(m, e1);
    if o1.m.result == Ok {
      StepWhenOk(o1.m, e2);
    }
  }

  /** After a failed app start inside the wrapper the state is APPANIM, not
      ERROR (the ERROR assignment is overwritten), but the failure is latched by
      the manager, so the app's step is never called: the difference cannot be
      observed. */
  lemma FailedAppStartFreezes(m: Mngr, e1: Env, e2: Env)
    requires Valid(m) && m.running && m.result == Ok && HasTopo(m) && m.wrap.state == TopoBuild
    requires e1.topoDone && e1.appStart != Ok
    ensures var o1 := Step(m, e1);
            && o1.m.wrap == Wrapper(AppAnim, e1.appStart)
            && o1.m.result == e1.appStart
            && o1.calls == [AppStart(m.appix)]
    ensures AppStep(m.appix) !in Step(Step(m, e1).m, e2).calls
  {
    StepWhenOk(m, e1);
    var o1 := Step(m, e1);
    StepWithLatchedError(o1.m, e2);
  }

  function Repeat<T>(x: T, n: nat): (s: seq<T>)
    ensures |s| == n
    ensures forall i :: 0 <= i < n ==> s[i] == x
  {
    if n == 0 then [] else [x] + Repeat(x, n - 1)
  }

  /** The wrapper stepped once per snapshot in `envs`; `r` is the last result. */
  function WrapRun(w: Wrapper, ix: int, envs: seq<Env>): (o: WrapOutcome)
    decreases |envs|
  {
    if envs == [] then WrapOutcome(w, Ok, [])
    else
      var first := StepWithTopo(w, ix, envs[0]);
      var rest := WrapRun(first.w, ix, envs[1..]);
      WrapOutcome(rest.w, if |envs| == 1 then first.r else rest.r, first.calls + rest.calls)
  }

  /** Topology gating: with a scan that reports "not done" for k polls and then
      "done", the wrapper makes k scan steps and then calls the app's start
      exactly once, and reports that start's result. */
  lemma {:induction false} TopoGating(err: AoResult, ix: int, envs: seq<Env>, k: nat)
    requires |envs| == k + 1
    requires forall i :: 0 <= i < k ==> !envs[i].topoDone && envs[i].topoStep == Ok
    requires envs[k].topoDone
    ensures var o := WrapRun(Wrapper(TopoBuild, err), ix, envs);
            && o.calls == Repeat(TopoBuildStep, k) + [AppStart(ix)]
            && o.r == envs[k].appStart
            && o.w == Wrapper(AppAnim, envs[k].appStart)
    decreases k
  {
    if k > 0 {
      TopoGating(Ok, ix, envs[1..], k - 1);
      assert Repeat(TopoBuildStep, k) == [TopoBuildStep] + Repeat(TopoBuildStep, k - 1);
    }
  }

  // --- repair cadence ------------------------------------------------------

  datatype Ticks = Ticks(count: nat, last: int)

  /** The repair ticker tried once per snapshot in `envs`; `count` repairs completed. */
  function RepairTicks(last: int, envs: seq<Env>): Ticks
    decreases |envs|
  {
    if envs == [] then Ticks(0, last)
    else
      var o := Repair(last, envs[0]);
      var rest := RepairTicks(o.lastRepair, envs[1..]);
      if o.lastRepair != last then Ticks(rest.count + 1, rest.last) else rest
  }

  /** Repair cadence: completed repairs are more than REPAIR_MS apart, so up to
      time `t` at most (t - last) / (REPAIR_MS + 1) of them happen, however often
      the ticker is called. */
  lemma {:induction false} RepairCadence(last: int, envs: seq<Env>, t: int)
    requires forall i :: 0 <= i < |envs| ==> envs[i].now <= t
    ensures var r := RepairTicks(last, envs);
            && r.last >= last + (REPAIR_MS + 1) * r.count
            && (r.count == 0 ==> r.last == last)
            && (r.count > 0 ==> r.last <= t)
            && (REPAIR_MS + 1) * r.count <= (if t > last then t - last else 0)
    decreases |envs|
  {
    if envs != [] {
      var o := Repair(last, envs[0]);
      RepairCadence(o.lastRepair, envs[1..], t);
    }
  }
}
