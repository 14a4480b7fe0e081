/** The apps manager (aoapps_mngr.cpp) as the object the firmware keeps in
    file-level globals: the slot table, the current app, the run flag, the
    latched result, three time stamps and the "with topo" wrapper's state.
    Each method is proved to move `Model()` exactly as the function of the
    same name in MngrModel does. */
module Mngr {
  import opened Results
  import opened MngrH
  import opened MngrModel

  /** What an unused slot holds (the C table is zero-initialised). */
  const EmptySlot := App("", "", "", "", FLAGS_NONE, false, None)

  class AppManager {
    const slots: array<App>
    var count: nat
    var appix: int
    var running: bool
    var result: AoResult
    var lastGrn: int
    var lastRepair: int
    var lastError: int
    var wrapState: WrapState
    var wrapError: AoResult

    /** Well-formed at every point, also halfway through init. */
    ghost predicate Wf()
      reads this, slots
    {
      && slots.Length == REGISTRATION_SLOTS
      && count <= REGISTRATION_SLOTS
      && (forall i :: 0 <= i < count ==> Registrable(slots[i]))
      && 0 <= appix && (appix < count || appix == 0)
      && (wrapState == WrapError ==> wrapError != Ok)
    }

    /** The manager invariant, once init has registered the voidapp. */
    ghost predicate Valid()
      reads this, slots
    {
      Wf() && count >= 1 && slots[0] == VoidApp
    }

    function Model(): Mngr
      reads this, slots
      requires slots.Length == REGISTRATION_SLOTS && count <= REGISTRATION_SLOTS
    {
      Mngr(slots[..count], appix, running, result, lastGrn, lastRepair, lastError,
           Wrapper(wrapState, wrapError))
    }

    /** `aoapps_mngr_init`: empty the table, register the voidapp, select it
        without running it. */
    constructor Init(now: int)
      ensures Valid() && fresh(slots)
      ensures Model() == MngrModel.Init(now)
    {
      slots := new App[REGISTRATION_SLOTS](_ => EmptySlot);
      count := 0;
      appix := 0;
      running := false;
      result := Ok;
      wrapState, wrapError := TopoBuild, Ok;
      new;
      Register(VoidApp.name, VoidApp.oled, VoidApp.xlbl, VoidApp.ylbl, VoidApp.flags,
               VoidApp.hasCmd, VoidApp.help);
      lastGrn := now;
      lastRepair := now;
      lastError := now;
    }

    /** `aoapps_mngr_register`. Its assertions are the requires; the non-null
        checks on the strings and handlers hold by typing. */
    method Register(name: string, oled: string, xlbl: string, ylbl: string, flags: bv32,
                    hasCmd: bool, help: Option<string>)
      requires Wf() && count < REGISTRATION_SLOTS
      requires hasCmd == help.Some?
      requires FlagsKnown(flags)
      requires IsAlnumName(name)
      modifies this, slots
      ensures Wf()
      ensures count == old(count) + 1
      ensures slots[old(count)] == App(name, oled, xlbl, ylbl, flags, hasCmd, help)
      ensures forall i :: 0 <= i < REGISTRATION_SLOTS && i != old(count) ==> slots[i] == old(slots[i])
      ensures appix == old(appix) && running == old(running) && result == old(result)
      ensures lastGrn == old(lastGrn) && lastRepair == old(lastRepair) && lastError == old(lastError)
      ensures wrapState == old(wrapState) && wrapError == old(wrapError)
      ensures old(Valid()) ==> Valid()
      ensures old(Valid()) ==>
                Model() == MngrModel.Register(old(Model()), App(name, oled, xlbl, ylbl, flags, hasCmd, help))
    {
      var slot := count;
      count := count + 1;
      slots[slot] := App(name, oled, xlbl, ylbl, flags, hasCmd, help);
      assert slots[..count] == old(slots[..count]) + [slots[slot]];
    }

    /** `aoapps_mngr_showstatus`: the time stamps it keeps (LEDs and text are output). */
    method ShowStatus(now: int)
      requires Valid()
      modifies this
      ensures Valid() && Model() == MngrModel.ShowStatus(old(Model()), now)
    {
      if result != Ok {
        lastError := now;
        return;
      }
      if now - lastGrn > HEARTBEAT_MS {
        lastGrn := now;
      }
    }

    /** `aoapps_mngr_repair`. */
    method Repair(env: Env) returns (r: AoResult, calls: seq<Call>)
      requires Valid()
      modifies this
      ensures Valid()
      ensures var o := MngrModel.Repair(old(lastRepair), env);
              r == o.r && calls == o.calls && Model() == old(Model()).(lastRepair := o.lastRepair)
    {
      calls := [];
      if env.now - lastRepair > REPAIR_MS {
        r := env.clrError;
        calls := calls + [ClrError];
        if r != Ok { return; }
        r := env.goActive;
        calls := calls + [GoActive];
        if r != Ok { return; }
        lastRepair := env.now;
      }
      r := Ok;
    }

    /** `aoapps_mngr_startwithtopo`. */
    method StartWithTopo() returns (r: AoResult, calls: seq<Call>)
      requires Valid()
      modifies this
      ensures Valid()
      ensures var o := MngrModel.StartWithTopo();
              r == o.r && calls == o.calls && Model() == old(Model()).(wrap := o.w)
    {
      wrapError := Ok;
      wrapState := TopoBuild;
      calls := [TopoBuildStart];
      r := wrapError;
    }

    /** `aoapps_mngr_stepwithtopo`, including the ERROR assignment that the
        APPANIM assignment right after it overwrites. */
    method StepWithTopo(env: Env) returns (r: AoResult, calls: seq<Call>)
      requires Valid()
      modifies this
      ensures Valid()
      ensures var o := MngrModel.StepWithTopo(old(Model()).wrap, appix, env);
              r == o.r && calls == o.calls && Model() == old(Model()).(wrap := o.w)
    {
      match wrapState {
        case TopoBuild =>
          if !env.topoDone {
            wrapError := env.topoStep;
            if wrapError != Ok { wrapState := WrapError; }
            return Ok, [TopoBuildStep];
          }
          wrapError := env.appStart;
          if wrapError != Ok { wrapState := WrapError; }
          wrapState := AppAnim;
          calls := [AppStart(appix)];
        case AppAnim =>
          wrapError := env.appStep;
          if wrapError != Ok { wrapState := WrapError; }
          calls := [AppStep(appix)];
        case WrapError =>
          calls := [];
      }
      r := wrapError;
    }

    /** `aoapps_mngr_start(appix=1)`. */
    method Start(env: Env, ix: int := DEFAULT_START_APPIX) returns (calls: seq<Call>)
      requires Valid() && !running && 0 <= ix < count
      modifies this
      ensures Valid()
      ensures var o := MngrModel.Start(old(Model()), ix, env);
              Model() == o.m && calls == o.calls
    {
      appix := ix;
      running := true;
      lastGrn := env.now;
      if HasFlag(slots[appix].flags, FLAGS_WITHTOPO) {
        result, calls := StartWithTopo();
      } else {
        result := env.appStart;
        calls := [AppStart(appix)];
      }
      ShowStatus(env.now);
    }

    /** `aoapps_mngr_stop`. */
    method Stop() returns (calls: seq<Call>)
      requires Valid() && running
      modifies this
      ensures Valid()
      ensures var o := MngrModel.Stop(old(Model()));
              Model() == o.m && calls == o.calls
    {
      calls := [AppStop(appix)];
      running := false;
    }

    /** `aoapps_mngr_switch`. */
    method Switch(env: Env, ix: int) returns (calls: seq<Call>)
      requires Valid() && running && 0 <= ix < count
      modifies this
      ensures Valid()
      ensures var o := MngrModel.Switch(old(Model()), ix, env);
              Model() == o.m && calls == o.calls
    {
      var stopCalls := Stop();
      var startCalls := Start(env, ix);
      calls := stopCalls + startCalls;
    }

    /** `aoapps_mngr_switchnext`. */
    method SwitchNext(env: Env) returns (calls: seq<Call>)
      requires Valid() && running && count >= 2
      modifies this
      ensures Valid()
      ensures var o := MngrModel.SwitchNext(old(Model()), env);
              Model() == o.m && calls == o.calls
    {
      calls := Switch(env, appix % (count - 1) + 1);
    }

    /** `aoapps_mngr_step`. */
    method Step(env: Env) returns (calls: seq<Call>)
      requires Valid() && running
      modifies this
      ensures Valid()
      ensures var o := MngrModel.Step(old(Model()), env);
              Model() == o.m && calls == o.calls
    {
      if result != Ok {
        calls := [];
        if HasFlag(slots[appix].flags, FLAGS_NEXTONERR) && env.now - lastError > ERROR_MS {
          NextOnErrImpliesTwoApps(Model());
          calls := SwitchNext(env);
        }
        return;
      }
      if HasFlag(slots[appix].flags, FLAGS_WITHTOPO) {
        result, calls := StepWithTopo(env);
      } else {
        result := env.appStep;
        calls := [AppStep(appix)];
      }
      if result == Ok && HasFlag(slots[appix].flags, FLAGS_WITHREPAIR) {
        var repairCalls;
        result, repairCalls := Repair(env);
        calls := calls + repairCalls;
      }
      ShowStatus(env.now);
    }

    // === observers =========================================================

    function AppAppix(): (r: int)
      reads this, slots
      requires Valid()
      ensures 0 <= r < count
    {
      appix
    }

    /** `aoapps_mngr_app_running`: whether the current app is in run mode
        rather than stopped. */
    function AppRunning(): (r: bool)
      reads this, slots
      requires Valid()
      ensures r == Model().running
    {
      running
    }

    function AppCount(): (r: int)
      reads this, slots
      requires Valid()
      ensures 1 <= r <= REGISTRATION_SLOTS
    {
      count
    }

    /** The short name of app `ix`: alphanumeric, "voidapp" for slot 0. */
    function AppName(ix: int): (s: string)
      reads this, slots
      requires Valid() && 0 <= ix < count
      ensures IsAlnumName(s)
      ensures ix == 0 ==> s == "voidapp"
    {
      slots[ix].name
    }

    function AppOled(ix: int): (s: string)
      reads this, slots
      requires Valid() && 0 <= ix < count
      ensures ix == 0 ==> s == "USB command"
    {
      slots[ix].oled
    }
  }
}
