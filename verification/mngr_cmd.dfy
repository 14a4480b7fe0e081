/** The "apps" command handler of the apps manager (aoapps_mngr.cpp): it shows
    the current app, lists all apps, switches to an app picked by number or by
    name prefix, and lists, explains or forwards app configuration. The text it
    prints is modelled by what it would print: a `Reply` value. */
module MngrCmd {
  import opened Results
  import opened MngrH
  import opened MngrModel
  import opened Mngr

  // === number parsing ======================================================

  predicate IsDigit(c: char) {
    '0' <= c <= '9'
  }

  predicate AllDigits(s: string) {
    forall i :: 0 <= i < |s| ==> IsDigit(s[i])
  }

  /** The value of a string of decimal digits. */
  function DigitsValue(s: string): nat
    requires AllDigits(s)
  {
    if s == [] then 0 else DigitsValue(s[..|s| - 1]) * 10 + (s[|s| - 1] - '0') as int
  }

  /** `aocmd_cint_parse_dec`, modelled as: an optional minus sign followed by
      one or more decimal digits; anything else is not a number. */
  function ParseDec(s: string): Option<int> {
    if |s| >= 2 && s[0] == '-' && AllDigits(s[1..]) then Some(0 - DigitsValue(s[1..]) as int)
    else if |s| >= 1 && AllDigits(s) then Some(DigitsValue(s))
    else None
  }

  // === listing =============================================================

  /** The mode column of the listing. */
  datatype Mode = ModeStop | ModeRun | ModeIdle

  /** One line of `aoapps_mngr_cmd_listone`. */
  datatype ListLine = ListLine(ix: int, name: string, mode: Mode, flags: string, oled: string)

  /** The flags column: "tre" with a letter capitalised for each flag set. */
  function FlagLetters(flags: bv32): string {
    [ if HasFlag(flags, FLAGS_WITHTOPO) then 'T' else 't'
    , if HasFlag(flags, FLAGS_WITHREPAIR) then 'R' else 'r'
    , if HasFlag(flags, FLAGS_NEXTONERR) then 'E' else 'e' ]
  }

  /** `aoapps_mngr_cmd_listone(ix)`: "stop" for every app but the current one,
      "run" or "idle" for the current one depending on the run flag. */
  function ListOne(m: MngrModel.Mngr, ix: int): (line: ListLine)
    requires 0 <= ix < |m.apps|
    ensures line.ix == ix && line.name == m.apps[ix].name && line.oled == m.apps[ix].oled
    ensures line.mode == ModeStop <==> ix != m.appix
    ensures line.mode == ModeRun <==> ix == m.appix && m.running
    ensures line.mode == ModeIdle <==> ix == m.appix && !m.running
    ensures |line.flags| == 3
    ensures line.flags[0] == 'T' <==> HasFlag(m.apps[ix].flags, FLAGS_WITHTOPO)
    ensures line.flags[1] == 'R' <==> HasFlag(m.apps[ix].flags, FLAGS_WITHREPAIR)
    ensures line.flags[2] == 'E' <==> HasFlag(m.apps[ix].flags, FLAGS_NEXTONERR)
  {
    var mode := if ix != m.appix then ModeStop else if m.running then ModeRun else ModeIdle;
    ListLine(ix, m.apps[ix].name, mode, FlagLetters(m.apps[ix].flags), m.apps[ix].oled)
  }

  /** In a listing of a valid manager exactly one line is not "stop". */
  lemma ExactlyOneCurrent(m: MngrModel.Mngr, i: int, j: int)
    requires MngrModel.Valid(m)
    requires 0 <= i < |m.apps| && 0 <= j < |m.apps|
    ensures ListOne(m, m.appix).mode != ModeStop
    ensures ListOne(m, i).mode != ModeStop && ListOne(m, j).mode != ModeStop ==> i == j
  {
  }

  /** `aoapps_mngr_cmd_listall`: one line per registered app, in index order. */
  method ListAll(mgr: AppManager) returns (lines: seq<ListLine>)
    requires mgr.Valid()
    ensures |lines| == mgr.count
    ensures forall i :: 0 <= i < |lines| ==> lines[i] == ListOne(mgr.Model(), i)
  {
    lines := [];
    var ix := 0;
    while ix < mgr.AppCount()
      invariant 0 <= ix <= mgr.count
      invariant |lines| == ix
      invariant forall i :: 0 <= i < ix ==> lines[i] == ListOne(mgr.Model(), i)
    {
      lines := lines + [ListOne(mgr.Model(), ix)];
      ix := ix + 1;
    }
  }

  // === name lookup =========================================================

  function Names(apps: seq<App>): (names: seq<string>)
    ensures |names| == |apps|
    ensures forall i :: 0 <= i < |apps| ==> names[i] == apps[i].name
  {
    seq(|apps|, i requires 0 <= i < |apps| => apps[i].name)
  }

  /** The name loop of `apps switch <name>`: the first app whose name the
      argument prefixes, or -1. */
  method FindApp(mgr: AppManager, arg: string) returns (ix: int)
    requires mgr.Valid()
    ensures ix == FirstPrefixIndex(Names(mgr.Model().apps), arg)
  {
    ix := -1;
    var i := 0;
    while i < mgr.AppCount()
      invariant 0 <= i <= mgr.count
      invariant forall j :: 0 <= j < i ==> !IsPrefix(arg, mgr.slots[j].name)
    {
      if IsPrefix(arg, mgr.AppName(i)) {
        ix := i;
        break;
      }
      i := i + 1;
    }
    FirstPrefixIndexUnique(Names(mgr.Model().apps), arg, ix);
  }

  // === configuration =======================================================

  /** The apps that registered a configuration handler, from index `from` on. */
  function Configurable(apps: seq<App>, from: nat): (ixs: seq<int>)
    decreases |apps| - from
    ensures forall k :: 0 <= k < |ixs| ==> from <= ixs[k] < |apps| && apps[ixs[k]].help.Some?
    ensures forall j :: from <= j < |apps| && apps[j].help.Some? ==> j in ixs
    ensures forall k, l :: 0 <= k < l < |ixs| ==> ixs[k] < ixs[l]
  {
    if from >= |apps| then []
    else if apps[from].help.Some? then [from] + Configurable(apps, from + 1)
    else Configurable(apps, from + 1)
  }

  /** The result of scanning the table for apps matching a name prefix: the
      matching apps handled, and whether the scan stopped at a match that has
      no configuration handler. */
  datatype Scan = Scan(ixs: seq<int>, stopped: bool)

  /** App `j` matches `arg` but registered no configuration handler. */
  predicate Blocked(apps: seq<App>, arg: string, j: int)
    requires 0 <= j < |apps|
  {
    IsPrefix(arg, apps[j].name) && !apps[j].hasCmd
  }

  /** The loop shared by `apps config <app>` and `apps config <app> ...`: every
      app from `from` on whose name `arg` prefixes, in index order, until the
      first such app that is not configurable. */
  function ConfigScan(apps: seq<App>, arg: string, from: nat): (s: Scan)
    decreases |apps| - from
    ensures forall k :: 0 <= k < |s.ixs| ==>
              from <= s.ixs[k] < |apps| && IsPrefix(arg, apps[s.ixs[k]].name) && apps[s.ixs[k]].hasCmd
    ensures forall k, l :: 0 <= k < l < |s.ixs| ==> s.ixs[k] < s.ixs[l]
  {
    if from >= |apps| then Scan([], false)
    else if IsPrefix(arg, apps[from].name) then
      if !apps[from].hasCmd then Scan([], true)
      else
        var rest := ConfigScan(apps, arg, from + 1);
        Scan([from] + rest.ixs, rest.stopped)
    else ConfigScan(apps, arg, from + 1)
  }

  /** The scan stops exactly when some matching app is not configurable; it
      handles every matching app before the first such one and none after it. */
  lemma {:induction false} ConfigScanStops(apps: seq<App>, arg: string, from: nat)
    decreases |apps| - from
    ensures ConfigScan(apps, arg, from).stopped <==> exists j :: from <= j < |apps| && Blocked(apps, arg, j)
    ensures forall k, j :: 0 <= k < |ConfigScan(apps, arg, from).ixs| && from <= j < |apps| && Blocked(apps, arg, j) ==>
              ConfigScan(apps, arg, from).ixs[k] < j
  {
    if from < |apps| {
      ConfigScanStops(apps, arg, from + 1);
      if Blocked(apps, arg, from) {
        assert ConfigScan(apps, arg, from) == Scan([], true);
      } else {
        assert ConfigScan(apps, arg, from).stopped == ConfigScan(apps, arg, from + 1).stopped;
        assert (exists j :: from <= j < |apps| && Blocked(apps, arg, j))
               <==> (exists j :: from + 1 <= j < |apps| && Blocked(apps, arg, j));
      }
    }
  }

  /** Every matching app before the first blocked one is handled. */
  lemma {:induction false} ConfigScanComplete(apps: seq<App>, arg: string, from: nat, j: int)
    decreases |apps| - from
    requires from <= j < |apps| && IsPrefix(arg, apps[j].name) && apps[j].hasCmd
    requires forall i :: from <= i < j ==> !Blocked(apps, arg, i)
    ensures j in ConfigScan(apps, arg, from).ixs
  {
    var s := ConfigScan(apps, arg, from);
    if from < j {
      ConfigScanComplete(apps, arg, from + 1, j);
      var rest := ConfigScan(apps, arg, from + 1);
      assert !Blocked(apps, arg, from);
      assert s.ixs == rest.ixs || s.ixs == [from] + rest.ixs;
    } else {
      assert s.ixs[0] == from;
    }
  }

  /** What `aoapps_mngr_cmd_config` reports. In `Helped` and `Forwarded`,
      `stopped` is the "not configurable" error, and an empty `ixs` without it
      is the "no registered app matches" message. */
  datatype ConfigReply =
    | ConfigList(ixs: seq<int>)
    | Helped(ixs: seq<int>, stopped: bool)
    | Forwarded(ixs: seq<int>, stopped: bool)

  /** `aoapps_mngr_cmd_config` on `argc == |args|` arguments, `args[1]` being "config". */
  function Config(apps: seq<App>, args: seq<string>): ConfigReply
    requires |args| >= 2
  {
    if |args| == 2 then ConfigList(Configurable(apps, 0))
    else
      var s := ConfigScan(apps, args[2], 0);
      if |args| == 3 then Helped(s.ixs, s.stopped) else Forwarded(s.ixs, s.stopped)
  }

  /** The configuration handler calls, one per forwarded app, in order. */
  function CmdCalls(ixs: seq<int>): (calls: seq<Call>)
    ensures |calls| == |ixs|
    ensures forall k :: 0 <= k < |ixs| ==> calls[k] == AppCmd(ixs[k])
  {
    seq(|ixs|, k requires 0 <= k < |ixs| => AppCmd(ixs[k]))
  }

  /** The loop of `apps config` without an app name: the apps with a help text. */
  method ListConfigurable(mgr: AppManager) returns (ixs: seq<int>)
    requires mgr.Valid()
    ensures ixs == Configurable(mgr.Model().apps, 0)
  {
    ghost var apps := mgr.Model().apps;
    ixs := [];
    var appix := 0;
    while appix < mgr.AppCount()
      invariant 0 <= appix <= mgr.count
      invariant Configurable(apps, 0) == ixs + Configurable(apps, appix)
    {
      assert apps[appix] == mgr.slots[appix];
      ghost var rest := Configurable(apps, appix + 1);
      if mgr.slots[appix].help.Some? {
        assert Configurable(apps, appix) == [appix] + rest;
        assert ixs + ([appix] + rest) == (ixs + [appix]) + rest;
        ixs := ixs + [appix];
      } else {
        assert Configurable(apps, appix) == rest;
      }
      appix := appix + 1;
    }
  }

  /** The loop of `apps config <app> ...`: the matching apps in index order
      until one is not configurable; with `forward` each served app's
      configuration handler is called. */
  method ScanConfig(mgr: AppManager, arg: string, forward: bool) returns (s: Scan, calls: seq<Call>)
    requires mgr.Valid()
    ensures s == ConfigScan(mgr.Model().apps, arg, 0)
    ensures calls == if forward then CmdCalls(s.ixs) else []
  {
    ghost var apps := mgr.Model().apps;
    calls := [];
    var ixs: seq<int> := [];
    var appix := 0;
    while appix < mgr.AppCount()
      invariant 0 <= appix <= mgr.count
      invariant ConfigScan(apps, arg, 0).ixs == ixs + ConfigScan(apps, arg, appix).ixs
      invariant ConfigScan(apps, arg, 0).stopped == ConfigScan(apps, arg, appix).stopped
      invariant calls == if forward then CmdCalls(ixs) else []
    {
      assert apps[appix] == mgr.slots[appix];
      if IsPrefix(arg, mgr.AppName(appix)) {
        if !mgr.slots[appix].hasCmd {
          return Scan(ixs, true), calls;
        }
        ixs := ixs + [appix];
        if forward {
          calls := calls + [AppCmd(appix)];
        }
      }
      appix := appix + 1;
    }
    s := Scan(ixs, false);
  }

  /** `aoapps_mngr_cmd_config`. Only with more than three arguments does it
      call app handlers; the help it prints exists for every configurable app
      by the registration invariant. */
  method CmdConfig(mgr: AppManager, args: seq<string>) returns (reply: ConfigReply, calls: seq<Call>)
    requires mgr.Valid() && |args| >= 2
    ensures reply == Config(mgr.Model().apps, args)
    ensures calls == if reply.Forwarded? then CmdCalls(reply.ixs) else []
  {
    if |args| == 2 {
      var ixs := ListConfigurable(mgr);
      return ConfigList(ixs), [];
    }
    var forward := |args| > 3;
    var s;
    s, calls := ScanConfig(mgr, args[2], forward);
    reply := if forward then Forwarded(s.ixs, s.stopped) else Helped(s.ixs, s.stopped);
  }

  // === the "apps" command ==================================================

  datatype CmdError = TooManyArgs | AppMissing | OutOfBounds(n: int) | NoAppNamed(arg: string) | UnknownArgs

  /** What the command settles on before it acts. */
  datatype Request =
    | ShowCurrent
    | ListApps(verbose: bool)
    | SwitchTo(ix: int, verbose: bool)
    | ConfigApps
    | Refuse(e: CmdError)

  /** An '@' in front of the command name suppresses the output. */
  predicate Verbose(args: seq<string>)
    requires |args| >= 1
  {
    !(|args[0]| > 0 && args[0][0] == '@')
  }

  /** The dispatch of `aoapps_mngr_cmd`. A number picks the app with that index
      when it is in range; anything else picks the lowest-indexed app whose name
      it prefixes. */
  function Resolve(apps: seq<App>, args: seq<string>): (r: Request)
    requires |args| >= 1
    ensures r.SwitchTo? ==> |args| == 3 && 0 <= r.ix < |apps|
    ensures r.SwitchTo? && ParseDec(args[2]).Some? ==> r.ix == ParseDec(args[2]).value
    ensures r.SwitchTo? && ParseDec(args[2]).None? ==>
              IsPrefix(args[2], apps[r.ix].name)
              && forall j :: 0 <= j < r.ix ==> !IsPrefix(args[2], apps[j].name)
    ensures r.Refuse? && r.e.NoAppNamed? ==>
              |args| == 3 && r.e.arg == args[2] && ParseDec(args[2]).None?
              && forall j :: 0 <= j < |apps| ==> !IsPrefix(args[2], apps[j].name)
    ensures |args| == 3 && IsPrefix(args[1], "switch") && !IsPrefix(args[1], "list") && ParseDec(args[2]).Some? ==>
              (r.SwitchTo? <==> 0 <= ParseDec(args[2]).value < |apps|)
    ensures |args| == 3 && IsPrefix(args[1], "switch") && !IsPrefix(args[1], "list") && ParseDec(args[2]).None? ==>
              (r.SwitchTo? <==> exists j :: 0 <= j < |apps| && IsPrefix(args[2], apps[j].name))
  {
    if |args| == 1 then ShowCurrent
    else if IsPrefix(args[1], "list") then
      if |args| != 2 then Refuse(TooManyArgs) else ListApps(Verbose(args))
    else if IsPrefix(args[1], "switch") then
      if |args| != 3 then Refuse(AppMissing)
      else match ParseDec(args[2])
        case Some(n) =>
          if n < 0 || n >= |apps| then Refuse(OutOfBounds(n)) else SwitchTo(n, Verbose(args))
        case None =>
          FirstPrefixIndexIsFirst(Names(apps), args[2]);
          var ix := FirstPrefixIndex(Names(apps), args[2]);
          if ix == -1 then Refuse(NoAppNamed(args[2])) else SwitchTo(ix, Verbose(args))
    else if IsPrefix(args[1], "config") then ConfigApps
    else Refuse(UnknownArgs)
  }

  /** What the command prints, as a value. */
  datatype Reply =
    | Current(line: ListLine)
    | Listing(verbose: bool, lines: seq<ListLine>)
    | Switched(shown: Option<ListLine>)
    | Configured(config: ConfigReply)
    | Failed(e: CmdError)

  /** `aoapps_mngr_cmd`. Only a resolved switch changes the manager's state,
      exactly as `aoapps_mngr_switch` does; a switch needs a running app. */
  method Cmd(mgr: AppManager, args: seq<string>, env: Env) returns (reply: Reply, calls: seq<Call>)
    requires mgr.Valid() && |args| >= 1
    requires Resolve(mgr.Model().apps, args).SwitchTo? ==> mgr.running
    modifies mgr
    ensures mgr.Valid()
    ensures var req := Resolve(old(mgr.Model()).apps, args);
            match req
            case ShowCurrent =>
              mgr.Model() == old(mgr.Model()) && calls == []
              && reply == Current(ListOne(old(mgr.Model()), old(mgr.Model()).appix))
            case ListApps(verbose) =>
              mgr.Model() == old(mgr.Model()) && calls == [] && reply.Listing? && reply.verbose == verbose
              && |reply.lines| == |old(mgr.Model()).apps|
              && forall i :: 0 <= i < |reply.lines| ==> reply.lines[i] == ListOne(old(mgr.Model()), i)
            case SwitchTo(ix, verbose) =>
              var o := MngrModel.Switch(old(mgr.Model()), ix, env);
              mgr.Model() == o.m && calls == o.calls
              && reply == Switched(if verbose then Some(ListOne(o.m, ix)) else None)
            case ConfigApps =>
              var c := Config(old(mgr.Model()).apps, args);
              mgr.Model() == old(mgr.Model()) && reply == Configured(c)
              && calls == if c.Forwarded? then CmdCalls(c.ixs) else []
            case Refuse(e) =>
              mgr.Model() == old(mgr.Model()) && calls == [] && reply == Failed(e)
  {
    calls := [];
    if |args| == 1 {
      reply := Current(ListOne(mgr.Model(), mgr.AppAppix()));
    } else if IsPrefix(args[1], "list") {
      if |args| != 2 {
        reply := Failed(TooManyArgs);
        return;
      }
      var lines := ListAll(mgr);
      reply := Listing(Verbose(args), lines);
    } else if IsPrefix(args[1], "switch") {
      if |args| != 3 {
        reply := Failed(AppMissing);
        return;
      }
      var parsed := ParseDec(args[2]);
      var appix: int;
      if parsed.Some? {
        appix := parsed.value;
        if appix < 0 || appix >= mgr.AppCount() {
          reply := Failed(OutOfBounds(appix));
          return;
        }
      } else {
        appix := FindApp(mgr, args[2]);
        if appix == -1 {
          reply := Failed(NoAppNamed(args[2]));
          return;
        }
      }
      calls := mgr.Switch(env, appix);
      reply := Switched(if Verbose(args) then Some(ListOne(mgr.Model(), appix)) else None);
    } else if IsPrefix(args[1], "config") {
      var c;
      c, calls := CmdConfig(mgr, args);
      reply := Configured(c);
    } else {
      reply := Failed(UnknownArgs);
    }
  }

  /** A refused command, or one that only lists or configures, leaves the
      manager exactly as it was: only `SwitchTo` reaches `aoapps_mngr_switch`. */
  lemma RefusedSwitchKeepsState(apps: seq<App>, args: seq<string>)
    requires |args| == 3 && !IsPrefix(args[1], "list") && IsPrefix(args[1], "switch")
    requires (ParseDec(args[2]).Some? && !(0 <= ParseDec(args[2]).value < |apps|))
             || (ParseDec(args[2]).None? && forall j :: 0 <= j < |apps| ==> !IsPrefix(args[2], apps[j].name))
    ensures Resolve(apps, args).Refuse?
  {
  }
}
