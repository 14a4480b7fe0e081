/** The swflag stock app (aoapps_swflag.cpp): shows one of four flags on the
    chain. With an I/O-expander (four buttons, four indicator LEDs) in the
    chain its buttons pick the flag; without one the flags cycle every two
    seconds. X and Y dim, and "apps config swflag" picks the four flags. */
module SwFlag {
  import opened Results
  import opened AppsUi

  /** One flag per I/O-expander button. */
  const NUMFLAGS := 4
  const ANIM_MS := 2000
  const BUTTONS_PERKIBI := 256
  const BUTTONS_MS := 200

  /** A side effect of the app on the hardware: initialise the I/O-expander at
      node `addr`, paint flag painter `pix`, light the indicator LED of button
      `ix`, switch all indicator LEDs off, or set the global dim level. */
  datatype Act = IoxInit(addr: int) | PaintFlag(pix: int) | LedOn(ix: int) | LedNone | DimSet(level: int)

  /** The flag the I/O-expander buttons select: the highest-numbered button
      that went down, or the current flag when none did. */
  function Pressed(flagix: int, wentDown: seq<bool>): (f: int)
    requires |wentDown| == NUMFLAGS
    ensures (exists i :: 0 <= i < NUMFLAGS && wentDown[i]) ==>
              0 <= f < NUMFLAGS && wentDown[f] && forall i :: f < i < NUMFLAGS ==> !wentDown[i]
    ensures (forall i :: 0 <= i < NUMFLAGS ==> !wentDown[i]) ==> f == flagix
  {
    if wentDown[3] then 3 else if wentDown[2] then 2 else if wentDown[1] then 1
    else if wentDown[0] then 0 else flagix
  }

  // === configuration command ===============================================

  /** What "apps config swflag ..." prints, as a value. */
  datatype Reply =
    | Catalogue(names: seq<string>)
    | Table(names: seq<string>)
    | Quiet
    | TooManyArgs
    | ExpectsFour
    | NotAFlag(arg: string)
    | UnknownArg(arg: string)

  predicate InCatalogue(pix: seq<int>, catalogue: seq<string>) {
    forall i :: 0 <= i < |pix| ==> 0 <= pix[i] < |catalogue|
  }

  /** The names of the flags in the table. */
  function TableNames(pix: seq<int>, catalogue: seq<string>): (names: seq<string>)
    requires InCatalogue(pix, catalogue)
    ensures |names| == |pix|
    ensures forall i :: 0 <= i < |pix| ==> names[i] == catalogue[pix[i]]
  {
    seq(|pix|, i requires 0 <= i < |pix| => catalogue[pix[i]])
  }

  /** The first of the four arguments after "set" that names no flag, if any. */
  function FirstUnknown(args: seq<string>, catalogue: seq<string>): (k: int)
    requires |args| == 8
    ensures 4 <= k <= 8
    ensures forall i :: 4 <= i < k ==> FirstPrefixIndex(catalogue, args[i]) != -1
    ensures k < 8 ==> FirstPrefixIndex(catalogue, args[k]) == -1
  {
    if FirstPrefixIndex(catalogue, args[4]) == -1 then 4
    else if FirstPrefixIndex(catalogue, args[5]) == -1 then 5
    else if FirstPrefixIndex(catalogue, args[6]) == -1 then 6
    else if FirstPrefixIndex(catalogue, args[7]) == -1 then 7
    else 8
  }

  /** The flag table after "set": each argument looked up in the catalogue. */
  function SetTable(args: seq<string>, catalogue: seq<string>): (pix: seq<int>)
    requires |args| == 8 && FirstUnknown(args, catalogue) == 8
    ensures |pix| == NUMFLAGS
    ensures forall i :: 0 <= i < NUMFLAGS ==> pix[i] == FirstPrefixIndex(catalogue, args[4 + i])
  {
    seq(NUMFLAGS, i requires 0 <= i < NUMFLAGS => FirstPrefixIndex(catalogue, args[4 + i]))
  }

  /** Because every name was found, the new table only names catalogue flags. */
  lemma SetTableInCatalogue(args: seq<string>, catalogue: seq<string>)
    requires |args| == 8 && FirstUnknown(args, catalogue) == 8
    ensures InCatalogue(SetTable(args, catalogue), catalogue)
  {
    var pix := SetTable(args, catalogue);
    forall i | 0 <= i < NUMFLAGS
      ensures 0 <= pix[i] < |catalogue|
    {
      assert FirstPrefixIndex(catalogue, args[4 + i]) != -1;
    }
  }

  /** `aoapps_swflag_cmd_main` on `argc == |args|` arguments ("apps config
      swflag <sub> ..."), with `catalogue` the flag names `aomw_flag_name`
      knows: what it prints and the new flag table. */
  function Command(args: seq<string>, catalogue: seq<string>, pix: seq<int>): (o: (Reply, seq<int>))
    requires |args| > 3 && |pix| == NUMFLAGS && InCatalogue(pix, catalogue)
    ensures |o.1| == NUMFLAGS && InCatalogue(o.1, catalogue)
    ensures o.1 == pix || (|args| == 8 && FirstUnknown(args, catalogue) == 8 && o.1 == SetTable(args, catalogue))
  {
    var verbose := !(|args[0]| > 0 && args[0][0] == '@');
    if IsPrefix(args[3], "list") then
      if |args| != 4 then (TooManyArgs, pix) else (Catalogue(catalogue), pix)
    else if IsPrefix(args[3], "get") then
      if |args| != 4 then (TooManyArgs, pix) else (Table(TableNames(pix, catalogue)), pix)
    else if IsPrefix(args[3], "set") then
      if |args| != 8 then (ExpectsFour, pix)
      else
        var k := FirstUnknown(args, catalogue);
        if k < 8 then (NotAFlag(args[k]), pix)
        else
          SetTableInCatalogue(args, catalogue);
          var pix' := SetTable(args, catalogue);
          (if verbose then Table(TableNames(pix', catalogue)) else Quiet, pix')
    else (UnknownArg(args[3]), pix)
  }

  /** "set" replaces the whole table or, when one of its four names is
      unknown, leaves it as it was: no partial update is possible. */
  lemma SetAllOrNothing(args: seq<string>, catalogue: seq<string>, pix: seq<int>)
    requires |args| == 8 && !IsPrefix(args[3], "list") && !IsPrefix(args[3], "get") && IsPrefix(args[3], "set")
    requires |pix| == NUMFLAGS && InCatalogue(pix, catalogue)
    ensures var o := Command(args, catalogue, pix);
            (exists i :: 4 <= i < 8 && FirstPrefixIndex(catalogue, args[i]) == -1) ==> o.1 == pix && o.0.NotAFlag?
    ensures var o := Command(args, catalogue, pix);
            (forall i :: 4 <= i < 8 ==> FirstPrefixIndex(catalogue, args[i]) != -1) ==>
              forall i :: 0 <= i < NUMFLAGS ==> o.1[i] == FirstPrefixIndex(catalogue, args[4 + i])
  {
  }

  /** Only a complete "set" changes the table. */
  lemma OnlySetWrites(args: seq<string>, catalogue: seq<string>, pix: seq<int>)
    requires |args| > 3 && |pix| == NUMFLAGS && InCatalogue(pix, catalogue)
    requires |args| != 8 || IsPrefix(args[3], "list") || IsPrefix(args[3], "get") || !IsPrefix(args[3], "set")
    ensures Command(args, catalogue, pix).1 == pix
  {
  }

  // === the app =============================================================

  /** The app's file-level state. `pix` is the flag table: the painter index
      of the flag each button shows. */
  class SwFlagApp {
    const pix: array<int>
    var flagix: int
    var ioxPresent: bool
    var lastMs: int
    var buttonsMs: int
    var dimDft: int

    ghost predicate Valid(catalogue: seq<string>)
      reads this, pix
    {
      && pix.Length == NUMFLAGS
      && 0 <= flagix < NUMFLAGS
      && InCatalogue(pix[..], catalogue)
    }

    /** The statics before the first start, with `defaults` the four flags
        the table starts with (Dutch, Mali, Europe and Italy). */
    constructor (defaults: seq<int>)
      requires |defaults| == NUMFLAGS
      ensures fresh(pix) && pix[..] == defaults
      ensures flagix == 0 && !ioxPresent && lastMs == 0 && buttonsMs == 0 && dimDft == 0
    {
      pix := new int[NUMFLAGS](i requires 0 <= i < NUMFLAGS => defaults[i]);
      flagix, ioxPresent, lastMs, buttonsMs, dimDft := 0, false, 0, 0, 0;
      new;
      assert pix[..] == defaults;
    }

    /** `aoapps_swflag_start`: look for an I/O-expander, select the first
        flag, paint it, light its LED, and record the time and the dim level.
        Each failure returns at once, leaving what was already done. */
    method Start(now: int, find: AoResult, addr: int, ioxInit: AoResult, paint: AoResult,
                 led: AoResult, dim: int, ghost catalogue: seq<string>)
      returns (r: AoResult, acts: seq<Act>)
      requires pix.Length == NUMFLAGS && InCatalogue(pix[..], catalogue)
      modifies this
      ensures pix[..] == old(pix[..])
      ensures find != Ok && find != NoI2cDev ==>
                r == find && acts == [] && flagix == old(flagix) && ioxPresent == old(ioxPresent)
      ensures find == Ok || find == NoI2cDev ==> ioxPresent == (find == Ok)
      ensures find == Ok && ioxInit != Ok ==> r == ioxInit && acts == [IoxInit(addr)] && flagix == old(flagix)
      ensures (find == NoI2cDev || (find == Ok && ioxInit == Ok)) ==>
                && flagix == 0 && Valid(catalogue)
                && acts == (if find == Ok then [IoxInit(addr)] else []) + [PaintFlag(pix[0])]
                           + (if paint == Ok && find == Ok then [LedOn(0)] else [])
                && r == (if paint != Ok then paint else if find == Ok then led else Ok)
      ensures r == Ok <==> (find == NoI2cDev || (find == Ok && ioxInit == Ok && led == Ok)) && paint == Ok
      ensures r == Ok ==> lastMs == now && dimDft == dim
      ensures r != Ok ==> lastMs == old(lastMs) && dimDft == old(dimDft)
      ensures buttonsMs == old(buttonsMs)
    {
      acts := [];
      if find != Ok && find != NoI2cDev {
        return find, acts;
      }
      ioxPresent := find == Ok;
      if ioxPresent {
        acts := acts + [IoxInit(addr)];
        if ioxInit != Ok {
          return ioxInit, acts;
        }
      }
      flagix := 0;
      acts := acts + [PaintFlag(pix[flagix])];
      if paint != Ok {
        return paint, acts;
      }
      if ioxPresent {
        acts := acts + [LedOn(flagix)];
        if led != Ok {
          return led, acts;
        }
      }
      lastMs := now;
      dimDft := dim;
      r := Ok;
    }

    /** `aoapps_swflag_anim`. With an I/O-expander, `scan` is the result of
        scanning its buttons and `wentDown` which went down; without one the
        flag advances once more than 2000 ms have passed. A changed flag is
        painted (`paint`) and, with an I/O-expander, its LED lit (`led`). */
    method Anim(now: int, scan: AoResult, wentDown: seq<bool>, paint: AoResult, led: AoResult,
                ghost catalogue: seq<string>)
      returns (r: AoResult, acts: seq<Act>)
      requires Valid(catalogue) && |wentDown| == NUMFLAGS
      modifies this
      ensures Valid(catalogue)
      ensures ioxPresent == old(ioxPresent) && buttonsMs == old(buttonsMs) && dimDft == old(dimDft)
      ensures pix[..] == old(pix[..])
      ensures ioxPresent && scan != Ok ==> r == scan && acts == [] && flagix == old(flagix) && lastMs == old(lastMs)
      ensures ioxPresent && scan == Ok ==> flagix == Pressed(old(flagix), wentDown) && lastMs == old(lastMs)
      ensures !ioxPresent && now - old(lastMs) > ANIM_MS ==>
                flagix == (old(flagix) + 1) % NUMFLAGS && lastMs == now
      ensures !ioxPresent && now - old(lastMs) <= ANIM_MS ==> flagix == old(flagix) && lastMs == old(lastMs)
      ensures (!ioxPresent || scan == Ok) && flagix == old(flagix) ==> r == Ok && acts == []
      ensures (!ioxPresent || scan == Ok) && flagix != old(flagix) ==>
                && acts == [PaintFlag(pix[flagix])] + (if paint == Ok && ioxPresent then [LedOn(flagix)] else [])
                && r == (if paint != Ok then paint else if ioxPresent then led else Ok)
    {
      acts := [];
      var newIx := flagix;
      if ioxPresent {
        if scan != Ok {
          return scan, acts;
        }
        if wentDown[0] { newIx := 0; }
        if wentDown[1] { newIx := 1; }
        if wentDown[2] { newIx := 2; }
        if wentDown[3] { newIx := 3; }
      } else {
        if now - lastMs > ANIM_MS {
          lastMs := now;
          newIx := (flagix + 1) % NUMFLAGS;
        }
      }
      if flagix != newIx {
        flagix := newIx;
        acts := acts + [PaintFlag(pix[flagix])];
        if paint != Ok {
          return paint, acts;
        }
        if ioxPresent {
          acts := acts + [LedOn(flagix)];
          if led != Ok {
            return led, acts;
          }
        }
      }
      r := Ok;
    }

    /** `aoapps_swflag_buttons_check`: a dim step also repaints the current
        flag, with `paint` the painter's result. */
    method ButtonsCheck(now: int, b: Buttons, dim: int, paint: AoResult, ghost catalogue: seq<string>)
      returns (r: AoResult, acts: seq<Act>)
      requires Valid(catalogue)
      modifies this
      ensures Valid(catalogue)
      ensures flagix == old(flagix) && ioxPresent == old(ioxPresent) && lastMs == old(lastMs)
      ensures dimDft == old(dimDft) && pix[..] == old(pix[..])
      ensures var g := ButtonGate(old(buttonsMs), now, b, BUTTONS_MS);
              && buttonsMs == g.ms
              && acts == (if g.fire then [DimSet(DimTarget(dim, b, BUTTONS_PERKIBI)), PaintFlag(pix[flagix])] else [])
              && r == (if g.fire then paint else Ok)
    {
      acts := [];
      if b.xWent || b.yWent {
        buttonsMs := now - BUTTONS_MS;
      }
      if (b.xDown || b.yDown) && now - buttonsMs > BUTTONS_MS {
        buttonsMs := now;
        var level := dim;
        var step := CDiv(level * BUTTONS_PERKIBI, 1024) + 1;
        if b.xDown { level := level - step; } else { level := level + step; }
        acts := [DimSet(level), PaintFlag(pix[flagix])];
        if paint != Ok {
          return paint, acts;
        }
      }
      r := Ok;
    }

    /** `aoapps_swflag_cmd_find`: the first flag whose name `flag` prefixes, or -1. */
    static method CmdFind(flag: string, catalogue: seq<string>) returns (ix: int)
      ensures ix == FirstPrefixIndex(catalogue, flag)
    {
      var p := 0;
      while p < |catalogue|
        invariant 0 <= p <= |catalogue|
        invariant forall j :: 0 <= j < p ==> !IsPrefix(flag, catalogue[j])
      {
        if IsPrefix(flag, catalogue[p]) {
          FirstPrefixIndexUnique(catalogue, flag, p);
          return p;
        }
        p := p + 1;
      }
      ix := -1;
      FirstPrefixIndexUnique(catalogue, flag, ix);
    }

    /** The checking loop of the "set" branch: the first of the four names
        that is not a flag, or 8 when all four are. */
    static method CheckNames(args: seq<string>, catalogue: seq<string>) returns (k: int)
      requires |args| == 8
      ensures k == FirstUnknown(args, catalogue)
    {
      k := 4;
      while k < 8
        invariant 4 <= k <= 8
        invariant forall i :: 4 <= i < k ==> FirstPrefixIndex(catalogue, args[i]) != -1
      {
        var found := CmdFind(args[k], catalogue);
        if found == -1 {
          return;
        }
        k := k + 1;
      }
    }

    /** The copying loop of the "set" branch: each switch gets its flag. */
    method WriteTable(args: seq<string>, catalogue: seq<string>)
      requires |args| == 8 && FirstUnknown(args, catalogue) == 8 && pix.Length == NUMFLAGS
      modifies pix
      ensures pix[..] == SetTable(args, catalogue)
    {
      ghost var table := SetTable(args, catalogue);
      var flagix := 0;
      while flagix < 4
        invariant 0 <= flagix <= 4
        invariant forall i :: 0 <= i < flagix ==> pix[i] == table[i]
      {
        pix[flagix] := CmdFind(args[4 + flagix], catalogue);
        flagix := flagix + 1;
      }
      assert pix[..] == table;
    }

    /** The "set" branch of `aoapps_swflag_cmd_main`: the four names are all
        checked before the table is written. */
    method CmdSet(args: seq<string>, catalogue: seq<string>, verbose: bool) returns (reply: Reply)
      requires |args| == 8 && Valid(catalogue)
      modifies pix
      ensures Valid(catalogue)
      ensures var k := FirstUnknown(args, catalogue);
              k < 8 ==> reply == NotAFlag(args[k]) && pix[..] == old(pix[..])
      ensures FirstUnknown(args, catalogue) == 8 ==>
                && pix[..] == SetTable(args, catalogue)
                && reply == if verbose then Table(TableNames(pix[..], catalogue)) else Quiet
    {
      var k := CheckNames(args, catalogue);
      if k < 8 {
        return NotAFlag(args[k]);
      }
      WriteTable(args, catalogue);
      SetTableInCatalogue(args, catalogue);
      reply := if verbose then Table(TableNames(pix[..], catalogue)) else Quiet;
    }

    /** `aoapps_swflag_cmd_main`: list the catalogue, show the table, or set it. */
    method CmdMain(args: seq<string>, catalogue: seq<string>) returns (reply: Reply)
      requires |args| > 3 && Valid(catalogue)
      modifies pix
      ensures Valid(catalogue)
      ensures reply == Command(args, catalogue, old(pix[..])).0
      ensures pix[..] == Command(args, catalogue, old(pix[..])).1
    {
      var verbose := !(|args[0]| > 0 && args[0][0] == '@');
      if IsPrefix(args[3], "list") {
        if |args| != 4 { return TooManyArgs; }
        return Catalogue(catalogue);
      } else if IsPrefix(args[3], "get") {
        if |args| != 4 { return TooManyArgs; }
        return Table(TableNames(pix[..], catalogue));
      } else if IsPrefix(args[3], "set") {
        if |args| != 8 { return ExpectsFour; }
        reply := CmdSet(args, catalogue, verbose);
      } else {
        return UnknownArg(args[3]);
      }
    }

    /** `aoapps_swflag_stop`: all indicator LEDs off (also without an
        I/O-expander), then the dim level saved at start. */
    method Stop() returns (acts: seq<Act>)
      ensures acts == [LedNone, DimSet(dimDft)]
    {
      acts := [LedNone, DimSet(dimDft)];
    }
  }
}
