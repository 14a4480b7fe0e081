/** The aniscript stock app (aoapps_aniscript.cpp): plays an animation script
    loaded from an I2C EEPROM in the chain (a plug-in stick is preferred over
    the SAIDbasic board's own EEPROM), or the built-in heartbeat script when
    there is none. X and Y make the frames slower and faster. */
module Aniscript {
  import opened Results
  import opened AppsUi

  /** 7-bit I2C addresses of the EEPROM on the plug-in stick and on the SAIDbasic board. */
  const EEPROM_DADDR7_STICK := 0x51
  const EEPROM_DADDR7_SAIDBASIC := 0x50
  /** What `find` leaves in its outputs when it finds nothing. */
  const NO_ADDR := 0xFFFF
  const NO_DADDR7 := 0xFF
  const MAXNUMINST := 128
  const BUTTONS_PERKIBI := 100
  const BUTTONS_MS := 200
  const FRAME_MS_START := 100
  const FRAME_MS_MIN := 1
  const FRAME_MS_MAX := 2000

  // === finding and loading the script ======================================

  /** What `aomw_topo_i2cfind` answers for one device address: the result and,
      on success, the node address of the first SAID that has the device. */
  datatype I2cFind = I2cFind(r: AoResult, addr: int)

  /** The outputs of `aoapps_aniscript_find` and the device addresses it probed. */
  datatype Found = Found(r: AoResult, addr: int, daddr7: int, probed: seq<int>)

  /** `aoapps_aniscript_find`: the stick first, then the SAIDbasic EEPROM. A
      real error stops the search; `NoI2cDev` means neither was found. */
  function Find(stick: I2cFind, saidbasic: I2cFind): (f: Found)
    ensures f.r == Ok ==> f.daddr7 == EEPROM_DADDR7_STICK || f.daddr7 == EEPROM_DADDR7_SAIDBASIC
    ensures f.r != Ok ==> f.addr == NO_ADDR && f.daddr7 == NO_DADDR7
    ensures |f.probed| >= 1 && f.probed[0] == EEPROM_DADDR7_STICK
    ensures stick.r == Ok ==> f == Found(Ok, stick.addr, EEPROM_DADDR7_STICK, [EEPROM_DADDR7_STICK])
    ensures stick.r != Ok && stick.r != NoI2cDev ==> f.r == stick.r && |f.probed| == 1
    ensures stick.r == NoI2cDev ==> f.r == saidbasic.r && |f.probed| == 2
    ensures f.r == Ok && f.daddr7 == EEPROM_DADDR7_SAIDBASIC ==> stick.r == NoI2cDev && f.addr == saidbasic.addr
    ensures f.r == NoI2cDev <==> stick.r == NoI2cDev && saidbasic.r == NoI2cDev
  {
    var probed := [EEPROM_DADDR7_STICK];
    if stick.r == Ok then Found(Ok, stick.addr, EEPROM_DADDR7_STICK, probed)
    else if stick.r != NoI2cDev then Found(stick.r, NO_ADDR, NO_DADDR7, probed)
    else
      var probed2 := probed + [EEPROM_DADDR7_SAIDBASIC];
      if saidbasic.r == Ok then Found(Ok, saidbasic.addr, EEPROM_DADDR7_SAIDBASIC, probed2)
      else if saidbasic.r != NoI2cDev then Found(saidbasic.r, NO_ADDR, NO_DADDR7, probed2)
      else Found(NoI2cDev, NO_ADDR, NO_DADDR7, probed2)
  }

  /** The script installed at the player. */
  datatype Script = NoScript | Heartbeat | FromEeprom(addr: int, daddr7: int)

  /** `aoapps_aniscript_load`, with `read` the result of reading the EEPROM:
      the script to install, or the error that prevents installing one. */
  function Load(stick: I2cFind, saidbasic: I2cFind, read: AoResult): (o: (AoResult, Script))
    ensures o.0 == Ok <==> o.1 != NoScript
    ensures Find(stick, saidbasic).r == NoI2cDev ==> o == (Ok, Heartbeat)
    ensures Find(stick, saidbasic).r == Ok ==>
              o == if read == Ok then (Ok, FromEeprom(Find(stick, saidbasic).addr, Find(stick, saidbasic).daddr7))
                   else (read, NoScript)
    ensures Find(stick, saidbasic).r != Ok && Find(stick, saidbasic).r != NoI2cDev ==>
              o == (Find(stick, saidbasic).r, NoScript)
  {
    var f := Find(stick, saidbasic);
    if f.r != Ok && f.r != NoI2cDev then (f.r, NoScript)
    else if f.r == NoI2cDev then (Ok, Heartbeat)
    else if read != Ok then (read, NoScript)
    else (Ok, FromEeprom(f.addr, f.daddr7))
  }

  /** A script from the stick is played whenever the stick is found, whatever
      the SAIDbasic board answers. */
  lemma StickWins(stick: I2cFind, saidbasic: I2cFind, saidbasic2: I2cFind)
    requires stick.r == Ok
    ensures Load(stick, saidbasic, Ok) == (Ok, FromEeprom(stick.addr, EEPROM_DADDR7_STICK))
    ensures Load(stick, saidbasic, Ok) == Load(stick, saidbasic2, Ok)
  {
  }

  // === frame speed buttons =================================================

  predicate FrameOk(frameMs: int) {
    FRAME_MS_MIN <= frameMs <= FRAME_MS_MAX
  }

  /** The frame time after one button step: Y makes frames shorter (at least
      1 ms), otherwise they get longer (at most 2000 ms). */
  function FrameStep(frameMs: int, yDown: bool): (f: int)
    ensures FrameOk(frameMs) ==> FrameOk(f)
    ensures FrameOk(frameMs) && yDown && frameMs > FRAME_MS_MIN ==> f < frameMs
    ensures FrameOk(frameMs) && !yDown && frameMs < FRAME_MS_MAX ==> f > frameMs
    ensures FrameOk(frameMs) && yDown && frameMs == FRAME_MS_MIN ==> f == FRAME_MS_MIN
    ensures FrameOk(frameMs) && !yDown && frameMs == FRAME_MS_MAX ==> f == FRAME_MS_MAX
  {
    var step := PerKibiStep(frameMs, BUTTONS_PERKIBI);
    if yDown then (if frameMs - step < FRAME_MS_MIN then FRAME_MS_MIN else frameMs - step)
    else (if frameMs + step > FRAME_MS_MAX then FRAME_MS_MAX else frameMs + step)
  }

  /** `k` button steps in a row with the same button held. */
  function FrameSteps(frameMs: int, yDown: bool, k: nat): int
    decreases k
  {
    if k == 0 then frameMs else FrameSteps(FrameStep(frameMs, yDown), yDown, k - 1)
  }

  /** Holding Y for `frameMs - 1` steps or more reaches the shortest frame time. */
  lemma {:induction false} HoldingYReachesMin(frameMs: int, k: nat)
    requires FrameOk(frameMs) && k >= frameMs - FRAME_MS_MIN
    decreases k
    ensures FrameSteps(frameMs, true, k) == FRAME_MS_MIN
  {
    if k > 0 {
      HoldingYReachesMin(FrameStep(frameMs, true), k - 1);
    }
  }

  // === the app =============================================================

  /** The app's file-level state: the frame time, the frame and button time
      stamps, and the script installed at the player. */
  class AniscriptApp {
    var frameMs: int
    var animMs: int
    var buttonsMs: int
    var script: Script

    ghost predicate Valid()
      reads this
    {
      FrameOk(frameMs)
    }

    /** The statics before the first start (zero-initialised), no script installed. */
    constructor ()
      ensures frameMs == 0 && animMs == 0 && buttonsMs == 0 && script == NoScript
    {
      frameMs, animMs, buttonsMs, script := 0, 0, 0, NoScript;
    }

    /** `aoapps_aniscript_load`: the script is installed only on success. */
    method LoadScript(stick: I2cFind, saidbasic: I2cFind, read: AoResult) returns (r: AoResult)
      modifies this
      ensures var o := Load(stick, saidbasic, read);
              r == o.0 && script == (if r == Ok then o.1 else old(script))
      ensures frameMs == old(frameMs) && animMs == old(animMs) && buttonsMs == old(buttonsMs)
    {
      var f := Find(stick, saidbasic);
      if f.r != Ok && f.r != NoI2cDev {
        return f.r;
      }
      if f.r == NoI2cDev {
        script := Heartbeat;
      } else {
        if read != Ok {
          return read;
        }
        script := FromEeprom(f.addr, f.daddr7);
      }
      r := Ok;
    }

    /** `aoapps_aniscript_start`: load, and only when that succeeds, 100 ms
        frames starting now. */
    method Start(now: int, stick: I2cFind, saidbasic: I2cFind, read: AoResult) returns (r: AoResult)
      modifies this
      ensures r == Load(stick, saidbasic, read).0
      ensures buttonsMs == old(buttonsMs)
      ensures r == Ok ==> Valid() && frameMs == FRAME_MS_START && animMs == now
                          && script == Load(stick, saidbasic, read).1
      ensures r != Ok ==> frameMs == old(frameMs) && animMs == old(animMs) && script == old(script)
    {
      r := LoadScript(stick, saidbasic, read);
      if r != Ok {
        return;
      }
      frameMs := FRAME_MS_START;
      animMs := now;
    }

    /** `aoapps_aniscript_buttons_check`: always succeeds. */
    method ButtonsCheck(now: int, b: Buttons) returns (r: AoResult)
      requires Valid()
      modifies this
      ensures Valid() && r == Ok
      ensures var g := ButtonGate(old(buttonsMs), now, b, BUTTONS_MS);
              buttonsMs == g.ms && frameMs == if g.fire then FrameStep(old(frameMs), b.yDown) else old(frameMs)
      ensures animMs == old(animMs) && script == old(script)
    {
      if b.xWent || b.yWent {
        buttonsMs := now - BUTTONS_MS;
      }
      if (b.xDown || b.yDown) && now - buttonsMs > BUTTONS_MS {
        buttonsMs := now;
        var step := CDiv(frameMs * BUTTONS_PERKIBI, 1024) + 1;
        if b.yDown {
          frameMs := frameMs - step;
          if frameMs < FRAME_MS_MIN { frameMs := FRAME_MS_MIN; }
        } else {
          frameMs := frameMs + step;
          if frameMs > FRAME_MS_MAX { frameMs := FRAME_MS_MAX; }
        }
      }
      r := Ok;
    }

    /** `aoapps_aniscript_anim`, with `play` the result of playing one frame. */
    method Anim(now: int, play: AoResult) returns (r: AoResult, played: bool)
      modifies this
      ensures played <==> now - old(animMs) >= old(frameMs)
      ensures played ==> animMs == now && r == play
      ensures !played ==> animMs == old(animMs) && r == Ok
      ensures frameMs == old(frameMs) && buttonsMs == old(buttonsMs) && script == old(script)
    {
      if now - animMs < frameMs {
        return Ok, false;
      }
      animMs := now;
      r, played := play, true;
    }

    /** `aoapps_aniscript_step`: buttons, then at most one frame, played
        against the frame time the buttons left. */
    method Step(now: int, b: Buttons, play: AoResult) returns (r: AoResult, played: bool)
      requires Valid()
      modifies this
      ensures Valid()
      ensures var g := ButtonGate(old(buttonsMs), now, b, BUTTONS_MS);
              buttonsMs == g.ms && frameMs == if g.fire then FrameStep(old(frameMs), b.yDown) else old(frameMs)
      ensures played <==> now - old(animMs) >= frameMs
      ensures played ==> animMs == now && r == play
      ensures !played ==> animMs == old(animMs) && r == Ok
      ensures script == old(script)
    {
      r := ButtonsCheck(now, b);
      if r != Ok {
        return r, false;
      }
      r, played := Anim(now, play);
    }
  }
}
