/** The dither stock app (aoapps_dither.cpp): all LEDs ramp white up and down
    together; X toggles the ramp and Y toggles the SAID dithering flag. */
module Dither {
  import opened Results
  import opened AppsUi

  const ANIM_MS := 25
  const DIMLVL_PERKIBI := 32
  /** `AOMW_TOPO_BRIGHTNESS_MAX`: the dim level runs over 0..32767. */
  const BRIGHTNESS_MAX := 32767

  // === the loops with early exit ===========================================

  /** The index of the first failing answer, or the number of answers when all succeed. */
  function FirstFailure(answers: seq<AoResult>): (k: nat)
    ensures k <= |answers|
    ensures forall j :: 0 <= j < k ==> answers[j] == Ok
    ensures k < |answers| ==> answers[k] != Ok
  {
    if answers == [] then 0
    else if answers[0] != Ok then 0
    else 1 + FirstFailure(answers[1..])
  }

  /** What a loop that stops at the first failure returns. */
  function LoopResult(answers: seq<AoResult>): (r: AoResult)
    ensures r == Ok <==> forall j :: 0 <= j < |answers| ==> answers[j] == Ok
    ensures r != Ok ==> r == answers[FirstFailure(answers)]
  {
    var k := FirstFailure(answers);
    if k < |answers| then answers[k] else Ok
  }

  /** How many telegrams such a loop sends: up to and including the first failure. */
  function Attempts(answers: seq<AoResult>): (c: nat)
    ensures c <= |answers|
    ensures LoopResult(answers) == Ok ==> c == |answers|
    ensures LoopResult(answers) != Ok ==> c == FirstFailure(answers) + 1
  {
    var k := FirstFailure(answers);
    if k < |answers| then k + 1 else k
  }

  /** A telegram the app sends: the channel currents of node `addr`, with or
      without the dither flag, or triplet `tix` set to grey level `lvl`. */
  datatype Sent = Currents(addr: int, dither: bool) | Grey(tix: int, lvl: int)

  /** `aoapps_dither_anim_setdither`: nodes 1..numnodes, where `answers[i]`
      is what setting the currents of node `i+1` returns. */
  method SetDither(enadither: bool, answers: seq<AoResult>) returns (r: AoResult, sent: seq<Sent>)
    ensures r == LoopResult(answers)
    ensures |sent| == Attempts(answers)
    ensures forall i :: 0 <= i < |sent| ==> sent[i] == Currents(i + 1, enadither)
  {
    sent := [];
    var addr := 1;
    while addr <= |answers|
      invariant 1 <= addr <= |answers| + 1
      invariant addr - 1 <= FirstFailure(answers)
      invariant |sent| == addr - 1
      invariant forall i :: 0 <= i < |sent| ==> sent[i] == Currents(i + 1, enadither)
    {
      var result := answers[addr - 1];
      sent := sent + [Currents(addr, enadither)];
      if result != Ok {
        return result, sent;
      }
      addr := addr + 1;
    }
    r := Ok;
  }

  /** `aoapps_dither_anim_setdim`: triplets 0..numtriplets-1 all grey at
      `dimlvl`, where `answers[i]` is what painting triplet `i` returns. */
  method SetDim(dimlvl: int, answers: seq<AoResult>) returns (r: AoResult, sent: seq<Sent>)
    ensures r == LoopResult(answers)
    ensures |sent| == Attempts(answers)
    ensures forall i :: 0 <= i < |sent| ==> sent[i] == Grey(i, dimlvl)
  {
    sent := [];
    var tix := 0;
    while tix < |answers|
      invariant 0 <= tix <= |answers|
      invariant tix <= FirstFailure(answers)
      invariant |sent| == tix
      invariant forall i :: 0 <= i < |sent| ==> sent[i] == Grey(i, dimlvl)
    {
      var result := answers[tix];
      sent := sent + [Grey(tix, dimlvl)];
      if result != Ok {
        return result, sent;
      }
      tix := tix + 1;
    }
    r := Ok;
  }

  // === the ramp ============================================================

  /** The ramp state: the dim level and its direction. */
  datatype Ramp = Ramp(lvl: int, dir: int)

  predicate RampOk(s: Ramp) {
    0 <= s.lvl <= BRIGHTNESS_MAX && (s.dir == 1 || s.dir == -1)
  }

  /** One ramp step of about 1/32 of the level; past either end the level is
      clipped and the direction reverses. */
  function Next(s: Ramp): (s': Ramp)
    requires RampOk(s)
    ensures RampOk(s')
    ensures s'.dir == s.dir ==> s'.lvl != s.lvl || s'.lvl == 0 || s'.lvl == BRIGHTNESS_MAX
    ensures s.dir == 1 && s'.dir == 1 ==> s'.lvl > s.lvl
    ensures s.dir == -1 && s'.dir == -1 ==> s'.lvl < s.lvl
    ensures s'.dir != s.dir ==> (s'.lvl == 0 && s'.dir == 1) || (s'.lvl == BRIGHTNESS_MAX && s'.dir == -1)
  {
    var step := PerKibiStep(s.lvl, DIMLVL_PERKIBI);
    var newLvl := s.lvl + s.dir * step;
    if newLvl < 0 then Ramp(0, 1)
    else if newLvl > BRIGHTNESS_MAX then Ramp(BRIGHTNESS_MAX, -1)
    else Ramp(newLvl, s.dir)
  }

  /** `k` ramp steps. */
  function NextN(s: Ramp, k: nat): (s': Ramp)
    requires RampOk(s)
    decreases k
    ensures RampOk(s')
  {
    if k == 0 then s else NextN(Next(s), k - 1)
  }

  /** Going up, the ramp reaches full brightness and turns within
      `MAX + 1 - lvl` steps. */
  lemma {:induction false} ReachesTop(s: Ramp)
    requires RampOk(s) && s.dir == 1
    decreases BRIGHTNESS_MAX - s.lvl
    ensures exists k: nat :: 1 <= k <= BRIGHTNESS_MAX + 1 - s.lvl && NextN(s, k) == Ramp(BRIGHTNESS_MAX, -1)
  {
    var s1 := Next(s);
    if s1.dir == 1 {
      ReachesTop(s1);
      var k :| 1 <= k <= BRIGHTNESS_MAX + 1 - s1.lvl && NextN(s1, k) == Ramp(BRIGHTNESS_MAX, -1);
      assert NextN(s, k + 1) == NextN(s1, k);
    } else {
      assert NextN(s, 1) == s1;
    }
  }

  /** Going down, the ramp reaches darkness and turns within `lvl + 1` steps. */
  lemma {:induction false} ReachesBottom(s: Ramp)
    requires RampOk(s) && s.dir == -1
    decreases s.lvl
    ensures exists k: nat :: 1 <= k <= s.lvl + 1 && NextN(s, k) == Ramp(0, 1)
  {
    var s1 := Next(s);
    if s1.dir == -1 {
      ReachesBottom(s1);
      var k :| 1 <= k <= s1.lvl + 1 && NextN(s1, k) == Ramp(0, 1);
      assert NextN(s, k + 1) == NextN(s1, k);
    } else {
      assert NextN(s, 1) == s1;
    }
  }

  // === the app =============================================================

  /** The app's file-level state. */
  class DitherApp {
    var dimlvl: int
    var dir: int
    var enadim: bool
    var enadither: bool
    var animMs: int

    function Cur(): Ramp
      reads this
    {
      Ramp(dimlvl, dir)
    }

    ghost predicate Valid()
      reads this
    {
      RampOk(Cur())
    }

    /** The statics before the first start (zero-initialised). */
    constructor ()
      ensures dimlvl == 0 && dir == 0 && !enadim && !enadither && animMs == 0
    {
      dimlvl, dir, enadim, enadither, animMs := 0, 0, false, false, 0;
    }

    /** `aoapps_dither_start`: dark, going up, ramp and dithering on, and the
        first frame due at once; then push the level and the dither flag. */
    method Start(now: int, dimAnswers: seq<AoResult>, ditherAnswers: seq<AoResult>)
      returns (r: AoResult, sent: seq<Sent>)
      modifies this
      ensures Valid()
      ensures Cur() == Ramp(0, 1) && enadim && enadither && animMs == now - ANIM_MS
      ensures LoopResult(dimAnswers) != Ok ==>
                r == LoopResult(dimAnswers) && |sent| == Attempts(dimAnswers)
      ensures LoopResult(dimAnswers) == Ok ==>
                r == LoopResult(ditherAnswers) && |sent| == |dimAnswers| + Attempts(ditherAnswers)
      ensures forall i :: 0 <= i < |sent| && i < |dimAnswers| ==> sent[i] == Grey(i, 0)
      ensures forall i :: |dimAnswers| <= i < |sent| ==> sent[i] == Currents(i - |dimAnswers| + 1, true)
    {
      dimlvl, dir, enadim, enadither := 0, 1, true, true;
      animMs := now - ANIM_MS;
      r, sent := SetDim(dimlvl, dimAnswers);
      if r != Ok {
        return;
      }
      var more;
      r, more := SetDither(enadither, ditherAnswers);
      sent := sent + more;
    }

    /** `aoapps_dither_anim`. A Y press toggles dithering, pushes it and ends
        the step; an X press toggles the ramp and makes the frame due; a due
        frame with the ramp on takes one ramp step and pushes the level. */
    method Anim(now: int, b: Buttons, ditherAnswers: seq<AoResult>, dimAnswers: seq<AoResult>)
      returns (r: AoResult, sent: seq<Sent>)
      requires Valid()
      modifies this
      ensures Valid()
      ensures b.yWent ==>
                && enadither == !old(enadither) && enadim == old(enadim)
                && Cur() == old(Cur()) && animMs == old(animMs)
                && r == LoopResult(ditherAnswers) && |sent| == Attempts(ditherAnswers)
                && forall i :: 0 <= i < |sent| ==> sent[i] == Currents(i + 1, enadither)
      ensures !b.yWent ==>
                && enadither == old(enadither)
                && enadim == (if b.xWent then !old(enadim) else old(enadim))
      ensures !b.yWent && !b.xWent && now - old(animMs) < ANIM_MS ==>
                r == Ok && sent == [] && Cur() == old(Cur()) && animMs == old(animMs)
      ensures !b.yWent && (b.xWent || now - old(animMs) >= ANIM_MS) ==> animMs == now
      ensures !b.yWent && (b.xWent || now - old(animMs) >= ANIM_MS) && !enadim ==>
                r == Ok && sent == [] && Cur() == old(Cur())
      ensures !b.yWent && (b.xWent || now - old(animMs) >= ANIM_MS) && enadim ==>
                && Cur() == Next(old(Cur()))
                && r == LoopResult(dimAnswers) && |sent| == Attempts(dimAnswers)
                && forall i :: 0 <= i < |sent| ==> sent[i] == Grey(i, dimlvl)
    {
      sent := [];
      if b.yWent {
        enadither := !enadither;
        r, sent := SetDither(enadither, ditherAnswers);
        if r != Ok {
          return;
        }
        return Ok, sent;
      }
      if b.xWent {
        enadim := !enadim;
        animMs := now - ANIM_MS;
      }
      if now - animMs < ANIM_MS {
        return Ok, sent;
      }
      animMs := now;
      if !enadim {
        return Ok, sent;
      }
      var step := CDiv(dimlvl * DIMLVL_PERKIBI, 1024) + 1;
      var newLvl := dimlvl + dir * step;
      if newLvl < 0 {
        dimlvl := 0;
        dir := 1;
      } else if newLvl > BRIGHTNESS_MAX {
        dimlvl := BRIGHTNESS_MAX;
        dir := -1;
      } else {
        dimlvl := newLvl;
      }
      r, sent := SetDim(dimlvl, dimAnswers);
    }

    /** `aoapps_dither_stop`: there is nothing to restore. */
    method Stop()
    {
    }
  }
}
