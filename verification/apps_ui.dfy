/** What the stock apps share: the state of the two UI32 buttons X and Y at a
    step, C's truncating integer division, the "per kibi" step formula and the
    auto-repeat gate of the button handlers in runled, aniscript and swflag. */
module AppsUi {

  /** The X and Y buttons as `aoui32_but_wentdown` and `aoui32_but_isdown`
      report them at one step. */
  datatype Buttons = Buttons(xWent: bool, yWent: bool, xDown: bool, yDown: bool)

  const NoButtons := Buttons(false, false, false, false)

  /** C's `/` on `int`: the quotient is truncated toward zero. */
  function CDiv(a: int, b: int): (q: int)
    requires b > 0
    ensures a >= 0 ==> q == a / b
    ensures a < 0 ==> q == -((-a) / b)
  {
    if a >= 0 then a / b else -((-a) / b)
  }

  /** `v*PERKIBI/1024 + 1`: a step of about PERKIBI/1024 of `v`, and never 0. */
  function PerKibiStep(v: int, perkibi: int): (step: int)
    ensures v >= 0 && perkibi >= 0 ==> 1 <= step
    ensures v >= 0 && 0 <= perkibi <= 1024 ==> step <= v + 1
  {
    CDiv(v * perkibi, 1024) + 1
  }

  /** The dim level the X/Y handlers of runled and swflag ask
      `aomw_topo_dim_set` for: X lowers the level by one step of about
      `perkibi`/1024 of it, otherwise it is raised by that step. */
  function DimTarget(dim: int, b: Buttons, perkibi: int): (level: int)
    ensures dim >= 0 && perkibi >= 0 && b.xDown ==> level < dim
    ensures dim >= 0 && perkibi >= 0 && !b.xDown ==> level > dim
    ensures dim >= 0 && 0 <= perkibi <= 1024 && b.xDown ==> level >= -1
  {
    var step := PerKibiStep(dim, perkibi);
    if b.xDown then dim - step else dim + step
  }

  /** The outcome of the button gate: whether a step fires, and the new time stamp. */
  datatype Gate = Gate(fire: bool, ms: int)

  /** The auto-repeat gate of the `*_buttons_check` handlers. A press (X or Y
      went down) back-dates the time stamp by `period`; while X or Y is held a
      step fires once more than `period` ms have passed since the stamp, and
      then the stamp moves to now. */
  function ButtonGate(ms: int, now: int, b: Buttons, period: int): (g: Gate)
    ensures g.fire ==> b.xDown || b.yDown
    ensures g.fire ==> g.ms == now
    ensures !g.fire && (b.xWent || b.yWent) ==> g.ms == now - period
    ensures !g.fire && !(b.xWent || b.yWent) ==> g.ms == ms
  {
    var stamp := if b.xWent || b.yWent then now - period else ms;
    if (b.xDown || b.yDown) && now - stamp > period then Gate(true, now) else Gate(false, stamp)
  }

  /** Because the gate compares with `>`, a press does not fire on the step it
      is seen, but on every later step while the button is still held. */
  lemma PressFiresOneLater(ms: int, t: int, t2: int, b: Buttons, held: Buttons, period: int)
    requires b.xWent || b.yWent
    requires held.xDown || held.yDown
    requires !held.xWent && !held.yWent
    requires t < t2
    ensures !ButtonGate(ms, t, b, period).fire
    ensures ButtonGate(ButtonGate(ms, t, b, period).ms, t2, held, period).fire
  {
  }

  /** While a button is held, after a step at `t` the next step fires exactly
      when more than `period` ms have passed since `t`. */
  lemma HeldRepeatsEveryPeriod(t: int, t2: int, held: Buttons, period: int)
    requires held.xDown || held.yDown
    requires !held.xWent && !held.yWent
    ensures ButtonGate(t, t2, held, period).fire <==> t2 - t > period
  {
  }
}
