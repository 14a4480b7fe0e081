/** The runled stock app (aoapps_runled.cpp): a cursor runs from the begin of
    the chain to the end and back, painting one triplet per 25 ms frame in the
    current colour, and steps colour each time it bounces. X and Y dim down
    and up. */
module RunLed {
  import opened Results
  import opened AppsUi

  const ANIM_MS := 25
  /** The colour palette, in the order the cursor steps through it. */
  const PALETTE := ["red", "yellow", "green", "cyan", "magenta"]
  const RGBS_SIZE := |PALETTE|
  const BUTTONS_PERKIBI := 256
  const BUTTONS_MS := 200

  /** The cursor: the triplet it is at, its direction and the colour index. */
  datatype Cursor = Cursor(tix: int, dir: int, colorix: int)

  /** The cursor invariant on a chain of `n` triplets. On an empty chain the
      cursor stays at 0. */
  predicate CursorOk(c: Cursor, n: int) {
    && 0 <= c.tix && (c.tix < n || c.tix == 0)
    && (c.dir == 1 || c.dir == -1)
    && 0 <= c.colorix < RGBS_SIZE
  }

  /** The cursor move after a successful paint: on to the next triplet, or,
      at either end, reverse and step colour (wrapping after magenta). */
  function Move(c: Cursor, n: int): (c': Cursor)
    ensures CursorOk(c, n) ==> CursorOk(c', n)
    ensures 0 <= c.tix + c.dir < n ==> c' == c.(tix := c.tix + c.dir)
    ensures !(0 <= c.tix + c.dir < n) ==> c'.tix == c.tix && c'.dir == -c.dir
    ensures !(0 <= c.tix + c.dir < n) && 0 <= c.colorix < RGBS_SIZE ==>
              c'.colorix == (c.colorix + 1) % RGBS_SIZE
  {
    var newTix := c.tix + c.dir;
    if 0 <= newTix < n then c.(tix := newTix)
    else
      var cix := c.colorix + 1;
      Cursor(c.tix, -c.dir, if cix == RGBS_SIZE then 0 else cix)
  }

  /** `k` successful frames in a row. */
  function Moves(c: Cursor, n: int, k: nat): Cursor
    decreases k
  {
    if k == 0 then c else Moves(Move(c, n), n, k - 1)
  }

  lemma {:induction false} MovesAdd(c: Cursor, n: int, a: nat, b: nat)
    decreases a
    ensures Moves(c, n, a + b) == Moves(Moves(c, n, a), n, b)
  {
    if a > 0 {
      MovesAdd(Move(c, n), n, a - 1, b);
    }
  }

  /** Going up from the first triplet, the cursor visits triplets in order. */
  lemma {:induction false} SweepUp(n: int, colorix: int, i: nat)
    requires i < n
    ensures Moves(Cursor(0, 1, colorix), n, i) == Cursor(i, 1, colorix)
  {
    if i > 0 {
      SweepUp(n, colorix, i - 1);
      MovesAdd(Cursor(0, 1, colorix), n, i - 1, 1);
    }
  }

  /** Going down from the last triplet, the cursor visits triplets in reverse order. */
  lemma {:induction false} SweepDown(n: int, colorix: int, i: nat)
    requires i < n
    ensures Moves(Cursor(n - 1, -1, colorix), n, i) == Cursor(n - 1 - i, -1, colorix)
  {
    if i > 0 {
      SweepDown(n, colorix, i - 1);
      MovesAdd(Cursor(n - 1, -1, colorix), n, i - 1, 1);
    }
  }

  /** A full round on a chain of `n` triplets takes `2n` frames: up, bounce,
      down, bounce. It brings the cursor back to the start, two colours on. */
  lemma RoundTrip(n: int, colorix: int)
    requires n >= 1 && 0 <= colorix < RGBS_SIZE
    ensures Moves(Cursor(0, 1, colorix), n, n) == Cursor(n - 1, -1, (colorix + 1) % RGBS_SIZE)
    ensures Moves(Cursor(0, 1, colorix), n, 2 * n) == Cursor(0, 1, (colorix + 2) % RGBS_SIZE)
  {
    var c1 := (colorix + 1) % RGBS_SIZE;
    SweepUp(n, colorix, n - 1);
    MovesAdd(Cursor(0, 1, colorix), n, n - 1, 1);
    SweepDown(n, c1, n - 1);
    MovesAdd(Cursor(n - 1, -1, c1), n, n - 1, 1);
    MovesAdd(Cursor(0, 1, colorix), n, n, n);
  }

  /** A triplet painted in a palette colour. */
  datatype Paint = Paint(tix: int, colorix: int)

  /** The app's file-level state. */
  class RunLedApp {
    var tix: int
    var colorix: int
    var dir: int
    var animMs: int
    var buttonsMs: int
    var dimDft: int

    function Cur(): Cursor
      reads this
    {
      Cursor(tix, dir, colorix)
    }

    ghost predicate Valid(n: int)
      reads this
    {
      CursorOk(Cur(), n)
    }

    /** The statics before the first start (zero-initialised). */
    constructor ()
      ensures tix == 0 && colorix == 0 && dir == 0
      ensures animMs == 0 && buttonsMs == 0 && dimDft == 0
    {
      tix, colorix, dir := 0, 0, 0;
      animMs, buttonsMs, dimDft := 0, 0, 0;
    }

    /** `aoapps_runled_start`: cursor at the first triplet going up in red;
        saves the global dim level `dim`. */
    method Start(now: int, dim: int) returns (r: AoResult)
      modifies this
      ensures r == Ok
      ensures Cur() == Cursor(0, 1, 0)
      ensures animMs == now && buttonsMs == now && dimDft == dim
      ensures forall n :: Valid(n)
    {
      tix, colorix, dir := 0, 0, 1;
      animMs := now;
      buttonsMs := now;
      dimDft := dim;
      r := Ok;
    }

    /** `aoapps_runled_anim`, with `paint` the result of painting the triplet. */
    method Anim(now: int, n: int, paint: AoResult) returns (r: AoResult, painted: Option<Paint>)
      requires Valid(n)
      modifies this
      ensures Valid(n)
      ensures buttonsMs == old(buttonsMs) && dimDft == old(dimDft)
      ensures now - old(animMs) < ANIM_MS ==>
                r == Ok && painted == None && animMs == old(animMs) && Cur() == old(Cur())
      ensures now - old(animMs) >= ANIM_MS ==>
                && animMs == now && r == paint
                && painted == Some(Paint(old(tix), old(colorix)))
                && Cur() == if paint == Ok then Move(old(Cur()), n) else old(Cur())
    {
      if now - animMs < ANIM_MS {
        return Ok, None;
      }
      animMs := now;
      painted := Some(Paint(tix, colorix));
      r := paint;
      if r != Ok {
        return;
      }
      var newTix := tix + dir;
      if 0 <= newTix < n {
        tix := newTix;
      } else {
        dir := -dir;
        colorix := colorix + 1;
        if colorix == RGBS_SIZE {
          colorix := 0;
        }
      }
      r := Ok;
    }

    /** `aoapps_runled_buttons_check`, with `dim` what `aomw_topo_dim_get`
        returns; `dimSet` is the level passed to `aomw_topo_dim_set`. */
    method ButtonsCheck(now: int, b: Buttons, dim: int) returns (r: AoResult, dimSet: Option<int>)
      modifies this
      ensures r == Ok
      ensures var g := ButtonGate(old(buttonsMs), now, b, BUTTONS_MS);
              buttonsMs == g.ms && dimSet == if g.fire then Some(DimTarget(dim, b, BUTTONS_PERKIBI)) else None
      ensures Cur() == old(Cur()) && animMs == old(animMs) && dimDft == old(dimDft)
    {
      dimSet := None;
      if b.xWent || b.yWent {
        buttonsMs := now - BUTTONS_MS;
      }
      if (b.xDown || b.yDown) && now - buttonsMs > BUTTONS_MS {
        buttonsMs := now;
        var level := dim;
        var step := CDiv(level * BUTTONS_PERKIBI, 1024) + 1;
        if b.xDown { level := level - step; } else { level := level + step; }
        dimSet := Some(level);
      }
      r := Ok;
    }

    /** `aoapps_runled_step`: buttons, then one animation frame. */
    method Step(now: int, b: Buttons, dim: int, n: int, paint: AoResult)
      returns (r: AoResult, dimSet: Option<int>, painted: Option<Paint>)
      requires Valid(n)
      modifies this
      ensures Valid(n)
      ensures var g := ButtonGate(old(buttonsMs), now, b, BUTTONS_MS);
              buttonsMs == g.ms && dimSet == if g.fire then Some(DimTarget(dim, b, BUTTONS_PERKIBI)) else None
      ensures dimDft == old(dimDft)
      ensures now - old(animMs) < ANIM_MS ==>
                r == Ok && painted == None && animMs == old(animMs) && Cur() == old(Cur())
      ensures now - old(animMs) >= ANIM_MS ==>
                && animMs == now && r == paint && painted == Some(Paint(old(tix), old(colorix)))
                && Cur() == if paint == Ok then Move(old(Cur()), n) else old(Cur())
    {
      r, dimSet := ButtonsCheck(now, b, dim);
      if r != Ok {
        return r, dimSet, None;
      }
      r, painted := Anim(now, n, paint);
    }

    /** `aoapps_runled_stop`: the dim level to restore, the one saved at start. */
    method Stop() returns (dimSet: int)
      ensures dimSet == dimDft
    {
      dimSet := dimDft;
    }
  }
}
