/** One gate of the firmware: its binary32 position, its commands and its tick.
    Positions are integers in units of 2^-30, so that 1.0F and 0.01F are whole numbers. */
module Gates {

  const ONE: int := 0x4000_0000
  const STEP: int := 10737418
  const FULL_TRAVEL: nat := 101

  // ---------------------------------------------------------------- binary32

  /** Distance between neighbouring binary32 numbers at magnitude `a`. */
  function Ulp(a: nat): nat
    requires a < 0x8000_0000
  {
    if a < 0x100_0000 then 1
    else if a < 0x200_0000 then 2
    else if a < 0x400_0000 then 4
    else if a < 0x800_0000 then 8
    else if a < 0x1000_0000 then 16
    else if a < 0x2000_0000 then 32
    else if a < 0x4000_0000 then 64
    else 128
  }

  function Abs(x: int): nat {
    if x < 0 then -x else x
  }

  predicate InRange(x: int) {
    Abs(x) < 0x7fff_ff00
  }

  predicate IsFloat(x: int) {
    InRange(x) && Abs(x) % Ulp(Abs(x)) == 0
  }

  /** `round` picks, for every sum the firmware can form, a float than which no float is nearer. How ties are
      broken is left open, so this is every round-to-nearest mode (IEEE 754-2019, section 4.3.1). */
  ghost predicate IsNearest(round: int -> int) {
    forall r, y :: -STEP <= r <= ONE + STEP && IsFloat(y) ==> IsFloat(round(r)) && Abs(round(r) - r) <= Abs(y - r)
  }

  /** Ties to even, the default mode. */
  function TiesToEven(r: int): int {
    if !InRange(r) then r
    else
      var a := Abs(r);
      var u := Ulp(a);
      var low := a - a % u;
      var p := if 2 * (a % u) < u || (2 * (a % u) == u && (a / u) % 2 == 0) then low else low + u;
      if r < 0 then 0 - p else p
  }

  lemma TiesToEvenIsNearest()
    ensures IsNearest(TiesToEven)
  {
    forall r, y | -STEP <= r <= ONE + STEP && IsFloat(y)
      ensures IsFloat(TiesToEven(r)) && Abs(TiesToEven(r) - r) <= Abs(y - r)
    {
      Neighbours(Abs(r), Abs(y));
    }
  }

  /** What a rounded sum tells the firmware: it lies on the same side of 0.0F and 1.0F as the exact sum, and
      between them it is off by at most 32 units. */
  predicate RoundsTo(r: int, p: int) {
    && (r < 0 ==> p <= 0)
    && (0 <= r < ONE ==> 0 <= p <= ONE && Abs(p - r) <= 32)
    && (r >= ONE ==> p >= ONE)
  }

  predicate StaysClose(round: int -> int) {
    forall r :: -STEP <= r <= ONE + STEP ==> RoundsTo(r, round(r))
  }

  /** The arithmetic of the board. By NearestStaysClose it may be any rounding to nearest. */
  type Rounding = round: int -> int | StaysClose(round) witness (NearestStaysClose(TiesToEven); TiesToEven)

  lemma NearestStaysClose(round: int -> int)
    requires round == TiesToEven || IsNearest(round)
    ensures StaysClose(round)
  {
    TiesToEvenIsNearest();
    forall r | -STEP <= r <= ONE + STEP ensures RoundsTo(r, round(r)) {
      assert IsFloat(0) && IsFloat(ONE);
      NearFloat(r);
    }
  }

  lemma NearFloat(r: int)
    requires -STEP <= r <= ONE + STEP
    ensures 0 <= r < ONE ==> exists y :: IsFloat(y) && Abs(y - r) <= 32
  {
    if 0 <= r < ONE {
      Neighbours(r, 0);
      var low := r - r % Ulp(r);
      assert IsFloat(if 2 * (r % Ulp(r)) <= Ulp(r) then low else low + Ulp(r));
    }
  }

  /** The neighbours of a magnitude are floats, and no float lies strictly between them. */
  lemma Neighbours(a: nat, y: nat)
    requires a < 0x7fff_fe00
    ensures var low := a - a % Ulp(a);
            IsFloat(low) && IsFloat(low + Ulp(a)) && (low < y < low + Ulp(a) ==> !IsFloat(y))
  {
    if a >= 0x100_0000 {
      var u := Ulp(a);
      InBinade(a, y, u);
    }
  }

  /** The floats with spacing u are the multiples of u from 2^23 * u up to 2^24 * u. */
  lemma InBinade(a: nat, y: nat, u: nat)
    requires 0x100_0000 <= a < 0x7fff_fe00 && u == Ulp(a)
    ensures IsFloat(a - a % u) && IsFloat(a - a % u + u) && (a - a % u < y < a - a % u + u ==> !IsFloat(y))
  {
    var q := a / u;
    var low := a - a % u;
    assert low == u * q && 0x80_0000 <= q < 0x100_0000;
    Spacing(low, u);
    MultipleMod(u, q);
    MultipleMod(u, q + 1);
    if q + 1 < 0x100_0000 {
      Spacing(low + u, u);
    } else {
      assert low + u == 0x80_0000 * (2 * u);
      MultipleMod(2 * u, 0x80_0000);
    }
    if low < y < low + u && IsFloat(y) {
      Spacing(y, u);
      MulOrder(u, q, y / u);
      assert false;
    }
  }

  lemma Spacing(b: nat, u: nat)
    requires u in {2, 4, 8, 16, 32, 64, 128} && 0x80_0000 * u <= b < 0x100_0000 * u && b < 0x7fff_ff00
    ensures Ulp(b) == u
  {
  }

  lemma MultipleMod(u: nat, q: nat)
    requires u > 0
    ensures (u * q) % u == 0
  {
    var x := u * q;
    var d, m := x / u, x % u;
    assert x == u * d + m;
    MulOrder(u, d, q);
    MulOrder(u, q, d);
  }

  lemma MulOrder(u: nat, q: nat, k: nat)
    requires u > 0
    ensures u * k <= u * q || u * (q + 1) <= u * k
  {
    if k <= q {
      assert u * (q - k) >= 0;
    } else {
      assert u * (k - q - 1) >= 0;
    }
  }

  // ------------------------------------------------------------------- gates

  datatype Status = Raised | Raising | Lowered | Lowering

  /** The fields of a Gate object as one value. */
  datatype GateValue = GateValue(justFinished: bool, isLowering: bool, isChanging: bool, state: int)

  const INITIAL := GateValue(false, false, false, 0)

  predicate InUnit(g: GateValue) {
    0 <= g.state <= ONE
  }

  /** get_state has a return statement for the gate. */
  predicate HasStatus(g: GateValue) {
    g.isChanging || g.state == 0 || g.state == ONE
  }

  predicate GateOk(g: GateValue) {
    InUnit(g) && HasStatus(g)
  }

  function GetStatus(g: GateValue): Status
    requires HasStatus(g)
  {
    if !g.isChanging then (if g.state == ONE then Raised else Lowered)
    else if g.isLowering then Lowering else Raising
  }

  function Commanded(g: GateValue, up: bool): GateValue {
    g.(isLowering := !up, isChanging := true)
  }

  /** The position after one movement step, before clamping. */
  function Moved(g: GateValue, round: Rounding): int
    requires InUnit(g)
  {
    round(if g.isLowering then g.state - STEP else g.state + STEP)
  }

  function Ticked(g: GateValue, round: Rounding): GateValue
    requires InUnit(g)
  {
    if !g.isChanging then g.(justFinished := false)
    else
      var p := Moved(g, round);
      if 0 < p < ONE then g.(justFinished := false, state := p)
      else GateValue(true, g.isLowering, false, if p <= 0 then 0 else ONE)
  }

  class Gate {
    const round: Rounding
    var justFinished: bool
    var isLowering: bool
    var isChanging: bool
    var state: int

    ghost function Value(): GateValue
      reads this
    {
      GateValue(justFinished, isLowering, isChanging, state)
    }

    constructor (round: Rounding)
      ensures this.round == round && Value() == INITIAL
    {
      this.round := round;
      justFinished, isLowering, isChanging, state := false, false, false, 0;
    }

    method Tick() returns (changed: bool)
      requires InUnit(Value())
      modifies this
      ensures Value() == Ticked(old(Value()), round)
      ensures changed == old(isChanging)
    {
      if justFinished {
        justFinished := false;
      }
      if !isChanging {
        return false;
      }
      if isLowering {
        state := round(state - STEP);
      } else {
        state := round(state + STEP);
      }
      if state <= 0 || state >= ONE {
        isChanging := false;
        justFinished := true;
        if state < 0 {
          state := 0;
        } else if state > ONE {
          state := ONE;
        }
      }
      return true;
    }

    method FinishedMoving() returns (finished: bool)
      ensures finished == Value().justFinished
    {
      return justFinished;
    }

    method Lower()
      modifies this
      ensures Value() == Commanded(old(Value()), false)
    {
      isLowering := true;
      isChanging := true;
    }

    method Raise()
      modifies this
      ensures Value() == Commanded(old(Value()), true)
    {
      isLowering := false;
      isChanging := true;
    }

    method GetState() returns (status: Status)
      requires HasStatus(Value())
      ensures status == GetStatus(Value())
    {
      if !isChanging {
        if state == ONE { return Raised; }
        return Lowered;
      } else {
        if isLowering { return Lowering; }
        return Raising;
      }
    }
  }

  // -------------------------------------------------------------- invariance

  lemma CommandKeepsGateOk(g: GateValue, up: bool)
    requires GateOk(g)
    ensures GateOk(Commanded(g, up))
    ensures GetStatus(Commanded(g, up)) == if up then Raising else Lowering
  {
  }

  /** One tick keeps every gate in [0, 1] with a status; a status changes only when the movement ends, and then
      the gate is exactly at the end it was moving to and says that it has just finished. */
  lemma TickKeepsGateOk(g: GateValue, round: Rounding)
    requires GateOk(g)
    ensures GateOk(Ticked(g, round))
    ensures Ticked(g, round).justFinished <==> g.isChanging && !Ticked(g, round).isChanging
    ensures Ticked(g, round).justFinished ==> GetStatus(Ticked(g, round)) == if g.isLowering then Lowered else Raised
    ensures !Ticked(g, round).justFinished ==> GetStatus(Ticked(g, round)) == GetStatus(g)
  {
    if g.isChanging {
      assert RoundsTo(if g.isLowering then g.state - STEP else g.state + STEP, Moved(g, round));
    }
  }

  /** The integers of the model are exactly the binary32 numbers the firmware holds. */
  lemma TickKeepsFloat(g: GateValue, round: Rounding)
    requires GateOk(g) && IsFloat(g.state) && IsNearest(round)
    ensures IsFloat(Ticked(g, round).state)
  {
    assert IsFloat(0) && IsFloat(ONE);
    if g.isChanging {
      var r := if g.isLowering then g.state - STEP else g.state + STEP;
      assert Abs(round(r) - r) <= Abs(0 - r);
    }
  }

  // ------------------------------------------------------- bounded movement

  function TickTimes(g: GateValue, n: nat, round: Rounding): (h: GateValue)
    requires GateOk(g)
    ensures GateOk(h)
    decreases n
  {
    if n == 0 then g
    else
      TickKeepsGateOk(g, round);
      TickTimes(Ticked(g, round), n - 1, round)
  }

  /** How far the gate still has to go; it is the measure that the movement decreases. */
  function Remaining(g: GateValue): int {
    if g.isLowering then g.state else ONE - g.state
  }

  /** While a movement goes on, each tick takes between STEP - 32 and STEP + 32 off the remaining distance,
      so rounding can neither stop the gate nor make it overshoot unnoticed. */
  lemma TickProgress(g: GateValue, round: Rounding)
    requires GateOk(g) && g.isChanging
    ensures GateOk(Ticked(g, round)) && Ticked(g, round).isLowering == g.isLowering
    ensures Ticked(g, round).isChanging ==>
              0 < Remaining(Ticked(g, round)) && STEP - 32 <= Remaining(g) - Remaining(Ticked(g, round)) <= STEP + 32
    ensures !Ticked(g, round).isChanging ==> Arrived(Ticked(g, round), g.isLowering) && 0 <= Remaining(g) <= STEP + 32
  {
    assert RoundsTo(if g.isLowering then g.state - STEP else g.state + STEP, Moved(g, round));
  }

  /** The gate has been moving before each of its first n ticks. */
  predicate MovesFor(g: GateValue, n: nat, round: Rounding)
    requires GateOk(g)
    decreases n
  {
    TickKeepsGateOk(g, round);
    n == 0 || (g.isChanging && MovesFor(Ticked(g, round), n - 1, round))
  }

  /** At rest, just stopped, and exactly at the end the movement was going to. */
  predicate Arrived(h: GateValue, lowering: bool) {
    !h.isChanging && h.justFinished && h.state == if lowering then 0 else ONE
  }

  /** The gate stops at tick n, not before. */
  predicate StopsAt(g: GateValue, n: nat, round: Rounding)
    requires GateOk(g)
  {
    MovesFor(g, n, round) && Arrived(TickTimes(g, n, round), g.isLowering)
  }

  /** Every uninterrupted movement ends, from wherever earlier reversals left the gate; the number of ticks is the
      distance over the step size up to the accumulated rounding error (STEP - 32 and STEP + 32 a tick). */
  lemma {:induction false} MovementEnds(g: GateValue, round: Rounding) returns (n: nat)
    requires GateOk(g) && g.isChanging
    ensures 1 <= n <= FULL_TRAVEL && StopsAt(g, n, round)
    ensures (n - 1) * 10737386 <= Remaining(g) <= n * 10737450
    decreases Remaining(g)
  {
    TickProgress(g, round);
    var h := Ticked(g, round);
    if h.isChanging {
      n := MovementEnds(h, round);
      n := n + 1;
    } else {
      n := 1;
    }
  }

  /** A full raise or lower takes 100 or 101 ticks, whichever way ties are rounded. */
  lemma FullTravelTime(up: bool, round: Rounding) returns (n: nat)
    ensures var g := Commanded(INITIAL.(state := if up then 0 else ONE), up);
            GateOk(g) && 100 <= n <= FULL_TRAVEL && StopsAt(g, n, round)
  {
    n := MovementEnds(Commanded(INITIAL.(state := if up then 0 else ONE), up), round);
  }

  // ---------------------------------------------------------------- LED duty

  /** floor(position^2 * 255), the value written to the gate's pin. */
  function Duty(state: int): int {
    var x := state as real / ONE as real;
    (x * x * 255.0).Floor
  }

  /** Duty is the integer part of 255 * position^2, said without division. */
  lemma DutyIsIntegerPart(state: nat)
    ensures Duty(state) * (ONE * ONE) <= 255 * (state * state) < (Duty(state) + 1) * (ONE * ONE)
  {
    var one := ONE as real;
    var x := state as real / one;
    assert x * one == state as real;
    assert (x * one) * (x * one) == x * x * (one * one);
    assert state as real * state as real == (state * state) as real;
    assert x * x * 255.0 * (one * one) == (255 * (state * state)) as real;
    var d := Duty(state);
    assert d as real <= x * x * 255.0 < d as real + 1.0;
    assert d as real * (one * one) <= x * x * 255.0 * (one * one) < (d as real + 1.0) * (one * one);
    assert d as real * (one * one) == (d * (ONE * ONE)) as real;
  }

  lemma DutyRange(state: int)
    requires 0 <= state <= ONE
    ensures 0 <= Duty(state) <= 255
    ensures Duty(0) == 0 && Duty(ONE) == 255
  {
    DutyMonotone(0, state);
    DutyMonotone(state, ONE);
    assert ONE as real / ONE as real == 1.0;
  }

  lemma DutyMonotone(s: int, t: int)
    requires 0 <= s <= t
    ensures Duty(s) <= Duty(t)
  {
    var x, y := s as real / ONE as real, t as real / ONE as real;
    assert 0.0 <= x <= y;
    assert x * x <= x * y <= y * y;
  }

  /** During an uninterrupted movement the LED only brightens (raising) or only dims (lowering). */
  lemma DutyFollowsMovement(g: GateValue, round: Rounding)
    requires GateOk(g) && g.isChanging
    ensures !g.isLowering ==> Duty(g.state) <= Duty(Ticked(g, round).state)
    ensures g.isLowering ==> Duty(g.state) >= Duty(Ticked(g, round).state)
  {
    TickProgress(g, round);
    assert RoundsTo(if g.isLowering then g.state - STEP else g.state + STEP, Moved(g, round));
    var h := Ticked(g, round);
    if g.isLowering {
      DutyMonotone(h.state, g.state);
    } else {
      DutyMonotone(g.state, h.state);
    }
  }
}
