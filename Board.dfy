// Values shared by every exercise of the board: the C integer widths the
// firmware uses, the three on-board LEDs, and GPIO writes recorded as a trace.

module Board {

  newtype uint8 = x: int | 0 <= x < 0x100
  newtype uint16 = x: int | 0 <= x < 0x1_0000
  newtype uint32 = x: int | 0 <= x < 0x1_0000_0000

  datatype Option<T> = None | Some(value: T)

  /** The three LEDs of the board (LED_1, LED_2, LED_3); true means lit. */
  datatype Leds = Leds(led1: bool, led2: bool, led3: bool)

  const AllOff := Leds(false, false, false)

  /** Number of lit LEDs. */
  function LitCount(l: Leds): (n: nat)
    ensures n <= 3
    ensures n == 0 <==> l == AllOff
    ensures n == 3 <==> l == Leds(true, true, true)
  {
    (if l.led1 then 1 else 0) + (if l.led2 then 1 else 0) + (if l.led3 then 1 else 0)
  }

  /** The readings of the two push buttons as the switch driver reports them (bit masks). */
  const SWITCH_1: uint8 := 1
  const SWITCH_2: uint8 := 2

  /** A GPIO pin number (GPIO_x is pin x). */
  type Pin = nat

  /** The direction a pin is configured with by GPIOInit. */
  datatype Direction = Input | Output

  /** One entry of a gpioConf_t array: a pin and its direction. */
  datatype GpioConf = GpioConf(pin: Pin, dir: Direction)

  /** One call to the GPIO driver: GPIOOn(pin) is PinWrite(pin, true), GPIOOff(pin) is PinWrite(pin, false). */
  datatype PinWrite = PinWrite(pin: Pin, on: bool)

  /** The level a pin was last driven to by the writes in `t`, or None if `t` never drives it. */
  function Level(t: seq<PinWrite>, p: Pin): (r: Option<bool>)
    ensures r.None? <==> forall k :: 0 <= k < |t| ==> t[k].pin != p
    ensures r.Some? ==> exists k :: 0 <= k < |t| && t[k] == PinWrite(p, r.value)
  {
    if t == [] then None
    else if t[|t| - 1].pin == p then Some(t[|t| - 1].on)
    else
      var r := Level(t[..|t| - 1], p);
      assert forall k :: 0 <= k < |t| - 1 ==> t[..|t| - 1][k] == t[k];
      r
  }

  /** Writes appended later override earlier ones; a pin the new writes never touch keeps its level. */
  lemma {:induction false} LevelAppend(a: seq<PinWrite>, b: seq<PinWrite>, p: Pin)
    ensures Level(a + b, p) == if Level(b, p).Some? then Level(b, p) else Level(a, p)
  {
    if b != [] {
      assert (a + b)[..|a + b| - 1] == a + b[..|b| - 1];
      LevelAppend(a, b[..|b| - 1], p);
    } else {
      assert a + b == a;
    }
  }

  /** A pin written exactly once in `t` is at the level of that write. */
  lemma {:induction false} LevelSingleWrite(t: seq<PinWrite>, i: nat)
    requires i < |t|
    requires forall k :: 0 <= k < |t| && k != i ==> t[k].pin != t[i].pin
    ensures Level(t, t[i].pin) == Some(t[i].on)
  {
    if i != |t| - 1 {
      var front := t[..|t| - 1];
      assert front[i] == t[i];
      LevelSingleWrite(front, i);
    }
  }
}
