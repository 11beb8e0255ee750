// The LED bar ("vumetro") and the LCD shared by the three ultrasonic distance
// exercises. vumetro is the same function in P2_1, P2_2 and P2_3.

module Vumeter {
  import opened Board

  /** What the LCD shows: nothing, or a number. */
  datatype Lcd = Blank | Shows(value: uint16)

  function Min(a: int, b: int): int {
    if a <= b then a else b
  }

  /** vumetro: the LEDs after showing a distance in cm. No branch matches exactly 10, 20
      or 30 cm, and then the LEDs keep their previous state. */
  function Vumetro(d: uint16, l: Leds): (r: Leds)
    ensures d in {10, 20, 30} ==> r == l
    // otherwise the LEDs form a bar whose length is the number of whole tens, at most three
    ensures d !in {10, 20, 30} ==> LitCount(r) == Min(d as int / 10, 3)
    ensures d !in {10, 20, 30} ==> (r.led2 ==> r.led1) && (r.led3 ==> r.led2)
  {
    if d < 10 then Leds(false, false, false)
    else if 10 < d < 20 then Leds(true, false, false)
    else if 20 < d < 30 then Leds(true, true, false)
    else if d > 30 then Leds(true, true, true)
    else l
  }

  /** The bands one by one. */
  lemma VumetroBands(d: uint16, l: Leds)
    ensures d < 10 ==> Vumetro(d, l) == AllOff
    ensures 10 < d < 20 ==> Vumetro(d, l) == Leds(true, false, false)
    ensures 20 < d < 30 ==> Vumetro(d, l) == Leds(true, true, false)
    ensures d > 30 ==> Vumetro(d, l) == Leds(true, true, true)
  {
  }

  /** Away from the three gaps, a farther object never lights fewer LEDs. */
  lemma VumetroMonotone(d: uint16, e: uint16, l: Leds, m: Leds)
    requires d <= e && d !in {10, 20, 30} && e !in {10, 20, 30}
    ensures LitCount(Vumetro(d, l)) <= LitCount(Vumetro(e, m))
  {
  }
}
