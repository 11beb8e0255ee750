// P2_1: ultrasonic distance meter with polled switches. Three tasks share the
// globals `control`, `pausa` and `distancia`: LeerTecla (every 100 ms),
// LeerDistancia and MostrarDistancia (every second). Each task iteration is one
// atomic step of class Meter.

module MeterPolling {
  import opened Board
  import opened Vumeter

  /** The globals and the outputs the tasks drive. */
  datatype State = State(control: bool, pausa: bool, distancia: uint16, leds: Leds, lcd: Lcd)

  /** control starts true, pausa false, distancia 0 (a zero-initialised global). */
  const Initial := State(true, false, 0, AllOff, Blank)

  /** One iteration of LeerTecla with the reading of SwitchesRead. */
  function OnSwitches(s: State, teclas: uint8): (r: State)
    ensures r.distancia == s.distancia && r.leds == s.leds && r.lcd == s.lcd
    ensures r.control != s.control <==> teclas == SWITCH_1
    ensures r.pausa != s.pausa <==> teclas == SWITCH_2
  {
    if teclas == SWITCH_1 then s.(control := !s.control)
    else if teclas == SWITCH_2 then s.(pausa := !s.pausa)
    else s
  }

  /** One iteration of LeerDistancia with the sensor reading. */
  function OnMeasure(s: State, reading: uint16): (r: State)
    ensures r.distancia != s.distancia ==> s.control
    ensures s.control ==> r.distancia == reading
    ensures r.(distancia := s.distancia) == s
  {
    if s.control then s.(distancia := reading) else s
  }

  /** One iteration of MostrarDistancia. */
  function OnShow(s: State): (r: State)
    ensures r.(leds := s.leds, lcd := s.lcd) == s
    ensures r.lcd != s.lcd ==> s.control && !s.pausa
    ensures s.control && !s.pausa ==> r.lcd == Shows(s.distancia)
    ensures s.control ==> r.leds == Vumetro(s.distancia, s.leds)
    ensures !s.control ==> r == s
  {
    if s.control then
      s.(lcd := if !s.pausa then Shows(s.distancia) else s.lcd, leds := Vumetro(s.distancia, s.leds))
    else s
  }

  /** An iteration of one of the three tasks. */
  datatype Event = Switches(teclas: uint8) | Measure(reading: uint16) | Show

  function Step(s: State, e: Event): State {
    match e
    case Switches(t) => OnSwitches(s, t)
    case Measure(x) => OnMeasure(s, x)
    case Show => OnShow(s)
  }

  function Run(s: State, evs: seq<Event>): State
    decreases |evs|
  {
    if evs == [] then s else Run(Step(s, evs[0]), evs[1..])
  }

  /** While paused (until SWITCH_2 is read again) the LCD keeps what it showed, whatever is measured. */
  lemma {:induction false} HoldFreezesLcd(s: State, evs: seq<Event>)
    requires s.pausa
    requires forall k :: 0 <= k < |evs| ==> evs[k] != Switches(SWITCH_2)
    ensures Run(s, evs).lcd == s.lcd && Run(s, evs).pausa
    decreases |evs|
  {
    if evs != [] {
      HoldFreezesLcd(Step(s, evs[0]), evs[1..]);
    }
  }

  /** While control is off (until SWITCH_1 is read again) nothing is measured and the LEDs and LCD stay as they were. */
  lemma {:induction false} OffFreezesAll(s: State, evs: seq<Event>)
    requires !s.control
    requires forall k :: 0 <= k < |evs| ==> evs[k] != Switches(SWITCH_1)
    ensures Run(s, evs).(pausa := s.pausa) == s
    decreases |evs|
  {
    if evs != [] {
      OffFreezesAll(Step(s, evs[0]), evs[1..]);
    }
  }

  class Meter {
    var control: bool
    var pausa: bool
    var distancia: uint16
    var leds: Leds
    var lcd: Lcd

    function Get(): State
      reads this
    {
      State(control, pausa, distancia, leds, lcd)
    }

    constructor ()
      ensures Get() == Initial
    {
      control, pausa, distancia := true, false, 0;
      leds, lcd := AllOff, Blank;
    }

    /** LeerTecla: toggle control on SWITCH_1, pausa on SWITCH_2. */
    method LeerTecla(teclas: uint8)
      modifies this
      ensures Get() == OnSwitches(old(Get()), teclas)
    {
      if teclas == SWITCH_1 {
        control := !control;
      } else if teclas == SWITCH_2 {
        pausa := !pausa;
      }
    }

    /** LeerDistancia: store the reading of HcSr04ReadDistanceInCentimeters while control is on. */
    method LeerDistancia(reading: uint16)
      modifies this
      ensures Get() == OnMeasure(old(Get()), reading)
    {
      if control {
        distancia := reading;
      }
    }

    /** MostrarDistancia: write the LCD unless paused, and update the LED bar, while control is on. */
    method MostrarDistancia()
      modifies this
      ensures Get() == OnShow(old(Get()))
    {
      if control {
        if !pausa {
          lcd := Shows(distancia);
        }
        leds := Vumetro(distancia, leds);
      }
    }
  }
}
