// P2_2: ultrasonic distance meter driven by a timer and switch interrupts. The
// switch callbacks LeerTeclaOnOff / LeerTeclaHold (or LeerTecla with the switch
// as argument) toggle the globals; the two timer-notified tasks measure and
// display. Each callback or task iteration is one atomic step of class Meter.

module MeterInterrupts {
  import opened Board
  import opened Vumeter

  datatype State = State(control: bool, pausa: bool, distancia: uint16, leds: Leds, lcd: Lcd)

  /** control starts true, pausa false, distancia 0. */
  const Initial := State(true, false, 0, AllOff, Blank)

  /** LeerTeclaOnOff. */
  function ToggleControl(s: State): (r: State)
    ensures r.control == !s.control && r.(control := s.control) == s
  {
    s.(control := !s.control)
  }

  /** LeerTeclaHold. */
  function ToggleHold(s: State): (r: State)
    ensures r.pausa == !s.pausa && r.(pausa := s.pausa) == s
  {
    s.(pausa := !s.pausa)
  }

  /** LeerTecla(tecla): the callback that takes the switch as its argument. */
  function OnKey(s: State, tecla: uint8): State {
    if tecla == SWITCH_1 then s.(control := !s.control)
    else if tecla == SWITCH_2 then s.(pausa := !s.pausa)
    else s
  }

  /** Each toggle undoes itself, and the one-argument callback does what the two dedicated ones do. */
  lemma TogglesAreInvolutions(s: State)
    ensures ToggleControl(ToggleControl(s)) == s
    ensures ToggleHold(ToggleHold(s)) == s
    ensures OnKey(s, SWITCH_1) == ToggleControl(s)
    ensures OnKey(s, SWITCH_2) == ToggleHold(s)
    ensures forall t :: t != SWITCH_1 && t != SWITCH_2 ==> OnKey(s, t) == s
  {
  }

  /** One iteration of LeerDistancia. */
  function OnMeasure(s: State, reading: uint16): (r: State)
    ensures r.distancia != s.distancia ==> s.control
    ensures s.control ==> r.distancia == reading
    ensures r.(distancia := s.distancia) == s
  {
    if s.control then s.(distancia := reading) else s
  }

  /** One iteration of MostrarDistancia. */
  function OnShow(s: State): (r: State)
    ensures r.(leds := s.leds, lcd := s.lcd) == s
    ensures !s.control ==> r.leds == AllOff && r.lcd == Blank
    ensures s.control && s.pausa ==> r.lcd == s.lcd && r.leds == Vumetro(s.distancia, s.leds)
    ensures s.control && !s.pausa ==> r.lcd == Shows(s.distancia) && r.leds == Vumetro(s.distancia, s.leds)
  {
    if s.control then
      s.(lcd := if !s.pausa then Shows(s.distancia) else s.lcd, leds := Vumetro(s.distancia, s.leds))
    else s.(leds := AllOff, lcd := Blank)
  }

  /** A callback or a task iteration. */
  datatype Event = OnOff | Hold | Measure(reading: uint16) | Show

  function Step(s: State, e: Event): State {
    match e
    case OnOff => ToggleControl(s)
    case Hold => ToggleHold(s)
    case Measure(x) => OnMeasure(s, x)
    case Show => OnShow(s)
  }

  function Run(s: State, evs: seq<Event>): State
    decreases |evs|
  {
    if evs == [] then s else Run(Step(s, evs[0]), evs[1..])
  }

  /** While control is off, the distance is frozen, and after any display step the LEDs and LCD are dark. */
  lemma {:induction false} OffIsDark(s: State, evs: seq<Event>)
    requires !s.control && ((s.leds == AllOff && s.lcd == Blank) || Show in evs)
    requires OnOff !in evs
    ensures Run(s, evs).distancia == s.distancia && !Run(s, evs).control
    ensures Run(s, evs).leds == AllOff && Run(s, evs).lcd == Blank
    decreases |evs|
  {
    if evs != [] {
      assert evs == [evs[0]] + evs[1..];
      OffIsDark(Step(s, evs[0]), evs[1..]);
    }
  }

  class Meter {
    var control: bool
    var pausa: bool
    var distancia: uint16
    var leds: Leds
    var lcd: Lcd

    function Get(): State
      reads this
    {
      State(control, pausa, distancia, leds, lcd)
    }

    constructor ()
      ensures Get() == Initial
    {
      control, pausa, distancia := true, false, 0;
      leds, lcd := AllOff, Blank;
    }

    method LeerTeclaOnOff()
      modifies this
      ensures Get() == ToggleControl(old(Get()))
    {
      control := !control;
    }

    method LeerTeclaHold()
      modifies this
      ensures Get() == ToggleHold(old(Get()))
    {
      pausa := !pausa;
    }

    method LeerTecla(tecla: uint8)
      modifies this
      ensures Get() == OnKey(old(Get()), tecla)
    {
      if tecla == SWITCH_1 {
        control := !control;
      } else if tecla == SWITCH_2 {
        pausa := !pausa;
      }
    }

    /** LeerDistancia, after its timer notification. */
    method LeerDistancia(reading: uint16)
      modifies this
      ensures Get() == OnMeasure(old(Get()), reading)
    {
      if control {
        distancia := reading;
      }
    }

    /** MostrarDistancia, after its timer notification. */
    method MostrarDistancia()
      modifies this
      ensures Get() == OnShow(old(Get()))
    {
      if control {
        if !pausa {
          lcd := Shows(distancia);
        }
        leds := Vumetro(distancia, leds);
      } else {
        leds := AllOff;
        lcd := Blank;
      }
    }
  }
}
