// P2_3: the interrupt-driven distance meter that also reports every displayed
// distance on the PC serial port and takes the keys 'O' and 'H' from it. The
// strings UartSendString writes are kept, in order, as a trace.

module MeterSerial {
  import opened Board
  import opened Vumeter
  import opened DecimalText

  datatype State = State(control: bool, pausa: bool, distancia: uint16, leds: Leds, lcd: Lcd,
                         uart: seq<string>)

  /** control starts false here, pausa false, distancia 0; nothing has been sent. */
  const Initial := State(false, false, 0, AllOff, Blank, [])

  /** The four strings sent for one displayed distance: its decimal text, " ", "cm", "\r\n". */
  function Report(d: uint16): (r: seq<string>)
    ensures |r| == 4 && IsDigits(r[0]) && r[1..] == [" ", "cm", "\r\n"]
  {
    [Decimal(d as nat), " ", "cm", "\r\n"]
  }

  /** A serial trace made of whole reports. */
  predicate Framed(u: seq<string>)
    decreases |u|
  {
    u == [] || (|u| >= 4 && Framed(u[..|u| - 4]) && IsDigits(u[|u| - 4]) && u[|u| - 3..] == [" ", "cm", "\r\n"])
  }

  /** The distances a framed trace reports, oldest first (what a PC reading the port would print). */
  function Reported(u: seq<string>): seq<nat>
    requires Framed(u)
    decreases |u|
  {
    if u == [] then [] else Reported(u[..|u| - 4]) + [Value(u[|u| - 4])]
  }

  /** Sending a report keeps the trace framed, and the PC reads back exactly the distance sent. */
  lemma ReportReadBack(u: seq<string>, d: uint16)
    requires Framed(u)
    ensures Framed(u + Report(d))
    ensures Reported(u + Report(d)) == Reported(u) + [d as nat]
  {
    var v := u + Report(d);
    assert v[..|v| - 4] == u;
    assert v[|v| - 4] == Decimal(d as nat);
    assert v[|v| - 3..] == Report(d)[1..];
    ValueOfDecimal(d as nat);
  }

  /** LeerTeclaOnOff. */
  function ToggleControl(s: State): (r: State)
    ensures r.control == !s.control && r.(control := s.control) == s
  {
    s.(control := !s.control)
  }

  /** LeerTeclaHold. */
  function ToggleHold(s: State): (r: State)
    ensures r.pausa == !s.pausa && r.(pausa := s.pausa) == s
  {
    s.(pausa := !s.pausa)
  }

  /** controlXTeclado with the byte UartReadByte returned: 'O' acts as SWITCH_1, 'H' as SWITCH_2. */
  function OnSerialKey(s: State, tecla: uint8): (r: State)
    ensures r.control != s.control <==> tecla == 'O' as uint8
    ensures r.pausa != s.pausa <==> tecla == 'H' as uint8
    ensures r.(control := s.control, pausa := s.pausa) == s
  {
    if tecla == 'O' as uint8 then ToggleControl(s)
    else if tecla == 'H' as uint8 then ToggleHold(s)
    else s
  }

  /** Each key undoes itself. */
  lemma SerialKeyInvolution(s: State, tecla: uint8)
    ensures OnSerialKey(OnSerialKey(s, tecla), tecla) == s
  {
  }

  /** One iteration of LeerDistancia. */
  function OnMeasure(s: State, reading: uint16): (r: State)
    ensures r.distancia != s.distancia ==> s.control
    ensures s.control ==> r.distancia == reading
    ensures r.(distancia := s.distancia) == s
  {
    if s.control then s.(distancia := reading) else s
  }

  /** One iteration of MostrarDistancia. */
  function OnShow(s: State): (r: State)
    ensures r.(leds := s.leds, lcd := s.lcd, uart := s.uart) == s
    ensures !s.control ==> r.leds == AllOff && r.lcd == Blank && r.uart == s.uart
    ensures s.control ==> r.leds == Vumetro(s.distancia, s.leds)
    ensures s.control && s.pausa ==> r.lcd == s.lcd && r.uart == s.uart
    ensures s.control && !s.pausa ==> r.lcd == Shows(s.distancia) && r.uart == s.uart + Report(s.distancia)
  {
    if s.control then
      if !s.pausa then
        s.(lcd := Shows(s.distancia), uart := s.uart + Report(s.distancia), leds := Vumetro(s.distancia, s.leds))
      else
        s.(leds := Vumetro(s.distancia, s.leds))
    else
      s.(leds := AllOff, lcd := Blank)
  }

  /** A switch interrupt, a serial byte, or a task iteration. */
  datatype Event = OnOff | Hold | Serial(tecla: uint8) | Measure(reading: uint16) | Show

  function Step(s: State, e: Event): State {
    match e
    case OnOff => ToggleControl(s)
    case Hold => ToggleHold(s)
    case Serial(t) => OnSerialKey(s, t)
    case Measure(x) => OnMeasure(s, x)
    case Show => OnShow(s)
  }

  function Run(s: State, evs: seq<Event>): State
    decreases |evs|
  {
    if evs == [] then s else Run(Step(s, evs[0]), evs[1..])
  }

  /** Every event keeps the serial trace made of whole reports; a display step while running and
      not paused adds the current distance to what the PC reads, and nothing else adds anything. */
  lemma StepReports(s: State, e: Event)
    requires Framed(s.uart)
    ensures Framed(Step(s, e).uart)
    ensures Reported(Step(s, e).uart) ==
            if e == Show && s.control && !s.pausa then Reported(s.uart) + [s.distancia as nat] else Reported(s.uart)
  {
    if e == Show && s.control && !s.pausa {
      ReportReadBack(s.uart, s.distancia);
    }
  }

  /** From any framed state, the serial trace stays framed. */
  lemma {:induction false} RunFramed(s: State, evs: seq<Event>)
    requires Framed(s.uart)
    ensures Framed(Run(s, evs).uart)
    ensures |Reported(Run(s, evs).uart)| >= |Reported(s.uart)|
    decreases |evs|
  {
    if evs != [] {
      StepReports(s, evs[0]);
      RunFramed(Step(s, evs[0]), evs[1..]);
    }
  }

  /** Since control starts off, nothing is measured or sent until 'O' or SWITCH_1 turns it on. */
  lemma {:induction false} SilentUntilOn(s: State, evs: seq<Event>)
    requires !s.control
    requires forall k :: 0 <= k < |evs| ==> evs[k] != OnOff && evs[k] != Serial('O' as uint8)
    ensures Run(s, evs).uart == s.uart && Run(s, evs).distancia == s.distancia
    ensures !Run(s, evs).control
    decreases |evs|
  {
    if evs != [] {
      SilentUntilOn(Step(s, evs[0]), evs[1..]);
    }
  }

  class SerialMeter {
    var control: bool
    var pausa: bool
    var distancia: uint16
    var leds: Leds
    var lcd: Lcd
    var uart: seq<string>

    function Get(): State
      reads this
    {
      State(control, pausa, distancia, leds, lcd, uart)
    }

    constructor ()
      ensures Get() == Initial
    {
      control, pausa, distancia := false, false, 0;
      leds, lcd, uart := AllOff, Blank, [];
    }

    method UartSendString(msg: string)
      modifies this
      ensures uart == old(uart) + [msg]
      ensures control == old(control) && pausa == old(pausa) && distancia == old(distancia)
      ensures leds == old(leds) && lcd == old(lcd)
    {
      uart := uart + [msg];
    }

    method LeerTeclaOnOff()
      modifies this
      ensures Get() == ToggleControl(old(Get()))
    {
      control := !control;
    }

    method LeerTeclaHold()
      modifies this
      ensures Get() == ToggleHold(old(Get()))
    {
      pausa := !pausa;
    }

    /** controlXTeclado, with the byte read from the port. */
    method ControlXTeclado(tecla: uint8)
      modifies this
      ensures Get() == OnSerialKey(old(Get()), tecla)
    {
      if tecla == 'O' as uint8 {
        LeerTeclaOnOff();
      } else if tecla == 'H' as uint8 {
        LeerTeclaHold();
      }
    }

    method LeerDistancia(reading: uint16)
      modifies this
      ensures Get() == OnMeasure(old(Get()), reading)
    {
      if control {
        distancia := reading;
      }
    }

    method MostrarDistancia()
      modifies this
      ensures Get() == OnShow(old(Get()))
    {
      if control {
        if !pausa {
          lcd := Shows(distancia);
          UartSendString(Decimal(distancia as nat));
          UartSendString(" ");
          UartSendString("cm");
          UartSendString("\r\n");
        }
        leds := Vumetro(distancia, leds);
      } else {
        leds := AllOff;
        lcd := Blank;
      }
    }
  }
}
