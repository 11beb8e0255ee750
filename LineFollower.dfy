// The line-following robot controller: BLE command handler, heading decision,
// motor table, battery monitor and link fail-safe. Each FreeRTOS task body or
// callback is one atomic step of class Robot; the BLE and motor drivers are
// represented by the traces of calls made to them.

module LineFollower {
  import opened Board
  import opened DecimalText

  // Motor driver wiring (L9110): MIA/MDA carry the PWM, MIB/MDB select forward.
  const MIA: Pin := 16
  const MDA: Pin := 17
  const MIB: Pin := 22
  const MDB: Pin := 23

  /** pwm_control_motores[0] is PWM_0 on the left motor, [1] is PWM_1 on the right motor. */
  datatype PwmChannel = PWM_0 | PWM_1

  /** One call made by ControlMotores to the GPIO or PWM driver. */
  datatype MotorCall = GpioOn(pin: Pin) | PwmOn(ch: PwmChannel) | PwmSetDuty(ch: PwmChannel, duty: nat)

  /** The two globals `encendido` (running) and `pausa` (paused). They are
      independent booleans: nothing keeps `pausa` false while `encendido` is. */
  datatype RunFlags = RunFlags(encendido: bool, pausa: bool)

  /** Both flags start false. */
  const Boot := RunFlags(false, false)

  // ---------------------------------------------------------------------------
  // Command handler (read_data)

  const StartMessages := ["RR0G0B0*", "AR0G0B0*", "*VR0G255B0*", "*MRobot en marcha\n*"]
  const StopMessages := ["VR0G0B0*", "AR0G0B0*", "*RR255G0B0*", "*MRobot estacionado\n*"]
  const PauseMessages := ["*AR222G206B42*", "*MRobot pausado\n*"]
  const ResumeMessages := ["AR0G0B0*", "*MRobot reanudado\n*"]

  const CMD_START: uint8 := 'O' as uint8
  const CMD_STOP: uint8 := 'o' as uint8
  const CMD_PAUSE: uint8 := 'P' as uint8
  const CMD_RESUME: uint8 := 'p' as uint8

  /** The new flags and the strings sent over BLE, in order, for one received first byte. */
  datatype CommandOutcome = CommandOutcome(flags: RunFlags, sent: seq<string>)

  function OnCommand(flags: RunFlags, b: uint8): (r: CommandOutcome)
    // something is sent exactly when the byte is accepted; an ignored byte changes nothing
    ensures r.sent == [] <==> (b !in {CMD_START, CMD_STOP, CMD_PAUSE, CMD_RESUME}
                               || (b in {CMD_PAUSE, CMD_RESUME} && !flags.encendido))
    ensures r.sent == [] ==> r.flags == flags
    // 'O'/'o' only move encendido, 'P'/'p' only move pausa and only while running
    ensures r.flags.encendido != flags.encendido ==> b in {CMD_START, CMD_STOP}
    ensures r.flags.pausa != flags.pausa ==> b in {CMD_PAUSE, CMD_RESUME} && flags.encendido
  {
    if b == CMD_START then CommandOutcome(flags.(encendido := true), StartMessages)
    else if b == CMD_STOP then CommandOutcome(flags.(encendido := false), StopMessages)
    else if b == CMD_PAUSE then
      if flags.encendido then CommandOutcome(flags.(pausa := true), PauseMessages)
      else CommandOutcome(flags, [])
    else if b == CMD_RESUME then
      if flags.encendido then CommandOutcome(flags.(pausa := false), ResumeMessages)
      else CommandOutcome(flags, [])
    else CommandOutcome(flags, [])
  }

  /** Each accepted command sets exactly its flag and sends its fixed sequence. */
  lemma CommandTable(flags: RunFlags)
    ensures OnCommand(flags, CMD_START) == CommandOutcome(RunFlags(true, flags.pausa), StartMessages)
    ensures OnCommand(flags, CMD_STOP) == CommandOutcome(RunFlags(false, flags.pausa), StopMessages)
    ensures flags.encendido ==> OnCommand(flags, CMD_PAUSE) == CommandOutcome(RunFlags(true, true), PauseMessages)
    ensures flags.encendido ==> OnCommand(flags, CMD_RESUME) == CommandOutcome(RunFlags(true, false), ResumeMessages)
  {
  }

  // ---------------------------------------------------------------------------
  // Heading decision (DetectarLinea) and motor table (ControlMotores)

  /** The direction char chosen in one cycle from the flags and the left/right line sensors. */
  function Heading(flags: RunFlags, izq: bool, der: bool): (d: char)
    ensures d in "AIDF"
    ensures !(flags.encendido && !flags.pausa) ==> d == 'F'
    ensures flags.encendido && !flags.pausa ==>
              (d == 'A' <==> izq && der) && (d == 'D' <==> izq && !der) && (d == 'I' <==> !izq && der)
  {
    if flags.encendido && !flags.pausa then
      if izq && der then 'A'
      else if izq && !der then 'D'
      else if !izq && der then 'I'
      else 'F'
    else 'F'
  }

  /** The (left, right) duty cycles ControlMotores sets for a direction char, if any. */
  function Duties(d: char): Option<(nat, nat)>
  {
    match d
    case 'A' => Some((65, 65))
    case 'I' => Some((90, 30))
    case 'D' => Some((30, 90))
    case 'F' => Some((100, 100))
    case _ => None
  }

  /** The driver calls ControlMotores makes for a direction char. */
  function MotorCalls(d: char): (r: seq<MotorCall>)
    ensures |r| >= 2 && r[..2] == [GpioOn(MIB), GpioOn(MDB)]
    ensures Duties(d).None? <==> |r| == 2
    ensures Duties(d).Some? ==>
              r[|r| - 2..] == [PwmSetDuty(PWM_0, Duties(d).value.0), PwmSetDuty(PWM_1, Duties(d).value.1)]
  {
    var forward := [GpioOn(MIB), GpioOn(MDB)];
    match d
    case 'A' => forward + [PwmOn(PWM_0), PwmOn(PWM_1), PwmSetDuty(PWM_0, 65), PwmSetDuty(PWM_1, 65)]
    case 'I' => forward + [PwmOn(PWM_0), PwmOn(PWM_1), PwmSetDuty(PWM_0, 90), PwmSetDuty(PWM_1, 30)]
    case 'D' => forward + [PwmOn(PWM_0), PwmOn(PWM_1), PwmSetDuty(PWM_0, 30), PwmSetDuty(PWM_1, 90)]
    case 'F' => forward + [PwmSetDuty(PWM_0, 100), PwmSetDuty(PWM_1, 100)]
    case _ => forward
  }

  /** The PWM outputs are switched on only for 'A', 'I' and 'D'; 'F' and unknown chars only set duties or nothing. */
  lemma PwmOnOnlyWhenMoving(d: char)
    ensures (PwmOn(PWM_0) in MotorCalls(d)) <==> d in "AID"
    ensures (PwmOn(PWM_1) in MotorCalls(d)) <==> d in "AID"
  {
  }

  /** Going ahead drives both wheels equally; 'I' drives the left wheel harder, 'D' the right one; no duty exceeds 100. */
  lemma DutyAsymmetry()
    ensures Duties('A').value.0 == Duties('A').value.1
    ensures Duties('I').value.0 > Duties('I').value.1
    ensures Duties('D').value.1 > Duties('D').value.0
    ensures forall d :: Duties(d).Some? ==> Duties(d).value.0 <= 100 && Duties(d).value.1 <= 100
  {
  }

  /** Every heading the decision engine produces has an entry in the motor table. */
  lemma HeadingHasDuties(flags: RunFlags, izq: bool, der: bool)
    ensures Duties(Heading(flags, izq, der)).Some?
    ensures |MotorCalls(Heading(flags, izq, der))| > 2
  {
  }

  // ---------------------------------------------------------------------------
  // Battery monitor (ControlBateria)

  /** nivel_bat_dig = nivel_bat_analog * 100 / 2100, in C integer arithmetic (no overflow: the
      product is an int and the quotient is at most 3120). */
  function BatteryPercent(raw: uint16): (p: uint16)
    ensures p as int * 2100 <= raw as int * 100 < (p as int + 1) * 2100
  {
    (raw as int * 100 / 2100) as uint16
  }

  /** A higher reading never reports a lower percentage. */
  lemma BatteryPercentMonotone(a: uint16, b: uint16)
    requires a <= b
    ensures BatteryPercent(a) <= BatteryPercent(b)
  {
    var pa, pb := BatteryPercent(a) as int, BatteryPercent(b) as int;
    assert pa * 2100 < (pb + 1) * 2100;
  }

  /** The percentage is at most 100 exactly for readings up to 2120; it is not clamped. */
  lemma BatteryPercentRange(raw: uint16)
    ensures BatteryPercent(raw) <= 100 <==> raw <= 2120
  {
    var p := BatteryPercent(raw) as int;
    if raw <= 2120 {
      assert p * 2100 <= 212000 < 101 * 2100;
    } else {
      assert 212100 <= raw as int * 100 < (p + 1) * 2100;
    }
  }

  datatype BatteryBand = Critical | Low | Medium | Good

  /** The band of the if/else-if chain of ControlBateria; None when no branch matches. */
  function Band(p: uint16): (r: Option<BatteryBand>)
    ensures r.None? <==> p > 100
  {
    if p <= 10 then Some(Critical)
    else if p <= 20 then Some(Low)
    else if p <= 50 then Some(Medium)
    else if p <= 100 then Some(Good)
    else None
  }

  /** Where the bands change: 0..10 critical, 11..20 low, 21..50 medium, 51..100 good. */
  lemma BandTable(p: uint16)
    ensures p <= 10 ==> Band(p) == Some(Critical)
    ensures 11 <= p <= 20 ==> Band(p) == Some(Low)
    ensures 21 <= p <= 50 ==> Band(p) == Some(Medium)
    ensures 51 <= p <= 100 ==> Band(p) == Some(Good)
  {
  }

  function BandRank(b: BatteryBand): nat {
    match b
    case Critical => 0
    case Low => 1
    case Medium => 2
    case Good => 3
  }

  /** The bands are ordered like the percentages. */
  lemma BandMonotone(p: uint16, q: uint16)
    requires p <= q <= 100
    ensures BandRank(Band(p).value) <= BandRank(Band(q).value)
  {
  }

  const BatteryPrefix := "*BEl nivel de bateria es de: "

  /** The text after the percentage for each band. */
  function BandText(b: BatteryBand): string {
    match b
    case Critical => " \n NIVEL BATERIA CRITICO! Cambie las baterias...\n\n*"
    case Low => " \n NIVEL DE BATERIA BAJO!\n\n*"
    case Medium => " \n NIVEL DE BATERIA MEDIO\n\n*"
    case Good => " \n NIVEL DE BATERIA BUENO\n\n*"
  }

  /** The `*B...*` telemetry message sprintf writes into aux_bat. */
  function BatteryMessage(p: uint16, b: BatteryBand): (m: string)
    ensures BatteryPrefix <= m && m[|m| - 1] == '*'
  {
    BatteryPrefix + Decimal(p as nat) + "%" + BandText(b)
  }

  /** The longest prefix of `s` made of decimal digits. */
  function DigitRun(s: string): (r: string)
    ensures r <= s && IsDigits(r)
  {
    if s != [] && '0' <= s[0] <= '9' then [s[0]] + DigitRun(s[1..]) else []
  }

  lemma {:induction false} DigitRunOf(d: string, rest: string)
    requires IsDigits(d)
    requires rest != [] && !('0' <= rest[0] <= '9')
    ensures DigitRun(d + rest) == d
  {
    if d != [] {
      assert (d + rest)[1..] == d[1..] + rest;
      DigitRunOf(d[1..], rest);
    }
  }

  /** The percentage a receiver reads back from a battery message. */
  function ReportedPercent(m: string): Option<nat> {
    if BatteryPrefix <= m then Some(Value(DigitRun(m[|BatteryPrefix|..]))) else None
  }

  /** Dropping a prefix from a concatenation leaves the rest. */
  lemma DropPrefix(front: string, back: string)
    ensures (front + back)[|front|..] == back
  {
  }

  /** The message carries the percentage it was built from. */
  lemma ReportedPercentOfMessage(p: uint16, b: BatteryBand)
    ensures ReportedPercent(BatteryMessage(p, b)) == Some(p as nat)
  {
    var digits, rest := Decimal(p as nat), "%" + BandText(b);
    assert BatteryMessage(p, b) == BatteryPrefix + (digits + rest);
    DropPrefix(BatteryPrefix, digits + rest);
    DigitRunOf(digits, rest);
    ValueOfDecimal(p as nat);
  }

  /** The next content of aux_bat: the message of the band, or the previous content when no band matches. */
  function NextAuxBat(prev: string, raw: uint16): (m: string)
    ensures raw <= 2120 ==> ReportedPercent(m) == Some(BatteryPercent(raw) as nat)
    ensures forall b :: Band(BatteryPercent(raw)) == Some(b) ==> m == BatteryMessage(BatteryPercent(raw), b)
    ensures raw > 2120 ==> m == prev
  {
    var p := BatteryPercent(raw);
    BatteryPercentRange(raw);
    match Band(p)
    case Some(b) =>
      ReportedPercentOfMessage(p, b);
      BatteryMessage(p, b)
    case None => prev
  }

  /** A reading of 168 is 8 %, a critical battery; a reading of 1155 is 55 %, a good one. */
  lemma BatteryExamples(prev: string)
    ensures NextAuxBat(prev, 168) == BatteryMessage(8, Critical)
    ensures NextAuxBat(prev, 1155) == BatteryMessage(55, Good)
  {
    assert BatteryPercent(168) == 8;
    assert BatteryPercent(1155) == 55;
    BandTable(8);
    BandTable(55);
  }

  // ---------------------------------------------------------------------------
  // Link fail-safe (BLE status switch of app_main)

  datatype BleStatus = BLE_OFF | BLE_DISCONNECTED | BLE_CONNECTED

  /** The flags after one poll of the link status. */
  function LinkFlags(flags: RunFlags, s: BleStatus): RunFlags {
    if s == BLE_CONNECTED then flags else RunFlags(false, false)
  }

  /** The LEDs after one poll: LED_3 alone when off, LED_2 blinking when disconnected, LED_1 alone when connected. */
  function LinkLeds(l: Leds, s: BleStatus): Leds {
    match s
    case BLE_OFF => Leds(false, false, true)
    case BLE_DISCONNECTED => Leds(false, !l.led2, false)
    case BLE_CONNECTED => Leds(true, false, false)
  }

  /** After a poll that finds the link down the robot stops whatever the sensors say, and the
      battery task stays silent; a connected link leaves the flags alone. */
  lemma LinkLossStops(flags: RunFlags, s: BleStatus, izq: bool, der: bool)
    ensures s != BLE_CONNECTED ==> LinkFlags(flags, s) == Boot && Heading(LinkFlags(flags, s), izq, der) == 'F'
    ensures s == BLE_CONNECTED ==> LinkFlags(flags, s) == flags
  {
  }

  // ---------------------------------------------------------------------------
  // Sequences of events acting on the flags

  /** What can change the flags: a BLE message (its first byte) or a link-status poll. */
  datatype Event = Received(b: uint8) | Polled(status: BleStatus)

  function Apply(flags: RunFlags, e: Event): RunFlags {
    match e
    case Received(b) => OnCommand(flags, b).flags
    case Polled(s) => LinkFlags(flags, s)
  }

  function Run(flags: RunFlags, evs: seq<Event>): RunFlags
    decreases |evs|
  {
    if evs == [] then flags else Run(Apply(flags, evs[0]), evs[1..])
  }

  /** 'o' leaves pausa alone, so O, P, o reaches "stopped but paused"; a further O then
      runs with pausa still set, and the robot stays stopped whatever the sensors say. */
  lemma StoppedWhilePausedReachable(izq: bool, der: bool)
    ensures Run(Boot, [Received(CMD_START), Received(CMD_PAUSE), Received(CMD_STOP)]) == RunFlags(false, true)
    ensures Run(Boot, [Received(CMD_START), Received(CMD_PAUSE), Received(CMD_STOP), Received(CMD_START)])
            == RunFlags(true, true)
    ensures Heading(RunFlags(true, true), izq, der) == 'F'
  {
    var e1, e2, e3, e4 := Received(CMD_START), Received(CMD_PAUSE), Received(CMD_STOP), Received(CMD_START);
    assert [e1, e2, e3][1..] == [e2, e3] && [e2, e3][1..] == [e3] && [e3][1..] == [];
    assert Run(RunFlags(false, true), []) == RunFlags(false, true);
    assert Run(RunFlags(true, true), [e3]) == RunFlags(false, true);
    assert Run(RunFlags(true, false), [e2, e3]) == RunFlags(false, true);
    assert [e1, e2, e3, e4][1..] == [e2, e3, e4] && [e2, e3, e4][1..] == [e3, e4] && [e3, e4][1..] == [e4];
    assert [e4][1..] == [];
    assert Run(RunFlags(true, true), []) == RunFlags(true, true);
    assert Run(RunFlags(false, true), [e4]) == RunFlags(true, true);
    assert Run(RunFlags(true, true), [e3, e4]) == RunFlags(true, true);
    assert Run(RunFlags(true, false), [e2, e3, e4]) == RunFlags(true, true);
  }

  /** Once paused, the robot stays paused (and so stopped) until it receives 'p' or the link drops. */
  lemma {:induction false} PauseHoldsUntilResume(flags: RunFlags, evs: seq<Event>, izq: bool, der: bool)
    requires flags.pausa
    requires forall k :: 0 <= k < |evs| ==> evs[k] != Received(CMD_RESUME) && evs[k] !in {Polled(BLE_OFF), Polled(BLE_DISCONNECTED)}
    ensures Run(flags, evs).pausa
    ensures Heading(Run(flags, evs), izq, der) == 'F'
    decreases |evs|
  {
    if evs != [] {
      PauseHoldsUntilResume(Apply(flags, evs[0]), evs[1..], izq, der);
    }
  }

  /** Without an 'o', "paused implies running" holds from boot on: the only way to be
      stopped but paused is the 'o' command. */
  lemma {:induction false} PausedImpliesRunningWithoutStop(flags: RunFlags, evs: seq<Event>)
    requires flags.pausa ==> flags.encendido
    requires forall k :: 0 <= k < |evs| ==> evs[k] != Received(CMD_STOP)
    ensures Run(flags, evs).pausa ==> Run(flags, evs).encendido
    decreases |evs|
  {
    if evs != [] {
      PausedImpliesRunningWithoutStop(Apply(flags, evs[0]), evs[1..]);
    }
  }

  // ---------------------------------------------------------------------------
  // The robot's state and its steps

  class Robot {
    var encendido: bool
    var pausa: bool
    var direccion: char
    /** ControlBateria's aux_bat buffer; it keeps its content between iterations of the task loop. */
    var auxBat: string
    /** Every string passed to BleSendString, in order. */
    var bleSent: seq<string>
    /** Every call ControlMotores made to the GPIO and PWM drivers, in order. */
    var motorCalls: seq<MotorCall>
    var leds: Leds

    function Flags(): RunFlags
      reads this
    {
      RunFlags(encendido, pausa)
    }

    /** State at boot: both flags false, direccion 'X', aux_bat empty, LEDs off. */
    constructor ()
      ensures Flags() == Boot && direccion == 'X' && auxBat == ""
      ensures bleSent == [] && motorCalls == [] && leds == AllOff
    {
      encendido, pausa := false, false;
      direccion := 'X';
      auxBat := "";
      bleSent, motorCalls := [], [];
      leds := AllOff;
    }

    method BleSendString(s: string)
      modifies this`bleSent
      ensures bleSent == old(bleSent) + [s]
    {
      bleSent := bleSent + [s];
    }

    /** read_data: the BLE receive callback. */
    method ReadData(data: seq<uint8>)
      requires |data| > 0
      modifies this`encendido, this`pausa, this`bleSent
      ensures Flags() == OnCommand(old(Flags()), data[0]).flags
      ensures bleSent == old(bleSent) + OnCommand(old(Flags()), data[0]).sent
    {
      var b := data[0];
      if b == CMD_START {
        encendido := true;
        BleSendString("RR0G0B0*");
        BleSendString("AR0G0B0*");
        BleSendString("*VR0G255B0*");
        BleSendString("*MRobot en marcha\n*");
      } else if b == CMD_STOP {
        encendido := false;
        BleSendString("VR0G0B0*");
        BleSendString("AR0G0B0*");
        BleSendString("*RR255G0B0*");
        BleSendString("*MRobot estacionado\n*");
      } else if b == CMD_PAUSE {
        if encendido {
          pausa := true;
          BleSendString("*AR222G206B42*");
          BleSendString("*MRobot pausado\n*");
        }
      } else if b == CMD_RESUME {
        if encendido {
          pausa := false;
          BleSendString("AR0G0B0*");
          BleSendString("*MRobot reanudado\n*");
        }
      }
    }

    method Emit(c: MotorCall)
      modifies this`motorCalls
      ensures motorCalls == old(motorCalls) + [c]
    {
      motorCalls := motorCalls + [c];
    }

    /** ControlMotores: forward enables high, then the PWM settings of the current direccion. */
    method ControlMotores()
      modifies this`motorCalls
      ensures motorCalls == old(motorCalls) + MotorCalls(direccion)
    {
      Emit(GpioOn(MIB));
      Emit(GpioOn(MDB));
      ghost var forward := motorCalls;
      if direccion == 'A' {
        Emit(PwmOn(PWM_0));
        Emit(PwmOn(PWM_1));
        Emit(PwmSetDuty(PWM_0, 65));
        Emit(PwmSetDuty(PWM_1, 65));
        assert motorCalls == forward + [PwmOn(PWM_0), PwmOn(PWM_1), PwmSetDuty(PWM_0, 65), PwmSetDuty(PWM_1, 65)];
      } else if direccion == 'I' {
        Emit(PwmOn(PWM_0));
        Emit(PwmOn(PWM_1));
        Emit(PwmSetDuty(PWM_0, 90));
        Emit(PwmSetDuty(PWM_1, 30));
        assert motorCalls == forward + [PwmOn(PWM_0), PwmOn(PWM_1), PwmSetDuty(PWM_0, 90), PwmSetDuty(PWM_1, 30)];
      } else if direccion == 'D' {
        Emit(PwmOn(PWM_0));
        Emit(PwmOn(PWM_1));
        Emit(PwmSetDuty(PWM_0, 30));
        Emit(PwmSetDuty(PWM_1, 90));
        assert motorCalls == forward + [PwmOn(PWM_0), PwmOn(PWM_1), PwmSetDuty(PWM_0, 30), PwmSetDuty(PWM_1, 90)];
      } else if direccion == 'F' {
        Emit(PwmSetDuty(PWM_0, 100));
        Emit(PwmSetDuty(PWM_1, 100));
        assert motorCalls == forward + [PwmSetDuty(PWM_0, 100), PwmSetDuty(PWM_1, 100)];
      }
    }

    /** One iteration of DetectarLinea after its timer notification, with the two sensor readings. */
    method DetectarLinea(izq: bool, der: bool)
      modifies this`direccion, this`motorCalls
      ensures direccion == Heading(Flags(), izq, der)
      ensures motorCalls == old(motorCalls) + MotorCalls(direccion)
    {
      if encendido && !pausa {
        if izq && der {
          direccion := 'A';
        } else if izq && !der {
          direccion := 'D';
        } else if !izq && der {
          direccion := 'I';
        } else if !izq && !der {
          direccion := 'F';
        }
        ControlMotores();
      } else if (encendido && pausa) || !encendido {
        direccion := 'F';
        ControlMotores();
      } else if !encendido {
        // every state not handled by the first branch is handled by the second
        assert false;
      }
    }

    /** One iteration of ControlBateria, with the ADC reading of CH1 in `raw`. */
    method ControlBateria(raw: uint16)
      modifies this`auxBat, this`bleSent
      ensures !encendido ==> auxBat == old(auxBat) && bleSent == old(bleSent)
      ensures encendido ==> auxBat == NextAuxBat(old(auxBat), raw) && bleSent == old(bleSent) + [auxBat]
    {
      if encendido {
        var nivel := BatteryPercent(raw);
        if nivel <= 10 {
          auxBat := BatteryMessage(nivel, Critical);
        } else if nivel <= 20 {
          auxBat := BatteryMessage(nivel, Low);
        } else if nivel <= 50 {
          auxBat := BatteryMessage(nivel, Medium);
        } else if nivel <= 100 {
          auxBat := BatteryMessage(nivel, Good);
        }
        BleSendString(auxBat);
      }
    }

    /** One iteration of the app_main loop: poll the link status, drive the LEDs, clear the flags if the link is down. */
    method PollLink(s: BleStatus)
      modifies this`encendido, this`pausa, this`leds
      ensures Flags() == LinkFlags(old(Flags()), s)
      ensures leds == LinkLeds(old(leds), s)
    {
      match s
      case BLE_OFF =>
        leds := Leds(false, false, true);
        encendido := false;
        pausa := false;
      case BLE_DISCONNECTED =>
        leds := Leds(false, !leds.led2, false);
        encendido := false;
        pausa := false;
      case BLE_CONNECTED =>
        leds := Leds(true, false, false);
    }
  }

  /** Scenario: after 'O' on a fresh robot with both sensors on the line, it goes ahead at 65/65. */
  method StartAndGoAhead() returns (r: Robot)
    ensures r.Flags() == RunFlags(true, false) && r.direccion == 'A'
    ensures r.motorCalls == MotorCalls('A') && Duties('A') == Some((65, 65))
    ensures r.bleSent == StartMessages
  {
    r := new Robot();
    r.ReadData([CMD_START]);
    r.DetectarLinea(true, true);
  }
}
