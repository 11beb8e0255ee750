// The plant irrigation controller: SWITCH_1 starts the system, SWITCH_2 stops
// it, and while it is started the ControlAgua task (every 3 s) makes the water
// pump follow the humidity sensor. Pump commands are kept as a GPIO trace.

module Irrigation {
  import opened Board

  /** The water pump pin (GPIO_16) and the humidity sensor pin (GPIO_23). */
  const BOMBA_A: Pin := 16
  const SENSOR_H: Pin := 23

  /** The globals inicio and agua, and the writes issued on GPIO. */
  datatype State = State(inicio: bool, agua: bool, gpio: seq<PinWrite>)

  /** agua and inicio start false; the pump has not been commanded. */
  const Initial := State(false, false, [])

  /** agua records the pump's commanded state: true exactly when the last pump write switched it on,
      and only the pump is ever written. */
  predicate Valid(s: State) {
    (forall k :: 0 <= k < |s.gpio| ==> s.gpio[k].pin == BOMBA_A) &&
    s.agua == (Level(s.gpio, BOMBA_A) == Some(true))
  }

  lemma InitialValid()
    ensures Valid(Initial) && Level(Initial.gpio, BOMBA_A).None?
  {
  }

  /** LeerTeclaOn, the SWITCH_1 interrupt. */
  function KeyOn(s: State): (r: State)
    ensures r.inicio && r.(inicio := s.inicio) == s
  {
    s.(inicio := true)
  }

  /** LeerTeclaOff, the SWITCH_2 interrupt. */
  function KeyOff(s: State): (r: State)
    ensures !r.inicio && r.(inicio := s.inicio) == s
  {
    s.(inicio := false)
  }

  /** One iteration of ControlAgua; `seco` is the level GPIORead(SENSOR_H) returned, high when the
      soil is drier than the plant needs. */
  function ControlStep(s: State, seco: bool): (r: State)
    ensures !s.inicio ==> r == s
    ensures s.inicio ==> r.inicio && r.agua == seco && r.gpio == s.gpio + [PinWrite(BOMBA_A, seco)]
  {
    if s.inicio then
      if seco then s.(gpio := s.gpio + [PinWrite(BOMBA_A, true)], agua := true)
      else s.(gpio := s.gpio + [PinWrite(BOMBA_A, false)], agua := false)
    else s
  }

  /** Every step keeps agua equal to the commanded pump state, and a started system's pump
      ends at the sensor's level. */
  lemma ControlStepValid(s: State, seco: bool)
    requires Valid(s)
    ensures Valid(ControlStep(s, seco))
    ensures s.inicio ==> Level(ControlStep(s, seco).gpio, BOMBA_A) == Some(seco)
  {
    if s.inicio {
      LevelAppend(s.gpio, [PinWrite(BOMBA_A, seco)], BOMBA_A);
    }
  }

  /** A switch interrupt or a notification of ControlAgua with the sensor reading. */
  datatype Event = On | Off | Tick(seco: bool)

  function Step(s: State, e: Event): State {
    match e
    case On => KeyOn(s)
    case Off => KeyOff(s)
    case Tick(h) => ControlStep(s, h)
  }

  function Run(s: State, evs: seq<Event>): State
    decreases |evs|
  {
    if evs == [] then s else Run(Step(s, evs[0]), evs[1..])
  }

  /** Valid holds after any sequence of events. */
  lemma {:induction false} RunValid(s: State, evs: seq<Event>)
    requires Valid(s)
    ensures Valid(Run(s, evs))
    decreases |evs|
  {
    if evs != [] {
      if evs[0].Tick? {
        ControlStepValid(s, evs[0].seco);
      }
      RunValid(Step(s, evs[0]), evs[1..]);
    }
  }

  /** Only switch presses change inicio, and the last one pressed decides it. */
  lemma {:induction false} LastKeyWins(s: State, evs: seq<Event>)
    ensures (forall k :: 0 <= k < |evs| ==> evs[k].Tick?) ==> Run(s, evs).inicio == s.inicio
    ensures forall i :: 0 <= i < |evs| && !evs[i].Tick? && (forall k :: i < k < |evs| ==> evs[k].Tick?) ==>
              Run(s, evs).inicio == (evs[i] == On)
    decreases |evs|
  {
    if evs != [] {
      var s' := Step(s, evs[0]);
      LastKeyWins(s', evs[1..]);
      forall i | 0 <= i < |evs| && !evs[i].Tick? && (forall k :: i < k < |evs| ==> evs[k].Tick?)
        ensures Run(s, evs).inicio == (evs[i] == On)
      {
        if i > 0 {
          assert evs[1..][i - 1] == evs[i];
          assert forall k :: i - 1 < k < |evs| - 1 ==> evs[1..][k] == evs[k + 1];
        } else {
          assert forall k :: 0 <= k < |evs| - 1 ==> evs[1..][k] == evs[k + 1];
        }
      }
    }
  }

  /** Pressing the same switch twice is pressing it once. */
  lemma KeysIdempotent(s: State)
    ensures KeyOn(KeyOn(s)) == KeyOn(s) && KeyOff(KeyOff(s)) == KeyOff(s)
  {
  }

  /** While stopped, no notification touches the pump or agua. */
  lemma {:induction false} StoppedIsInert(s: State, hs: seq<bool>)
    requires !s.inicio
    ensures Run(s, seq(|hs|, k requires 0 <= k < |hs| => Tick(hs[k]))) == s
    decreases |hs|
  {
    if hs != [] {
      var evs := seq(|hs|, k requires 0 <= k < |hs| => Tick(hs[k]));
      assert evs[1..] == seq(|hs[1..]|, k requires 0 <= k < |hs[1..]| => Tick(hs[1..][k]));
      StoppedIsInert(s, hs[1..]);
    }
  }

  /** The controller's globals and the GPIO driver's writes. */
  class Controller {
    var inicio: bool
    var agua: bool
    var gpio: seq<PinWrite>

    function Get(): State
      reads this
    {
      State(inicio, agua, gpio)
    }

    constructor ()
      ensures Get() == Initial && Valid(Get())
    {
      inicio, agua, gpio := false, false, [];
    }

    method LeerTeclaOn()
      modifies this
      ensures Get() == KeyOn(old(Get()))
    {
      inicio := true;
    }

    method LeerTeclaOff()
      modifies this
      ensures Get() == KeyOff(old(Get()))
    {
      inicio := false;
    }

    method GPIOOn(p: Pin)
      modifies this`gpio
      ensures gpio == old(gpio) + [PinWrite(p, true)]
    {
      gpio := gpio + [PinWrite(p, true)];
    }

    method GPIOOff(p: Pin)
      modifies this`gpio
      ensures gpio == old(gpio) + [PinWrite(p, false)]
    {
      gpio := gpio + [PinWrite(p, false)];
    }

    /** One iteration of ControlAgua; `estado` is what GPIORead(SENSOR_H) returned. */
    method ControlAgua(estado: bool)
      requires Valid(Get())
      modifies this
      ensures Valid(Get())
      ensures Get() == ControlStep(old(Get()), estado)
    {
      ControlStepValid(Get(), estado);
      if inicio {
        if estado {
          GPIOOn(BOMBA_A);
          agua := true;
        } else {
          GPIOOff(BOMBA_A);
          agua := false;
        }
      }
    }
  }
}
