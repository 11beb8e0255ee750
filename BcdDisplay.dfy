// Binary-to-BCD conversion and its display on a multiplexed BCD latch:
// convertToBcdArray (identical in the three exercises Guia1_Ejercicio4/5/6),
// cambiaEstado (four data pins from the bits of a digit) and mostrarDisplay
// (one latch pulse per digit). GPIO writes are recorded by class Gpio.

module BcdDisplay {
  import opened Board

  function Pow10(n: nat): (r: nat)
    ensures r >= 1
  {
    if n == 0 then 1 else 10 * Pow10(n - 1)
  }

  // ---------------------------------------------------------------------------
  // Arithmetic facts about Euclidean division

  lemma MulMonotone(b: int, x: int, y: int)
    requires b >= 0 && x <= y
    ensures b * x <= b * y
  {
    var k := y - x;
    assert b * y == b * x + b * k;
    assert b * k >= 0;
  }

  /** Quotient and remainder are unique. */
  lemma DivModUnique(a: int, b: int, q: int, r: int)
    requires b > 0 && a == b * q + r && 0 <= r < b
    ensures a / b == q && a % b == r
  {
    var q', r' := a / b, a % b;
    assert a == b * q' + r';
    if q' > q {
      MulMonotone(b, q + 1, q');
    } else if q' < q {
      MulMonotone(b, q' + 1, q);
    }
  }

  /** a = b * (c * q + r2) + r1 regrouped. */
  lemma Regroup(b: int, c: int, q: int, r2: int, r1: int)
    ensures b * (c * q + r2) + r1 == (b * c) * q + (b * r2 + r1)
  {
  }

  /** Dividing by b and then by c is dividing by b * c. */
  lemma DivDiv(a: nat, b: nat, c: nat)
    requires b > 0 && c > 0
    ensures a / b / c == a / (b * c)
  {
    var q1, r1 := a / b, a % b;
    var q2, r2 := q1 / c, q1 % c;
    assert a == b * q1 + r1;
    assert q1 == c * q2 + r2;
    Regroup(b, c, q2, r2, r1);
    MulMonotone(b, r2, c - 1);
    assert b * (c - 1) == b * c - b;
    DivModUnique(a, b * c, q2, b * r2 + r1);
  }

  /** The remainder modulo 10 * m splits into the last digit and the remainder of the rest modulo m. */
  lemma ModSplit(a: nat, m: nat)
    requires m > 0
    ensures a % (10 * m) == (a / 10 % m) * 10 + a % 10
  {
    var q1, r1 := a / 10, a % 10;
    var q2, r2 := q1 / m, q1 % m;
    assert a == 10 * q1 + r1;
    assert q1 == m * q2 + r2;
    Regroup(10, m, q2, r2, r1);
    DivModUnique(a, 10 * m, q2, 10 * r2 + r1);
  }

  // ---------------------------------------------------------------------------
  // convertToBcdArray

  /** The `digits` least significant decimal digits of `data`, most significant first. */
  function BcdDigits(data: nat, digits: nat): (r: seq<uint8>)
    ensures |r| == digits
    ensures forall k :: 0 <= k < digits ==> r[k] <= 9
  {
    if digits == 0 then [] else BcdDigits(data / 10, digits - 1) + [(data % 10) as uint8]
  }

  /** The number a sequence of decimal digits denotes, most significant first. */
  function DigitsValue(s: seq<uint8>): nat {
    if s == [] then 0 else DigitsValue(s[..|s| - 1]) * 10 + s[|s| - 1] as nat
  }

  /** The digits give back `data` modulo 10^digits: higher-order digits are dropped. */
  lemma {:induction false} BcdDigitsValue(data: nat, digits: nat)
    ensures DigitsValue(BcdDigits(data, digits)) == data % Pow10(digits)
  {
    if digits > 0 {
      var s := BcdDigits(data, digits);
      assert s[..|s| - 1] == BcdDigits(data / 10, digits - 1);
      BcdDigitsValue(data / 10, digits - 1);
      ModSplit(data, Pow10(digits - 1));
    }
  }

  /** Digit k (from the left) of the `digits`-digit conversion is digit digits-1-k of `data`. */
  lemma {:induction false} BcdDigitAt(data: nat, digits: nat, k: nat)
    requires k < digits
    ensures BcdDigits(data, digits)[k] as nat == data / Pow10(digits - 1 - k) % 10
  {
    if k == digits - 1 {
    } else {
      BcdDigitAt(data / 10, digits - 1, k);
      DivDiv(data, 10, Pow10(digits - 2 - k));
    }
  }

  /** One more digit extends the conversion on the left. */
  lemma BcdDigitsGrow(data: nat, i: nat)
    ensures BcdDigits(data, i + 1) == [(data / Pow10(i) % 10) as uint8] + BcdDigits(data, i)
  {
    var longer, shorter := BcdDigits(data, i + 1), BcdDigits(data, i);
    BcdDigitAt(data, i + 1, 0);
    forall k | 0 <= k < i
      ensures longer[k + 1] == shorter[k]
    {
      BcdDigitAt(data, i + 1, k + 1);
      BcdDigitAt(data, i, k);
    }
  }

  /** convertToBcdArray: writes the `digits` low decimal digits of `data` into
      bcd_number[0..digits-1], most significant first, touches nothing else, returns 0. */
  method ConvertToBcdArray(data: uint32, digits: uint8, bcd: array<uint8>) returns (r: int)
    requires bcd.Length >= digits as int
    modifies bcd
    ensures r == 0
    ensures bcd[..digits] == BcdDigits(data as nat, digits as nat)
    ensures bcd[digits..] == old(bcd[digits..])
  {
    var n := digits as nat;
    var d: nat := data as nat;
    var i := 0;
    while i < n
      invariant 0 <= i <= n
      invariant d == data as nat / Pow10(i)
      invariant bcd[n - i..n] == BcdDigits(data as nat, i)
      invariant bcd[n..] == old(bcd[n..])
    {
      bcd[n - 1 - i] := (d % 10) as uint8;
      BcdDigitsGrow(data as nat, i);
      assert bcd[n - 1 - i..n] == [bcd[n - 1 - i]] + bcd[n - i..n];
      DivDiv(data as nat, Pow10(i), 10);
      d := d / 10;
      i := i + 1;
    }
    assert bcd[..digits] == bcd[n - i..n];
    return 0;
  }

  // ---------------------------------------------------------------------------
  // The GPIO driver as a record of writes

  class Gpio {
    /** Every GPIOOn / GPIOOff call, in order. */
    var writes: seq<PinWrite>

    constructor ()
      ensures writes == []
    {
      writes := [];
    }

    method On(p: Pin)
      modifies this
      ensures writes == old(writes) + [PinWrite(p, true)]
    {
      writes := writes + [PinWrite(p, true)];
    }

    method Off(p: Pin)
      modifies this
      ensures writes == old(writes) + [PinWrite(p, false)]
    {
      writes := writes + [PinWrite(p, false)];
    }
  }

  // ---------------------------------------------------------------------------
  // cambiaEstado

  /** Bit i of a C int, given as its 32-bit pattern: dig_bcd & (1 << i). */
  predicate Bit(d: bv32, i: nat)
    requires i < 32
  {
    d & (1 << i) != 0
  }

  /** The writes cambiaEstado makes: pin gpi[i] driven to bit i of the digit, for i = 0..3. */
  function NibbleWrites(d: bv32, gpi: seq<GpioConf>): (w: seq<PinWrite>)
    requires |gpi| >= 4
    ensures |w| == 4
  {
    seq(4, i requires 0 <= i < 4 => PinWrite(gpi[i].pin, Bit(d, i)))
  }

  /** The four pins read back as a binary number give the digit's low four bits. */
  function NibbleValue(b0: bool, b1: bool, b2: bool, b3: bool): bv32 {
    (if b0 then 1 else 0) | (if b1 then 2 else 0) | (if b2 then 4 else 0) | (if b3 then 8 else 0)
  }

  /** Only bits 0..3 reach the pins, and they encode the digit exactly: decoding gives d & 0xF. */
  lemma NibbleRoundTrip(d: bv32)
    ensures NibbleValue(Bit(d, 0), Bit(d, 1), Bit(d, 2), Bit(d, 3)) == d & 0xF
    ensures forall i :: 0 <= i < 4 ==> Bit(d & 0xF, i) == Bit(d, i)
  {
  }

  /** A BCD digit fits in the four bits. */
  lemma DigitFitsNibble(x: uint8)
    requires x <= 15
    ensures (x as bv32) & 0xF == x as bv32
  {
  }

  predicate DistinctPins(gpi: seq<GpioConf>, n: nat)
    requires n <= |gpi|
  {
    forall j, k :: 0 <= j < k < n ==> gpi[j].pin != gpi[k].pin
  }

  /** After cambiaEstado each of the four pins is at its bit and every other pin keeps its level. */
  lemma NibbleLevels(prev: seq<PinWrite>, d: bv32, gpi: seq<GpioConf>, p: Pin)
    requires |gpi| >= 4 && DistinctPins(gpi, 4)
    ensures forall i :: 0 <= i < 4 && p == gpi[i].pin ==> Level(prev + NibbleWrites(d, gpi), p) == Some(Bit(d, i))
    ensures (forall i :: 0 <= i < 4 ==> p != gpi[i].pin) ==> Level(prev + NibbleWrites(d, gpi), p) == Level(prev, p)
  {
    var w := NibbleWrites(d, gpi);
    LevelAppend(prev, w, p);
    forall i | 0 <= i < 4 && p == gpi[i].pin
      ensures Level(w, p) == Some(Bit(d, i))
    {
      LevelSingleWrite(w, i);
    }
  }

  /** cambiaEstado: for i = 0..3, GPIOOn(gpi[i].pin) if bit i of the digit is set, else GPIOOff. */
  method CambiaEstado(digBcd: bv32, gpi: seq<GpioConf>, io: Gpio)
    requires |gpi| >= 4
    modifies io
    ensures io.writes == old(io.writes) + NibbleWrites(digBcd, gpi)
  {
    var i := 0;
    while i < 4
      invariant 0 <= i <= 4
      invariant io.writes == old(io.writes) + NibbleWrites(digBcd, gpi)[..i]
    {
      if digBcd & (1 << i) != 0 {
        io.On(gpi[i].pin);
      } else {
        io.Off(gpi[i].pin);
      }
      assert NibbleWrites(digBcd, gpi)[..i + 1] == NibbleWrites(digBcd, gpi)[..i] + [NibbleWrites(digBcd, gpi)[i]];
      i := i + 1;
    }
    assert NibbleWrites(digBcd, gpi)[..4] == NibbleWrites(digBcd, gpi);
  }

  // ---------------------------------------------------------------------------
  // mostrarDisplay

  /** The writes for one digit: the data pins, then a pulse on the position pin. */
  function Latch(x: uint8, dig: seq<GpioConf>, pos: Pin): (w: seq<PinWrite>)
    requires |dig| >= 4
    ensures |w| == 6 && w[4..] == [PinWrite(pos, true), PinWrite(pos, false)]
  {
    NibbleWrites(x as bv32, dig) + [PinWrite(pos, true), PinWrite(pos, false)]
  }

  /** The writes for a whole sequence of digits, digit i latched on position pin pos[i]. */
  function DisplayWrites(ds: seq<uint8>, dig: seq<GpioConf>, pos: seq<GpioConf>): (w: seq<PinWrite>)
    requires |dig| >= 4 && |pos| >= |ds|
    ensures |w| == 6 * |ds|
  {
    if ds == [] then []
    else DisplayWrites(ds[..|ds| - 1], dig, pos) + Latch(ds[|ds| - 1], dig, pos[|ds| - 1].pin)
  }

  /** The display performs exactly one latch per digit, in order: writes 6i..6i+5 latch digit i on pos[i]. */
  lemma {:induction false} DisplayLatchAt(ds: seq<uint8>, dig: seq<GpioConf>, pos: seq<GpioConf>, i: nat)
    requires |dig| >= 4 && |pos| >= |ds| && i < |ds|
    ensures DisplayWrites(ds, dig, pos)[6 * i..6 * i + 6] == Latch(ds[i], dig, pos[i].pin)
  {
    var front := ds[..|ds| - 1];
    if i < |ds| - 1 {
      DisplayLatchAt(front, dig, pos, i);
      assert front[i] == ds[i];
    }
  }

  /** The position pins are never data pins. */
  predicate Separate(dig: seq<GpioConf>, pos: seq<GpioConf>, n: nat)
    requires |dig| >= 4 && n <= |pos|
  {
    forall j, k :: 0 <= j < n && 0 <= k < 4 ==> pos[j].pin != dig[k].pin
  }

  /** The levels one latch leaves: its position pin off, the data pins at the digit's bits,
      and any other pin untouched. */
  lemma LatchLevels(x: uint8, dig: seq<GpioConf>, pos: Pin, p: Pin)
    requires |dig| >= 4 && DistinctPins(dig, 4)
    requires forall k :: 0 <= k < 4 ==> pos != dig[k].pin
    ensures p == pos ==> Level(Latch(x, dig, pos), p) == Some(false)
    ensures forall i :: 0 <= i < 4 && p == dig[i].pin ==> Level(Latch(x, dig, pos), p) == Some(Bit(x as bv32, i))
    ensures p != pos && (forall k :: 0 <= k < 4 ==> p != dig[k].pin) ==> Level(Latch(x, dig, pos), p).None?
  {
    var nib := NibbleWrites(x as bv32, dig);
    var pulse := [PinWrite(pos, true), PinWrite(pos, false)];
    assert Latch(x, dig, pos) == nib + pulse;
    LevelAppend(nib, pulse, p);
    if p != pos {
      NibbleLevels([], x as bv32, dig, p);
      assert [] + nib == nib;
    }
  }

  /** After the display every position pin is off. */
  lemma {:induction false} DisplayPositionsOff(ds: seq<uint8>, dig: seq<GpioConf>, pos: seq<GpioConf>)
    requires |dig| >= 4 && |pos| >= |ds| && DistinctPins(dig, 4) && Separate(dig, pos, |ds|)
    ensures forall j :: 0 <= j < |ds| ==> Level(DisplayWrites(ds, dig, pos), pos[j].pin) == Some(false)
  {
    if ds != [] {
      var n := |ds|;
      var front := ds[..n - 1];
      var last := Latch(ds[n - 1], dig, pos[n - 1].pin);
      DisplayPositionsOff(front, dig, pos);
      forall j | 0 <= j < n
        ensures Level(DisplayWrites(ds, dig, pos), pos[j].pin) == Some(false)
      {
        var p := pos[j].pin;
        LevelAppend(DisplayWrites(front, dig, pos), last, p);
        LatchLevels(ds[n - 1], dig, pos[n - 1].pin, p);
      }
    }
  }

  /** After the display the data pins hold the last (least significant) digit. */
  lemma DisplayDataLast(ds: seq<uint8>, dig: seq<GpioConf>, pos: seq<GpioConf>)
    requires |dig| >= 4 && |pos| >= |ds| && DistinctPins(dig, 4) && Separate(dig, pos, |ds|)
    requires ds != []
    ensures forall i :: 0 <= i < 4 ==>
              Level(DisplayWrites(ds, dig, pos), dig[i].pin) == Some(Bit(ds[|ds| - 1] as bv32, i))
  {
    var n := |ds|;
    var last := Latch(ds[n - 1], dig, pos[n - 1].pin);
    forall i | 0 <= i < 4
      ensures Level(DisplayWrites(ds, dig, pos), dig[i].pin) == Some(Bit(ds[n - 1] as bv32, i))
    {
      var p := dig[i].pin;
      LevelAppend(DisplayWrites(ds[..n - 1], dig, pos), last, p);
      LatchLevels(ds[n - 1], dig, pos[n - 1].pin, p);
    }
  }

  /** The body of mostrarDisplay's loop: set the data pins to the digit, then pulse its position pin. */
  method LatchDigit(x: uint8, gpioDig: seq<GpioConf>, pos: Pin, io: Gpio)
    requires |gpioDig| >= 4
    modifies io
    ensures io.writes == old(io.writes) + Latch(x, gpioDig, pos)
  {
    CambiaEstado(x as bv32, gpioDig, io);
    io.On(pos);
    io.Off(pos);
  }

  /** mostrarDisplay: converts the number, then for each digit sets the data pins and pulses its position pin. */
  method MostrarDisplay(binData: uint32, cantDigit: uint8, gpioDig: seq<GpioConf>, gpioPos: seq<GpioConf>, io: Gpio)
    requires |gpioDig| >= 4 && |gpioPos| >= cantDigit as int
    modifies io
    ensures io.writes == old(io.writes) + DisplayWrites(BcdDigits(binData as nat, cantDigit as nat), gpioDig, gpioPos)
  {
    var numBcd := new uint8[cantDigit];
    var _ := ConvertToBcdArray(binData, cantDigit, numBcd);
    ghost var ds := numBcd[..];
    assert ds == BcdDigits(binData as nat, cantDigit as nat);
    var i := 0;
    while i < cantDigit as int
      invariant 0 <= i <= cantDigit as int
      invariant numBcd[..] == ds
      invariant io.writes == old(io.writes) + DisplayWrites(ds[..i], gpioDig, gpioPos)
    {
      LatchDigit(numBcd[i], gpioDig, gpioPos[i].pin, io);
      DisplayWritesStep(ds, gpioDig, gpioPos, i);
      i := i + 1;
    }
    assert ds[..i] == ds;
  }

  lemma DisplayWritesStep(ds: seq<uint8>, dig: seq<GpioConf>, pos: seq<GpioConf>, i: nat)
    requires |dig| >= 4 && |pos| >= |ds| && i < |ds|
    ensures DisplayWrites(ds[..i + 1], dig, pos) == DisplayWrites(ds[..i], dig, pos) + Latch(ds[i], dig, pos[i].pin)
  {
    assert ds[..i + 1][..i] == ds[..i];
  }

  // ---------------------------------------------------------------------------
  // The app_main examples

  lemma Bcd123()
    ensures BcdDigits(123, 3) == [1, 2, 3]
  {
    assert BcdDigits(1, 1) == [1];
    assert BcdDigits(12, 2) == [1, 2];
  }

  /** Guia1_Ejercicio4 app_main: converts 123 to 3 digits and prints BCD[0..2]. */
  method Ejercicio4Main() returns (printed: seq<uint8>)
    ensures printed == [1, 2, 3]
  {
    var numBcd := new uint8[3];
    var _ := ConvertToBcdArray(123, 3, numBcd);
    printed := [];
    var i := 0;
    while i < 3
      invariant 0 <= i <= 3
      invariant printed == numBcd[..i]
    {
      printed := printed + [numBcd[i]];
      i := i + 1;
    }
    Bcd123();
  }

  const DataPins := [GpioConf(20, Output), GpioConf(21, Output), GpioConf(22, Output), GpioConf(23, Output)]
  const PositionPins := [GpioConf(19, Output), GpioConf(18, Output), GpioConf(9, Output)]

  /** The writes of cambiaEstado applied to each digit in turn. */
  function DigitWrites(ds: seq<uint8>, gpi: seq<GpioConf>): (w: seq<PinWrite>)
    requires |gpi| >= 4
    ensures |w| == 4 * |ds|
  {
    if ds == [] then [] else DigitWrites(ds[..|ds| - 1], gpi) + NibbleWrites(ds[|ds| - 1] as bv32, gpi)
  }

  /** After writing a sequence of digits to the same four pins, the pins hold the last digit. */
  lemma DigitWritesLast(ds: seq<uint8>, gpi: seq<GpioConf>)
    requires |gpi| >= 4 && DistinctPins(gpi, 4) && ds != []
    ensures forall i :: 0 <= i < 4 ==> Level(DigitWrites(ds, gpi), gpi[i].pin) == Some(Bit(ds[|ds| - 1] as bv32, i))
  {
    forall i | 0 <= i < 4
      ensures Level(DigitWrites(ds, gpi), gpi[i].pin) == Some(Bit(ds[|ds| - 1] as bv32, i))
    {
      NibbleLevels(DigitWrites(ds[..|ds| - 1], gpi), ds[|ds| - 1] as bv32, gpi, gpi[i].pin);
    }
  }

  /** Guia1_Ejercicio5 app_main: converts 123 and writes each digit to GPIO_20..23; the last digit, 3, stays. */
  method Ejercicio5Main() returns (writes: seq<PinWrite>)
    ensures Level(writes, 20) == Some(true) && Level(writes, 21) == Some(true)
    ensures Level(writes, 22) == Some(false) && Level(writes, 23) == Some(false)
  {
    var numBcd := new uint8[3];
    var _ := ConvertToBcdArray(123, 3, numBcd);
    Bcd123();
    var io := new Gpio();
    var i := 0;
    while i < 3
      invariant 0 <= i <= 3
      invariant numBcd[..] == [1, 2, 3]
      invariant io.writes == DigitWrites(numBcd[..i], DataPins)
    {
      CambiaEstado(numBcd[i] as bv32, DataPins, io);
      assert numBcd[..i + 1][..i] == numBcd[..i];
      i := i + 1;
    }
    writes := io.writes;
    assert numBcd[..i] == [1, 2, 3];
    DigitWritesLast([1, 2, 3], DataPins);
    assert Bit(3, 0) && Bit(3, 1) && !Bit(3, 2) && !Bit(3, 3);
  }

  /** Guia1_Ejercicio6 app_main: shows 123 on three positions; digit 1 is latched by GPIO_19, 2 by GPIO_18, 3 by GPIO_9. */
  method Ejercicio6Main() returns (writes: seq<PinWrite>)
    ensures |writes| == 18
    ensures writes[0..6] == Latch(1, DataPins, 19)
    ensures writes[6..12] == Latch(2, DataPins, 18)
    ensures writes[12..18] == Latch(3, DataPins, 9)
  {
    var io := new Gpio();
    MostrarDisplay(123, 3, DataPins, PositionPins, io);
    writes := io.writes;
    Bcd123();
    DisplayLatchAt([1, 2, 3], DataPins, PositionPins, 0);
    DisplayLatchAt([1, 2, 3], DataPins, PositionPins, 1);
    DisplayLatchAt([1, 2, 3], DataPins, PositionPins, 2);
  }
}
