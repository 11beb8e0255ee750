// P2_4: replay of a stored ECG through the DAC. Each notification of the
// conversionDA task writes the next table entry, and after the last one spends
// one notification resetting the index. AnalogOutputWrite calls are kept as a trace.

module EcgReplay {
  import opened Board

  /** Number of samples in the table (BUFFER_SIZE). */
  const BUFFER_SIZE: uint8 := 231

  /** The stored ECG, one byte per sample, in playback order. */
  const Ecg: seq<uint8> := [
      76, 77, 78, 77, 79, 86, 81, 76, 84, 93, 85, 80,
      89, 95, 89, 85, 93, 98, 94, 88, 98, 105, 96, 91,
      99, 105, 101, 96, 102, 106, 101, 96, 100, 107, 101, 94,
      100, 104, 100, 91, 99, 103, 98, 91, 96, 105, 95, 88,
      95, 100, 94, 85, 93, 99, 92, 84, 91, 96, 87, 80,
      83, 92, 86, 78, 84, 89, 79, 73, 81, 83, 78, 70,
      80, 82, 79, 69, 80, 82, 81, 70, 75, 81, 77, 74,
      79, 83, 82, 72, 80, 87, 79, 76, 85, 95, 87, 81,
      88, 93, 88, 84, 87, 94, 86, 82, 85, 94, 85, 82,
      85, 95, 86, 83, 92, 99, 91, 88, 94, 98, 95, 90,
      97, 105, 104, 94, 98, 114, 117, 124, 144, 180, 210, 236,
      253, 227, 171, 99, 49, 34, 29, 43, 69, 89, 89, 90,
      98, 107, 104, 98, 104, 110, 102, 98, 103, 111, 101, 94,
      103, 108, 102, 95, 97, 106, 100, 92, 101, 103, 100, 94,
      98, 103, 96, 90, 98, 103, 97, 90, 99, 104, 95, 90,
      99, 104, 100, 93, 100, 106, 101, 93, 101, 105, 103, 96,
      105, 112, 105, 99, 103, 108, 99, 96, 102, 106, 99, 90,
      92, 100, 87, 80, 82, 88, 77, 69, 75, 79, 74, 67,
      71, 78, 72, 67, 73, 81, 77, 71, 75, 84, 79, 77,
      77, 76, 76
    ]

  /** A write if there is one. */
  function Written(o: Option<uint8>): seq<uint8> {
    if o.Some? then [o.value] else []
  }

  // The replay is stated for any table of BUFFER_SIZE samples and instantiated with Ecg by the
  // player below.

  /** One notification of conversionDA over table `t`: the new index and the sample written, if any. */
  function Tick(t: seq<uint8>, c: uint8): (r: (uint8, Option<uint8>))
    requires |t| == BUFFER_SIZE as int
    ensures c < BUFFER_SIZE ==> r == (c + 1, Some(t[c]))
    ensures c == BUFFER_SIZE ==> r == (0, None)
    // the index never leaves 0..BUFFER_SIZE once inside it
    ensures c <= BUFFER_SIZE ==> r.0 <= BUFFER_SIZE
  {
    if c < BUFFER_SIZE then (c + 1, Some(t[c]))
    else if c == BUFFER_SIZE then (0, None)
    else (c, None)
  }

  /** n notifications from index c: the final index and the samples written, in order. */
  function Replay(t: seq<uint8>, c: uint8, n: nat): (uint8, seq<uint8>)
    requires |t| == BUFFER_SIZE as int
    decreases n
  {
    if n == 0 then (c, [])
    else
      var s := Tick(t, c);
      var rest := Replay(t, s.0, n - 1);
      (rest.0, Written(s.1) + rest.1)
  }

  /** The index stays within 0..BUFFER_SIZE, so every table access is in bounds. */
  lemma {:induction false} ReplayBounded(t: seq<uint8>, c: uint8, n: nat)
    requires |t| == BUFFER_SIZE as int && c <= BUFFER_SIZE
    ensures Replay(t, c, n).0 <= BUFFER_SIZE
    decreases n
  {
    if n > 0 {
      ReplayBounded(t, Tick(t, c).0, n - 1);
    }
  }

  /** Running m and then n notifications is running m + n. */
  lemma {:induction false} ReplayAppend(t: seq<uint8>, c: uint8, m: nat, n: nat)
    requires |t| == BUFFER_SIZE as int
    ensures Replay(t, c, m + n).0 == Replay(t, Replay(t, c, m).0, n).0
    ensures Replay(t, c, m + n).1 == Replay(t, c, m).1 + Replay(t, Replay(t, c, m).0, n).1
    decreases m
  {
    if m > 0 {
      var s := Tick(t, c);
      ReplayAppend(t, s.0, m - 1, n);
      assert m + n - 1 == (m - 1) + n;
    }
  }

  /** The notification after the last sample writes nothing and resets the index. */
  lemma IdleTick(t: seq<uint8>)
    requires |t| == BUFFER_SIZE as int
    ensures Replay(t, BUFFER_SIZE, 1).0 == 0 && Replay(t, BUFFER_SIZE, 1).1 == []
  {
    var s := Tick(t, BUFFER_SIZE);
    assert s.0 == 0 && s.1 == None;
    assert Written(s.1) == [];
    assert Replay(t, s.0, 0).0 == 0 && Replay(t, s.0, 0).1 == [];
  }

  /** From index c, the rest of the table is written, then the idle notification resets the index. */
  lemma {:induction false} ReplayToEnd(t: seq<uint8>, c: uint8)
    requires |t| == BUFFER_SIZE as int && c <= BUFFER_SIZE
    ensures Replay(t, c, BUFFER_SIZE as nat + 1 - c as nat).0 == 0
    ensures Replay(t, c, BUFFER_SIZE as nat + 1 - c as nat).1 == t[c..]
    decreases BUFFER_SIZE - c
  {
    var n := BUFFER_SIZE as nat + 1 - c as nat;
    if c < BUFFER_SIZE {
      ReplayToEnd(t, c + 1);
      assert Tick(t, c) == (c + 1, Some(t[c]));
      assert n - 1 == BUFFER_SIZE as nat + 1 - (c + 1) as nat;
      assert t[c..] == [t[c]] + t[c + 1..];
    } else {
      IdleTick(t);
      assert |t[c..]| == 0;
    }
  }

  /** From index 0, every BUFFER_SIZE + 1 notifications write the whole table once, in order,
      and bring the index back to 0. */
  lemma OnePeriod(t: seq<uint8>)
    requires |t| == BUFFER_SIZE as int
    ensures Replay(t, 0, BUFFER_SIZE as nat + 1).0 == 0
    ensures Replay(t, 0, BUFFER_SIZE as nat + 1).1 == t
  {
    ReplayToEnd(t, 0);
    assert t[0..] == t;
  }

  /** k copies of the table, back to back. */
  function Repeat(s: seq<uint8>, k: nat): (r: seq<uint8>)
    ensures |r| == k * |s|
  {
    if k == 0 then [] else s + Repeat(s, k - 1)
  }

  /** The playback is periodic: k periods write the table k times and end at index 0. */
  lemma {:induction false} Periodic(t: seq<uint8>, k: nat)
    requires |t| == BUFFER_SIZE as int
    ensures Replay(t, 0, k * (BUFFER_SIZE as nat + 1)).0 == 0
    ensures Replay(t, 0, k * (BUFFER_SIZE as nat + 1)).1 == Repeat(t, k)
    decreases k
  {
    if k > 0 {
      var p := BUFFER_SIZE as nat + 1;
      assert k * p == p + (k - 1) * p;
      OnePeriod(t);
      ReplayAppend(t, 0, p, (k - 1) * p);
      Periodic(t, k - 1);
    }
  }

  /** The conversionDA task: the index contador_auxiliar and what the DAC was given. */
  class EcgPlayer {
    var contadorAuxiliar: uint8
    var dac: seq<uint8>

    /** The index is in 0..BUFFER_SIZE. */
    predicate Valid()
      reads this
    {
      contadorAuxiliar <= BUFFER_SIZE
    }

    constructor ()
      ensures Valid() && contadorAuxiliar == 0 && dac == []
    {
      contadorAuxiliar := 0;
      dac := [];
    }

    method AnalogOutputWrite(v: uint8)
      modifies this`dac
      ensures dac == old(dac) + [v]
    {
      dac := dac + [v];
    }

    /** One iteration of the task loop, after a notification of timer B. */
    method ConversionDA()
      requires Valid()
      modifies this
      ensures Valid()
      ensures contadorAuxiliar == Tick(Ecg, old(contadorAuxiliar)).0
      ensures dac == old(dac) + Written(Tick(Ecg, old(contadorAuxiliar)).1)
    {
      if contadorAuxiliar < BUFFER_SIZE {
        AnalogOutputWrite(Ecg[contadorAuxiliar]);
        contadorAuxiliar := contadorAuxiliar + 1;
      } else if contadorAuxiliar == BUFFER_SIZE {
        contadorAuxiliar := 0;
      }
    }

    /** The task loop over n notifications. */
    method Serve(n: nat)
      requires Valid()
      modifies this
      ensures Valid()
      ensures contadorAuxiliar == Replay(Ecg, old(contadorAuxiliar), n).0
      ensures dac == old(dac) + Replay(Ecg, old(contadorAuxiliar), n).1
    {
      ghost var c0, d0 := contadorAuxiliar, dac;
      var i := 0;
      assert d0 + Replay(Ecg, c0, 0).1 == d0;
      while i < n
        invariant 0 <= i <= n && Valid()
        invariant contadorAuxiliar == Replay(Ecg, c0, i).0
        invariant dac == d0 + Replay(Ecg, c0, i).1
      {
        ReplayAppend(Ecg, c0, i, 1);
        ConversionDA();
        i := i + 1;
      }
    }
  }

  /** A fresh player fed k * (BUFFER_SIZE + 1) notifications has written the ECG k times, in order,
      and is back at index 0. */
  method PlayPeriods(k: nat) returns (dac: seq<uint8>, index: uint8)
    ensures index == 0 && dac == Repeat(Ecg, k)
  {
    var p := new EcgPlayer();
    p.Serve(k * (BUFFER_SIZE as nat + 1));
    Periodic(Ecg, k);
    dac, index := p.dac, p.contadorAuxiliar;
  }
}
