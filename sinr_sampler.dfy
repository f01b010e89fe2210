/** The link-quality sampler of scratch/qd-channel-bf-comparison-sinr.cc:
    the SNR and SINR of a serving link under one interfering link, the
    schedule of sampling ticks, the trace file the ticks append to, the
    codebook file names and the scenario names the program accepts.

    The simulator (mobility, beamforming, the channel model, the event
    scheduler) is outside the model: the channel is a function the caller
    supplies, and the scheduler's effect on the ticks is written out as a
    loop over the ticks in time order. log10 is a caller-supplied function
    too; where a lemma needs it to be increasing, it says so. */
module SinrSampler {

  import opened Wrappers
  import Antenna

  // ---------------------------------------------------------------------
  // Power spectral densities and the two power ratios
  // ---------------------------------------------------------------------

  /** A power spectral density: one power value per frequency bin. */
  type Psd = seq<real>

  /** Sum(SpectrumValue): the total power over all bins. */
  function Sum(psd: Psd): real
  {
    if psd == [] then 0.0 else psd[0] + Sum(psd[1..])
  }

  /** No bin carries a negative power. */
  predicate NonNegative(psd: Psd)
  {
    forall i :: 0 <= i < |psd| ==> psd[i] >= 0.0
  }

  /** The total of non-negative bins is non-negative, and it is positive
      as soon as one bin is. */
  lemma {:induction false} SumNonNegative(psd: Psd)
    requires NonNegative(psd)
    ensures Sum(psd) >= 0.0
    ensures (exists i :: 0 <= i < |psd| && psd[i] > 0.0) ==> Sum(psd) > 0.0
  {
    if psd != [] {
      var rest := psd[1..];
      assert forall i :: 0 <= i < |rest| ==> rest[i] == psd[i + 1];
      SumNonNegative(rest);
      if exists i :: 0 <= i < |psd| && psd[i] > 0.0 {
        var i :| 0 <= i < |psd| && psd[i] > 0.0;
        if i > 0 {
          assert rest[i - 1] > 0.0;
        }
      }
    }
  }

  /** Sum(rxPsd) / Sum(noisePsd), the power ratio behind snr. None stands for
      the non-finite double a zero noise power produces. */
  function SnrRatio(rx: Psd, noise: Psd): Option<real>
  {
    if Sum(noise) == 0.0 then None else Some(Sum(rx) / Sum(noise))
  }

  /** Sum(rxPsd) / (Sum(noisePsd) + Sum(interfPsd)), the power ratio behind
      sinr. None as for SnrRatio. */
  function SinrRatio(rx: Psd, noise: Psd, interf: Psd): Option<real>
  {
    var d := Sum(noise) + Sum(interf);
    if d == 0.0 then None else Some(Sum(rx) / d)
  }

  /** Dividing a non-negative power by a larger positive total gives a
      smaller ratio, strictly smaller unless the power or the addition is 0. */
  lemma RatioOrder(s: real, n: real, i: real)
    requires s >= 0.0 && n > 0.0 && i >= 0.0
    ensures s / (n + i) <= s / n
    ensures s / (n + i) == s / n <==> s == 0.0 || i == 0.0
    ensures s > 0.0 ==> s / (n + i) > 0.0
  {
    var a, b := s / n, s / (n + i);
    assert a * n == s;
    assert b * (n + i) == s;
    assert b >= 0.0;
    assert (a - b) * n == b * i;
    assert b * i >= 0.0;
    if b == a {
      assert b * i == 0.0;
    }
    if s > 0.0 && i > 0.0 {
      assert b > 0.0;
      assert b * i > 0.0;
    }
  }

  /** With a positive noise power and non-negative PSDs, both ratios are
      defined, the SINR ratio never exceeds the SNR ratio, and for a positive
      signal the two are equal exactly when the interference power is 0. */
  lemma SinrRatioAtMostSnrRatio(rx: Psd, noise: Psd, interf: Psd)
    requires NonNegative(rx) && NonNegative(noise) && NonNegative(interf)
    requires Sum(noise) > 0.0
    ensures SnrRatio(rx, noise).Some? && SinrRatio(rx, noise, interf).Some?
    ensures SinrRatio(rx, noise, interf).value <= SnrRatio(rx, noise).value
    ensures Sum(rx) > 0.0 ==>
      (SinrRatio(rx, noise, interf).value == SnrRatio(rx, noise).value <==> Sum(interf) == 0.0)
  {
    SumNonNegative(rx);
    SumNonNegative(interf);
    RatioOrder(Sum(rx), Sum(noise), Sum(interf));
  }

  /** More interference power never raises the SINR ratio. */
  lemma SinrRatioNonIncreasing(rx: Psd, noise: Psd, interf1: Psd, interf2: Psd)
    requires NonNegative(rx) && NonNegative(noise) && NonNegative(interf1)
    requires Sum(noise) > 0.0 && Sum(interf1) <= Sum(interf2)
    ensures SinrRatio(rx, noise, interf1).Some? && SinrRatio(rx, noise, interf2).Some?
    ensures SinrRatio(rx, noise, interf2).value <= SinrRatio(rx, noise, interf1).value
  {
    SumNonNegative(rx);
    SumNonNegative(interf1);
    var n1 := Sum(noise) + Sum(interf1);
    RatioOrder(Sum(rx), n1, Sum(interf2) - Sum(interf1));
    assert n1 + (Sum(interf2) - Sum(interf1)) == Sum(noise) + Sum(interf2);
  }

  /** The worked example: signal 100, noise 1, interference 9 give an SNR
      ratio of 100 and an SINR ratio of 10. */
  lemma ExampleRatios()
    ensures SnrRatio([100.0], [1.0]) == Some(100.0)
    ensures SinrRatio([100.0], [1.0], [9.0]) == Some(10.0)
  {
    assert Sum([100.0]) == 100.0 && Sum([1.0]) == 1.0 && Sum([9.0]) == 9.0 by {
      assert [100.0][1..] == [] && [1.0][1..] == [] && [9.0][1..] == [];
    }
  }

  // ---------------------------------------------------------------------
  // Decibels
  // ---------------------------------------------------------------------

  /** log10 is strictly increasing on the positive reals. */
  ghost predicate StrictlyIncreasing(log10: real -> real)
  {
    forall a, b :: 0.0 < a < b ==> log10(a) < log10(b)
  }

  /** 10 * log10(ratio). None where the double result is not finite: the ratio
      is itself not finite, or it is not positive. */
  function Decibels(log10: real -> real, ratio: Option<real>): Option<real>
  {
    match ratio
    case Some(r) => if r > 0.0 then Some(10.0 * log10(r)) else None
    case None => None
  }

  /** The ordering of the ratios carries over to decibels: for a positive
      signal and noise, SINR in dB is at most SNR in dB, with equality
      exactly when there is no interference power. */
  lemma SinrDbAtMostSnrDb(log10: real -> real, rx: Psd, noise: Psd, interf: Psd)
    requires StrictlyIncreasing(log10)
    requires NonNegative(rx) && NonNegative(noise) && NonNegative(interf)
    requires Sum(rx) > 0.0 && Sum(noise) > 0.0
    ensures Decibels(log10, SnrRatio(rx, noise)).Some?
    ensures Decibels(log10, SinrRatio(rx, noise, interf)).Some?
    ensures Decibels(log10, SinrRatio(rx, noise, interf)).value <= Decibels(log10, SnrRatio(rx, noise)).value
    ensures Decibels(log10, SinrRatio(rx, noise, interf)).value == Decibels(log10, SnrRatio(rx, noise)).value
            <==> Sum(interf) == 0.0
  {
    SinrRatioAtMostSnrRatio(rx, noise, interf);
    SumNonNegative(interf);
    RatioOrder(Sum(rx), Sum(noise), 0.0);
    RatioOrder(Sum(rx), Sum(noise), Sum(interf));
    DecibelsOrder(log10, SinrRatio(rx, noise, interf).value, SnrRatio(rx, noise).value);
  }

  /** For positive ratios a <= b, a in dB is at most b in dB, with equality
      exactly when a == b. */
  lemma DecibelsOrder(log10: real -> real, a: real, b: real)
    requires StrictlyIncreasing(log10)
    requires 0.0 < a <= b
    ensures Decibels(log10, Some(a)).Some? && Decibels(log10, Some(b)).Some?
    ensures Decibels(log10, Some(a)).value <= Decibels(log10, Some(b)).value
    ensures Decibels(log10, Some(a)).value == Decibels(log10, Some(b)).value <==> a == b
  {
    if a < b {
      assert log10(a) < log10(b);
    }
  }

  // ---------------------------------------------------------------------
  // One sampling tick: ComputeSinr
  // ---------------------------------------------------------------------

  /** A network device of the scenario, by index. */
  datatype Device = Device(index: nat)

  /** The four devices ComputeSinr is given: the serving eNB and its UE, the
      interfering eNB and its UE. */
  datatype Link = Link(servingEnb: Device, servingUe: Device, interfEnb: Device, interfUe: Device)

  /** The spectrum propagation loss model at a simulation time in
      microseconds: the PSD received at `receiver` when `source`, with its
      beam configured toward `target`, transmits `txPsd`. */
  type Channel = (int, Psd, Device, Device, Device) -> Psd

  /** The PSDs received at the serving UE from the serving and from the
      interfering eNB. */
  datatype Received = Received(signal: Psd, interference: Psd)

  /** What ComputeSinr gives the channel: both eNBs beamform toward their own
      UE, and both received PSDs are taken at the serving UE from the same
      transmit PSD. */
  function ReceivedPsds(channel: Channel, link: Link, txPsd: Psd, nowUs: int): Received
  {
    Received(channel(nowUs, txPsd, link.servingEnb, link.servingUe, link.servingUe),
             channel(nowUs, txPsd, link.interfEnb, link.interfUe, link.servingUe))
  }

  /** The two received PSDs are taken with the same transmit PSD, at the same
      time and at the same receiver, so only the source device and its beam
      target can tell them apart: with those equal, the two are equal. This
      is congruence of the channel function and says nothing about the
      channel itself. */
  lemma ReceivedPsdsDifferOnlyInSource(channel: Channel, link: Link, txPsd: Psd, nowUs: int)
    requires link.interfEnb == link.servingEnb && link.interfUe == link.servingUe
    ensures ReceivedPsds(channel, link, txPsd, nowUs).signal == ReceivedPsds(channel, link, txPsd, nowUs).interference
  {
  }

  /** One line of sinr-trace.txt. */
  datatype TraceLine =
    | Header(text: string)
    | Record(timeSeconds: real, snrDb: Option<real>, sinrDb: Option<real>)

  const HeaderText: string := "time[s] snr[dB] sinr[dB]"

  /** Simulator::Now().GetSeconds() for a time in microseconds. */
  function Seconds(timeUs: int): real
  {
    (timeUs as real) / 1000000.0
  }

  /** The record ComputeSinr appends at time nowUs. */
  function SampleAt(channel: Channel, log10: real -> real, link: Link, txPsd: Psd, noisePsd: Psd, nowUs: int): TraceLine
  {
    var Received(rx, interf) := ReceivedPsds(channel, link, txPsd, nowUs);
    Record(Seconds(nowUs),
           Decibels(log10, SnrRatio(rx, noisePsd)),
           Decibels(log10, SinrRatio(rx, noisePsd, interf)))
  }

  /** Whenever the channel delivers non-negative PSDs with some signal and
      the noise PSD has positive power, a record holds finite SNR and SINR
      values, and its SINR is at most its SNR. */
  lemma SampleAtOrdersLevels(channel: Channel, log10: real -> real, link: Link, txPsd: Psd, noisePsd: Psd, nowUs: int)
    requires StrictlyIncreasing(log10)
    requires NonNegative(ReceivedPsds(channel, link, txPsd, nowUs).signal)
    requires NonNegative(ReceivedPsds(channel, link, txPsd, nowUs).interference)
    requires NonNegative(noisePsd) && Sum(noisePsd) > 0.0
    requires Sum(ReceivedPsds(channel, link, txPsd, nowUs).signal) > 0.0
    ensures var line := SampleAt(channel, log10, link, txPsd, noisePsd, nowUs);
      && line.Record? && line.timeSeconds == Seconds(nowUs)
      && line.snrDb.Some? && line.sinrDb.Some?
      && line.sinrDb.value <= line.snrDb.value
  {
    var Received(rx, interf) := ReceivedPsds(channel, link, txPsd, nowUs);
    SinrDbAtMostSnrDb(log10, rx, noisePsd, interf);
  }

  /** sinr-trace.txt, as the sequence of lines written to it. */
  class TraceFile {
    var lines: seq<TraceLine>

    constructor ()
      ensures lines == []
    {
      lines := [];
    }

    /** Opening without std::ios::app truncates the file; the header follows. */
    method WriteHeader()
      modifies this
      ensures lines == [Header(HeaderText)]
    {
      lines := [];
      lines := lines + [Header(HeaderText)];
    }

    /** Opening with std::ios::app and writing one line. */
    method Append(line: TraceLine)
      modifies this
      ensures lines == old(lines) + [line]
    {
      lines := lines + [line];
    }
  }

  /** ComputeSinr: one record appended to the trace file, nothing else. */
  method ComputeSinr(file: TraceFile, channel: Channel, log10: real -> real, link: Link,
                     txPsd: Psd, noisePsd: Psd, nowUs: int)
    modifies file
    ensures file.lines == old(file.lines) + [SampleAt(channel, log10, link, txPsd, noisePsd, nowUs)]
  {
    var Received(rx, interf) := ReceivedPsds(channel, link, txPsd, nowUs);
    var snr := Decibels(log10, SnrRatio(rx, noisePsd));
    var sinr := Decibels(log10, SinrRatio(rx, noisePsd, interf));
    file.Append(Record(Seconds(nowUs), snr, sinr));
  }

  // ---------------------------------------------------------------------
  // The tick schedule
  // ---------------------------------------------------------------------

  /** timeStep, in microseconds. */
  const TimeStepUs: int := 5000

  /** C's integer division, truncating toward zero. */
  function TruncDiv(a: int, b: int): int
    requires b > 0
  {
    if a >= 0 then a / b else -((-a) / b)
  }

  /** The bound of the scheduling loop: simTime / timeStep in microseconds. */
  function TickCount(simTimeUs: int): int
  {
    TruncDiv(simTimeUs, TimeStepUs)
  }

  /** timeStep * i + timeStep / 2, in microseconds. */
  function TickTime(i: int): int
  {
    TimeStepUs * i + TimeStepUs / 2
  }

  /** The times the scheduling loop registers ComputeSinr at, in order. */
  function Ticks(simTimeUs: int): seq<int>
  {
    if TickCount(simTimeUs) <= 0 then [] else seq(TickCount(simTimeUs), i => TickTime(i))
  }

  /** The scheduling loop of main: one tick per whole time step of the run. */
  method ScheduleTicks(simTimeUs: int) returns (ticks: seq<int>)
    ensures ticks == Ticks(simTimeUs)
  {
    ticks := [];
    var i := 0;
    while i < TickCount(simTimeUs)
      invariant 0 <= i
      invariant i == 0 || i <= TickCount(simTimeUs)
      invariant |ticks| == i
      invariant forall k :: 0 <= k < i ==> ticks[k] == TickTime(k)
      decreases TickCount(simTimeUs) - i
    {
      ticks := ticks + [TickTime(i)];
      i := i + 1;
    }
  }

  /** There are simTime / timeStep ticks (none for a non-positive duration),
      the i-th at 5000 i + 2500 microseconds. */
  lemma TicksShape(simTimeUs: int)
    ensures simTimeUs >= 0 ==> |Ticks(simTimeUs)| == simTimeUs / 5000
    ensures simTimeUs < 0 ==> Ticks(simTimeUs) == []
    ensures forall i :: 0 <= i < |Ticks(simTimeUs)| ==> Ticks(simTimeUs)[i] == 5000 * i + 2500
  {
  }

  /** Ticks are strictly increasing in time, so the order in which they are
      registered is the order in which the simulator runs them. */
  lemma TicksIncrease(simTimeUs: int, i: int, j: int)
    requires 0 <= i < j < |Ticks(simTimeUs)|
    ensures Ticks(simTimeUs)[i] < Ticks(simTimeUs)[j]
  {
  }

  /** Every tick falls strictly before simTime, where Simulator::Stop ends
      the run, so no tick is lost. */
  lemma TicksPrecedeStop(simTimeUs: int, i: int)
    requires 0 <= i < |Ticks(simTimeUs)|
    ensures 0 < Ticks(simTimeUs)[i] < simTimeUs
  {
    var n := TickCount(simTimeUs);
    assert simTimeUs >= 0;
    assert i + 1 <= n;
    assert TimeStepUs * (i + 1) <= TimeStepUs * n;
    assert TimeStepUs * n <= simTimeUs;
  }

  /** The records the ticks produce, in tick order. */
  function Samples(channel: Channel, log10: real -> real, link: Link, txPsd: Psd, noisePsd: Psd,
                   ticks: seq<int>): seq<TraceLine>
  {
    seq(|ticks|, i requires 0 <= i < |ticks| => SampleAt(channel, log10, link, txPsd, noisePsd, ticks[i]))
  }

  /** The tail of main: schedule the ticks, truncate the trace file and write
      its header, then run the simulation until simTime. The scheduler runs
      the registered ticks in time order and only those before the stop
      time; every tick qualifies, so the file ends up as the header followed
      by exactly one record per tick. */
  method Run(file: TraceFile, channel: Channel, log10: real -> real, link: Link,
             txPsd: Psd, noisePsd: Psd, simTimeUs: int)
    modifies file
    ensures file.lines == [Header(HeaderText)] + Samples(channel, log10, link, txPsd, noisePsd, Ticks(simTimeUs))
  {
    var ticks := ScheduleTicks(simTimeUs);
    file.WriteHeader();
    var i := 0;
    while i < |ticks|
      invariant 0 <= i <= |ticks|
      invariant file.lines == [Header(HeaderText)] + Samples(channel, log10, link, txPsd, noisePsd, ticks[..i])
    {
      TicksPrecedeStop(simTimeUs, i);
      if ticks[i] < simTimeUs {
        ComputeSinr(file, channel, log10, link, txPsd, noisePsd, ticks[i]);
      }
      assert ticks[..i + 1] == ticks[..i] + [ticks[i]];
      i := i + 1;
    }
    assert ticks[..i] == ticks;
  }

  // ---------------------------------------------------------------------
  // Codebook file names
  // ---------------------------------------------------------------------

  /** The antenna dimensions are uint16_t. */
  newtype uint16 = x: int | 0 <= x < 0x1_0000

  predicate IsDigit(c: char)
  {
    '0' <= c <= '9'
  }

  function DigitChar(d: nat): (c: char)
    requires d < 10
    ensures IsDigit(c)
  {
    (('0' as int) + d) as char
  }

  function DigitValue(c: char): (d: nat)
    requires IsDigit(c)
    ensures d < 10 && DigitChar(d) == c
  {
    (c as int) - ('0' as int)
  }

  /** std::to_string of a non-negative integer: its decimal digits, without
      leading zeros. */
  function DecimalString(n: nat): (s: string)
    ensures |s| >= 1
    ensures forall k :: 0 <= k < |s| ==> IsDigit(s[k])
  {
    if n < 10 then [DigitChar(n)] else DecimalString(n / 10) + [DigitChar(n % 10)]
  }

  /** The number a string of decimal digits denotes. */
  function DecimalValue(s: string): nat
    requires forall k :: 0 <= k < |s| ==> IsDigit(s[k])
  {
    if s == [] then 0 else 10 * DecimalValue(s[..|s| - 1]) + DigitValue(s[|s| - 1])
  }

  /** Reading back the decimal digits of n gives n. */
  lemma {:induction false} DecimalStringRoundTrip(n: nat)
    ensures DecimalValue(DecimalString(n)) == n
  {
    var s := DecimalString(n);
    if n >= 10 {
      DecimalStringRoundTrip(n / 10);
      assert s[..|s| - 1] == DecimalString(n / 10);
    }
  }

  /** path + to_string(rows) + "x" + to_string(columns) + ".txt": the same
      construction for the UE and the eNB codebook. */
  function CodebookFilename(path: string, rows: uint16, columns: uint16): string
  {
    path + DecimalString(rows as nat) + "x" + DecimalString(columns as nat) + ".txt"
  }

  /** In a + "x" + b, where a holds no 'x', the first 'x' is at |a|. */
  lemma FirstX(a: string, b: string)
    requires forall k :: 0 <= k < |a| ==> a[k] != 'x'
    ensures (a + "x" + b)[|a|] == 'x'
    ensures forall k :: 0 <= k < |a| ==> (a + "x" + b)[k] != 'x'
  {
    var s := a + "x" + b;
    forall k | 0 <= k < |a| ensures s[k] != 'x' {
      assert s[k] == a[k];
    }
  }

  /** A string in which no character is 'x' can be cut off at the first 'x'
      that follows it. */
  lemma SplitAtFirstX(a: string, b: string, c: string, d: string)
    requires forall k :: 0 <= k < |a| ==> a[k] != 'x'
    requires forall k :: 0 <= k < |c| ==> c[k] != 'x'
    requires a + "x" + b == c + "x" + d
    ensures a == c && b == d
  {
    var s := a + "x" + b;
    FirstX(a, b);
    FirstX(c, d);
    assert a == s[..|a|];
    assert c == (c + "x" + d)[..|c|];
    assert b == s[|a| + 1..];
    assert d == (c + "x" + d)[|c| + 1..];
  }

  /** Different antenna dimensions give different codebook files: the name
      determines the rows and the columns. */
  lemma CodebookFilenameInjective(path: string, rows1: uint16, columns1: uint16, rows2: uint16, columns2: uint16)
    requires CodebookFilename(path, rows1, columns1) == CodebookFilename(path, rows2, columns2)
    ensures rows1 == rows2 && columns1 == columns2
  {
    var r1, c1 := DecimalString(rows1 as nat), DecimalString(columns1 as nat);
    var r2, c2 := DecimalString(rows2 as nat), DecimalString(columns2 as nat);
    var tail1, tail2 := c1 + ".txt", c2 + ".txt";
    assert CodebookFilename(path, rows1, columns1) == path + (r1 + "x" + tail1);
    assert CodebookFilename(path, rows2, columns2) == path + (r2 + "x" + tail2);
    assert r1 + "x" + tail1 == r2 + "x" + tail2 by {
      var s1, s2 := r1 + "x" + tail1, r2 + "x" + tail2;
      assert (path + s1)[|path|..] == s1;
      assert (path + s2)[|path|..] == s2;
    }
    forall k | 0 <= k < |r1| ensures r1[k] != 'x' { assert IsDigit(r1[k]); }
    forall k | 0 <= k < |r2| ensures r2[k] != 'x' { assert IsDigit(r2[k]); }
    SplitAtFirstX(r1, tail1, r2, tail2);
    assert c1 == tail1[..|c1|] && c2 == tail2[..|c2|];
    DecimalStringRoundTrip(rows1 as nat);
    DecimalStringRoundTrip(rows2 as nat);
    DecimalStringRoundTrip(columns1 as nat);
    DecimalStringRoundTrip(columns2 as nat);
  }

  // ---------------------------------------------------------------------
  // Scenarios
  // ---------------------------------------------------------------------

  datatype Scenario = ParkingLotOld | ParkingLotCars | LRoom

  /** The initial positions of the two eNBs and the two UEs. */
  datatype Placement = Placement(enb0: Antenna.Vector, enb1: Antenna.Vector,
                                 ue0: Antenna.Vector, ue1: Antenna.Vector)

  /** The first scenario check: the mobility set-up. None is
      NS_FATAL_ERROR ("Unsupported scenario"). */
  function ScenarioPlacement(scenario: string): Option<Placement>
  {
    if scenario == "ParkingLot-old" then
      Some(Placement(Antenna.Vector(22.0, 32.0, 3.0), Antenna.Vector(32.0, -37.0, 3.0),
                     Antenna.Vector(40.0, 50.0, 1.6), Antenna.Vector(0.0, 0.0, 1.5)))
    else if scenario == "ParkingLotCars" then
      Some(Placement(Antenna.Vector(40.0, 55.0, 3.0), Antenna.Vector(55.0, -13.0, 3.0),
                     Antenna.Vector(40.0, 56.0, 1.5), Antenna.Vector(20.0, 15.0, 1.5)))
    else if scenario == "L-Room" then
      Some(Placement(Antenna.Vector(0.1, 3.0, 2.5), Antenna.Vector(8.0, 18.8, 2.5),
                     Antenna.Vector(0.5, 3.0, 1.5), Antenna.Vector(8.0, 2.5, 1.5)))
    else
      None
  }

  /** Bearing of each eNB's array and the common downtilt, in radians. */
  datatype EnbOrientation = EnbOrientation(bearing0: real, bearing1: real, downtilt: real)

  /** The second scenario check: the eNB antenna orientation. None is
      NS_FATAL_ERROR ("Unsupported scenario: " << scenario). */
  function ScenarioOrientation(scenario: string): Option<EnbOrientation>
  {
    if scenario == "ParkingLot-old" || scenario == "ParkingLotCars" then
      Some(EnbOrientation(Antenna.DegreesToRadians(-76.2107), Antenna.DegreesToRadians(105.826),
                          Antenna.DegreesToRadians(12.0)))
    else if scenario == "L-Room" then
      Some(EnbOrientation(Antenna.DegreesToRadians(-90.0), Antenna.DegreesToRadians(0.0),
                          Antenna.DegreesToRadians(12.0)))
    else
      None
  }

  /** The two checks accept exactly the same three names, so the second fatal
      error cannot be reached once the first check has passed. */
  lemma ScenarioChecksAgree(scenario: string)
    ensures ScenarioPlacement(scenario).Some? <==> scenario in ["ParkingLot-old", "ParkingLotCars", "L-Room"]
    ensures ScenarioOrientation(scenario).Some? <==> ScenarioPlacement(scenario).Some?
  {
  }
}
