/** Runs of the timer state machine: what a sequence of ticks does, given the
    line level the sensor presents at each tick. These connect the single-tick
    handlers of dht11.c to the DHT11 protocol as a whole: a start sequence, the
    sensor's response, forty bits, and the way down to light sleep and back. */
module Traces {
  import opened Frame
  import opened Machine

  /** The registers after one tick per level, in order; every tick of the run
      sees the same SNTP timestamp. */
  ghost function Run(r: Regs, levels: seq<bool>, timestamp: nat): Regs
    decreases |levels|
  {
    if levels == [] then r else Run(Tick(r, levels[0], timestamp), levels[1..], timestamp)
  }

  lemma {:induction false} RunConcat(r: Regs, a: seq<bool>, b: seq<bool>, timestamp: nat)
    ensures Run(r, a + b, timestamp) == Run(Run(r, a, timestamp), b, timestamp)
    decreases |a|
  {
    if a == [] {
      assert a + b == b;
    } else {
      assert (a + b)[1..] == a[1..] + b;
      RunConcat(Tick(r, a[0], timestamp), a[1..], b, timestamp);
    }
  }

  lemma RunOne(r: Regs, level: bool, timestamp: nat)
    ensures Run(r, [level], timestamp) == Tick(r, level, timestamp)
  {
    assert [level][1..] == [];
  }

  /** A run of one more tick. */
  lemma RunSnoc(r: Regs, levels: seq<bool>, level: bool, timestamp: nat)
    ensures Run(r, levels + [level], timestamp) == Tick(Run(r, levels, timestamp), level, timestamp)
  {
    RunConcat(r, levels, [level], timestamp);
    RunOne(Run(r, levels, timestamp), level, timestamp);
  }

  /** Every run keeps the machine invariant. */
  lemma {:induction false} RunPreservesInv(r: Regs, levels: seq<bool>, timestamp: nat)
    requires Inv(r)
    ensures Inv(Run(r, levels, timestamp))
    decreases |levels|
  {
    if levels != [] {
      TickPreservesInv(r, levels[0], timestamp);
      RunPreservesInv(Tick(r, levels[0], timestamp), levels[1..], timestamp);
    }
  }

  // ---------------------------------------------------------------------
  // Host start sequence: RESET, 2 s idle, 18 ms start pulse.

  /** While the start delay of STARTING or the pulse of STARTED has not run
      out, each tick only adds the interval to the elapsed time. */
  lemma {:induction false} HoldTicks(r: Regs, levels: seq<bool>, timestamp: nat)
    requires Inv(r) && (r.state == Starting || r.state == Started) && r.intervalUs == DecodeIntervalUs
    requires r.state == Starting ==> r.elapsedUs + DecodeIntervalUs * |levels| <= StartingDelayUs
    requires r.state == Started ==> r.elapsedUs + DecodeIntervalUs * |levels| <= StartPulseUs
    ensures var t := Run(r, levels, timestamp);
      && Inv(t) && t.state == r.state && t.elapsedUs == r.elapsedUs + DecodeIntervalUs * |levels|
      && t.intervalUs == r.intervalUs && t.counter == r.counter && t.data == r.data && t.checksum == r.checksum
    decreases |levels|
  {
    if levels != [] {
      HoldTick(r, levels[0], timestamp);
      HoldTicks(Tick(r, levels[0], timestamp), levels[1..], timestamp);
    }
  }

  lemma HoldTick(r: Regs, level: bool, timestamp: nat)
    requires Inv(r) && (r.state == Starting || r.state == Started) && r.intervalUs == DecodeIntervalUs
    requires r.state == Starting ==> r.elapsedUs + DecodeIntervalUs <= StartingDelayUs
    requires r.state == Started ==> r.elapsedUs + DecodeIntervalUs <= StartPulseUs
    ensures var t := Tick(r, level, timestamp);
      && Inv(t) && t.state == r.state && t.elapsedUs == r.elapsedUs + DecodeIntervalUs
      && t.intervalUs == r.intervalUs && t.counter == r.counter && t.data == r.data && t.checksum == r.checksum
  {
    StartSequenceTick(r, level, timestamp);
    TickElapsed(r, level, timestamp);
    TickPreservesInv(r, level, timestamp);
    SessionTouchedOnlyByDecoding(r, level, timestamp);
  }

  /** `n` consecutive samples of one line level. */
  function Samples(level: bool, n: nat): (levels: seq<bool>)
    ensures |levels| == n && forall i :: 0 <= i < n ==> levels[i] == level
  {
    seq(n, _ => level)
  }

  lemma SamplesSplit(level: bool, a: nat, b: nat)
    ensures Samples(level, a + b) == Samples(level, a) + Samples(level, b)
  {
  }

  /** The host's part of a read: the RESET tick, 200000 ticks of idle and one
      more that ends the 2 s delay, 1800 ticks of start pulse and one more.
      The host drives the line meanwhile, so the levels are immaterial. */
  function StartLevels(): seq<bool>
  {
    ([true] + Samples(true, 200_000)) + ([true] + Samples(true, 1_800)) + [true]
  }

  /** The RESET tick and the 2 s idle of STARTING. */
  lemma StartDelay(r: Regs, timestamp: nat)
    requires Inv(r) && r.state == Reset
    ensures var t := Run(r, [true] + Samples(true, 200_000), timestamp);
      && Inv(t) && t.state == Starting && t.elapsedUs == StartingDelayUs && t.intervalUs == DecodeIntervalUs
      && t.counter == 0 && t.data == 0 && t.checksum == 0
  {
    RunOne(r, true, timestamp);
    ResetTick(r, true, timestamp);
    TickPreservesInv(r, true, timestamp);
    HoldTicks(Tick(r, true, timestamp), Samples(true, 200_000), timestamp);
    RunConcat(r, [true], Samples(true, 200_000), timestamp);
  }

  /** The tick that ends the 2 s delay, and the 18 ms start pulse of STARTED. */
  lemma StartPulse(r: Regs, timestamp: nat)
    requires Inv(r) && r.state == Starting && r.elapsedUs == StartingDelayUs && r.intervalUs == DecodeIntervalUs
    ensures var t := Run(r, [true] + Samples(true, 1_800), timestamp);
      && Inv(t) && t.state == Started && t.elapsedUs == StartPulseUs && t.intervalUs == DecodeIntervalUs
      && t.counter == r.counter && t.data == r.data && t.checksum == r.checksum
  {
    RunOne(r, true, timestamp);
    DelayEnd(r, timestamp);
    HoldTicks(Tick(r, true, timestamp), Samples(true, 1_800), timestamp);
    RunConcat(r, [true], Samples(true, 1_800), timestamp);
  }

  /** The tick that ends the 2 s delay starts the pulse. */
  lemma DelayEnd(r: Regs, timestamp: nat)
    requires Inv(r) && r.state == Starting && r.elapsedUs == StartingDelayUs && r.intervalUs == DecodeIntervalUs
    ensures var t := Tick(r, true, timestamp);
      && Inv(t) && t.state == Started && t.elapsedUs == 0 && t.intervalUs == DecodeIntervalUs
      && t.counter == r.counter && t.data == r.data && t.checksum == r.checksum
  {
    StartSequenceTick(r, true, timestamp);
    TickPreservesInv(r, true, timestamp);
    SessionTouchedOnlyByDecoding(r, true, timestamp);
  }

  /** The tick that ends the start pulse hands the line to the sensor. */
  lemma PulseEnd(r: Regs, timestamp: nat)
    requires Inv(r) && r.state == Started && r.elapsedUs == StartPulseUs && r.intervalUs == DecodeIntervalUs
    ensures var t := Tick(r, true, timestamp);
      && Inv(t) && t.state == Waiting && t.elapsedUs == 0 && t.intervalUs == DecodeIntervalUs
      && t.counter == r.counter && t.data == r.data && t.checksum == r.checksum
  {
    StartSequenceTick(r, true, timestamp);
    TickPreservesInv(r, true, timestamp);
    SessionTouchedOnlyByDecoding(r, true, timestamp);
  }

  /** From RESET, the start sequence clears the session and leaves the
      machine in WAITING at the 10 us rate, ready for the sensor's response. */
  lemma StartSequence(r: Regs, timestamp: nat)
    requires Inv(r) && r.state == Reset
    ensures var t := Run(r, StartLevels(), timestamp);
      && Inv(t) && t.state == Waiting && t.elapsedUs == 0 && t.intervalUs == DecodeIntervalUs
      && t.counter == 0 && t.data == 0 && t.checksum == 0
  {
    var a := [true] + Samples(true, 200_000);
    var b := [true] + Samples(true, 1_800);
    StartDelay(r, timestamp);
    var r2 := Run(r, a, timestamp);
    StartPulse(r2, timestamp);
    PulseEnd(Run(r2, b, timestamp), timestamp);
    RunConcat(r, a, b, timestamp);
    RunSnoc(r, a + b, true, timestamp);
  }

  // ---------------------------------------------------------------------
  // The sensor's response and the forty bits.

  /** The start of a bit: STARTING_DATA, just entered, at the 10 us rate. */
  ghost predicate AtBitStart(r: Regs)
  {
    Inv(r) && r.state == StartingData && r.elapsedUs == 0 && r.intervalUs == DecodeIntervalUs
  }

  /** One phase of the sensor's waveform as the 10 us ticks sample it: `n`
      samples of the line away from `edge`, then the first sample at `edge`. */
  function Phase(edge: bool, n: nat): (levels: seq<bool>)
    ensures |levels| == n + 1 && levels[n] == edge
    ensures forall i :: 0 <= i < n ==> levels[i] == !edge
  {
    Samples(!edge, n) + [edge]
  }

  /** The states that wait out a line level. */
  predicate Waits(s: State)
  {
    s in {Waiting, ReceivingResponse, Ready, StartingData, ReceivingZero, ReceivingOne}
  }

  /** How long a waiting state stays put while the line holds the level it is
      not waiting for: its timeout, or for RECEIVING_ZERO the 28 us after which
      a high line makes the bit a one. */
  function StayUs(s: State): nat
  {
    if s == ReceivingZero then 28 else TimeoutUs(s)
  }

  /** Within its limit, a tick on which the line stays away from the awaited
      level only adds the interval to the elapsed time. */
  lemma StayTick(r: Regs, timestamp: nat)
    requires Inv(r) && Waits(r.state) && r.elapsedUs + r.intervalUs <= StayUs(r.state)
    ensures var t := Tick(r, !AwaitedLevel(r.state), timestamp);
      && Inv(t) && t.state == r.state && t.elapsedUs == r.elapsedUs + r.intervalUs
      && t.intervalUs == r.intervalUs && t.counter == r.counter && t.data == r.data && t.checksum == r.checksum
  {
    TickPreservesInv(r, !AwaitedLevel(r.state), timestamp);
    if r.state == ReceivingZero {
      ReceivingZeroTick(r, true, timestamp);
    } else if r.state == ReceivingOne {
      ReceivingOneTick(r, true, timestamp);
    } else {
      EdgeWaitTick(r, !AwaitedLevel(r.state), timestamp);
    }
  }

  /** `n` such ticks in a row. */
  lemma {:induction false} WaitOut(r: Regs, n: nat, timestamp: nat)
    requires Inv(r) && Waits(r.state) && r.intervalUs == DecodeIntervalUs
    requires r.elapsedUs + DecodeIntervalUs * n <= StayUs(r.state)
    ensures var t := Run(r, Samples(!AwaitedLevel(r.state), n), timestamp);
      && Inv(t) && t.state == r.state && t.elapsedUs == r.elapsedUs + DecodeIntervalUs * n
      && t.intervalUs == r.intervalUs && t.counter == r.counter && t.data == r.data && t.checksum == r.checksum
    decreases n
  {
    if n > 0 {
      var level := !AwaitedLevel(r.state);
      StayTick(r, timestamp);
      assert Samples(level, n)[1..] == Samples(level, n - 1);
      WaitOut(Tick(r, level, timestamp), n - 1, timestamp);
    }
  }

  /** A phase whose edge comes within the timeout moves an edge-waiting state
      to its successor with the elapsed time reset and the registers intact. */
  lemma EdgeAfter(r: Regs, n: nat, timestamp: nat)
    requires Inv(r) && r.state in {Waiting, ReceivingResponse, Ready, StartingData}
    requires r.elapsedUs == 0 && r.intervalUs == DecodeIntervalUs
    requires DecodeIntervalUs * (n + 1) <= TimeoutUs(r.state)
    ensures var t := Run(r, Phase(AwaitedLevel(r.state), n), timestamp);
      && Inv(t) && t.state == EdgeTarget(r.state) && t.elapsedUs == 0
      && t.intervalUs == r.intervalUs && t.counter == r.counter && t.data == r.data && t.checksum == r.checksum
  {
    var edge := AwaitedLevel(r.state);
    WaitOut(r, n, timestamp);
    var m := Run(r, Samples(!edge, n), timestamp);
    EdgeWaitTick(m, edge, timestamp);
    TickPreservesInv(m, edge, timestamp);
    RunSnoc(r, Samples(!edge, n), edge, timestamp);
  }

  /** A phase whose edge does not come within the timeout: after `n` samples
      away from the awaited level, which take the elapsed time to the
      timeout, the next tick goes to ERROR, at whatever level, recording the
      state that timed out. */
  lemma PhaseTooLong(r: Regs, n: nat, level: bool, timestamp: nat)
    requires Inv(r) && r.state in {Waiting, ReceivingResponse, Ready, StartingData}
    requires r.elapsedUs == 0 && r.intervalUs == DecodeIntervalUs
    requires DecodeIntervalUs * n == TimeoutUs(r.state)
    ensures var t := Run(r, Samples(!AwaitedLevel(r.state), n) + [level], timestamp);
      t.state == Error && t.previous == r.state
  {
    var away := Samples(!AwaitedLevel(r.state), n);
    assert StayUs(r.state) == TimeoutUs(r.state);
    WaitOut(r, n, timestamp);
    var m := Run(r, away, timestamp);
    assert m.state == r.state && Elapsed(m) == TimeoutUs(r.state) + DecodeIntervalUs;
    EdgeWaitTick(m, level, timestamp);
    RunSnoc(r, away, level, timestamp);
  }

  /** How many 10 us samples each phase of the sensor's response lasts before
      its closing edge: the released line before the sensor answers, the
      sensor's low pulse and its high pulse. The DHT11 datasheet's 20-40 us,
      80 us and 80 us are ResponseTiming(2, 7, 7). */
  datatype ResponseTiming = ResponseTiming(wait: nat, low: nat, high: nat)
  {
    /** Each phase, with its edge, within the 40, 80 and 80 us timeouts. */
    predicate Accepted()
    {
      wait <= 3 && low <= 7 && high <= 7
    }
  }

  /** The sampled response; its last sample is the low that begins the first bit. */
  function ResponseLevels(rt: ResponseTiming): seq<bool>
  {
    Phase(false, rt.wait) + Phase(true, rt.low) + Phase(false, rt.high)
  }

  /** Every response timing the handlers accept brings WAITING to the start
      of the first bit with the registers unchanged. */
  lemma Response(r: Regs, rt: ResponseTiming, timestamp: nat)
    requires Inv(r) && r.state == Waiting && r.elapsedUs == 0 && r.intervalUs == DecodeIntervalUs
    requires rt.Accepted()
    ensures var t := Run(r, ResponseLevels(rt), timestamp);
      AtBitStart(t) && t.counter == r.counter && t.data == r.data && t.checksum == r.checksum
  {
    var a := Phase(false, rt.wait);
    var b := Phase(true, rt.low);
    var c := Phase(false, rt.high);
    EdgeAfter(r, rt.wait, timestamp);
    var r1 := Run(r, a, timestamp);
    EdgeAfter(r1, rt.low, timestamp);
    EdgeAfter(Run(r1, b, timestamp), rt.high, timestamp);
    RunConcat(r, a, b, timestamp);
    RunConcat(r, a + b, c, timestamp);
  }

  /** How many 10 us samples a bit's two phases last before their closing
      edges: the low gap, and the high pulse whose width carries the bit. */
  datatype BitTiming = BitTiming(low: nat, high: nat)

  /** The timings the handlers decode as `bit`: the gap ends within 50 us; a
      zero's high pulse ends by the third sample after the rising edge, a
      one's after it and by the eighth (70 us still high at most). */
  predicate Accepts(bit: bool, w: BitTiming)
  {
    w.low <= 4 && if bit then 3 <= w.high <= 7 else w.high <= 2
  }

  /** The DHT11 datasheet's timing: a 50 us gap, then 26-28 us high for a
      zero or 70 us for a one. */
  function Nominal(bit: bool): (w: BitTiming)
    ensures Accepts(bit, w)
    ensures Accepts(!bit, w) == false
  {
    BitTiming(4, if bit then 7 else 2)
  }

  /** The samples of one bit; the last one is the low that begins the next. */
  function BitPulses(w: BitTiming): seq<bool>
  {
    Phase(true, w.low) + Phase(false, w.high)
  }

  /** The samples of a sequence of bits. */
  function Pulses(ws: seq<BitTiming>): seq<bool>
  {
    if ws == [] then [] else Pulses(ws[..|ws| - 1]) + BitPulses(ws[|ws| - 1])
  }

  /** Each timing is one the handlers decode as the matching bit. */
  ghost predicate AcceptsAll(bits: seq<bool>, ws: seq<BitTiming>)
  {
    |ws| == |bits| && forall i :: 0 <= i < |bits| ==> Accepts(bits[i], ws[i])
  }

  /** The shift registers after one more bit. */
  lemma RegistersStep(bits: seq<bool>, bit: bool)
    ensures |bits| < DataBits ==> DataOf(bits + [bit]) == ShiftIn(DataOf(bits), bit)
    ensures |bits| < DataBits ==> ChecksumOf(bits + [bit]) == ChecksumOf(bits)
    ensures |bits| >= DataBits ==> DataOf(bits + [bit]) == DataOf(bits)
    ensures |bits| >= DataBits ==> ChecksumOf(bits + [bit]) == ShiftIn(ChecksumOf(bits), bit)
  {
    var b := bits + [bit];
    if |bits| < DataBits {
      assert b[..|b| - 1] == bits;
    } else {
      var c := bits[DataBits..];
      assert b[..DataBits] == bits[..DataBits];
      assert b[DataBits..] == c + [bit];
      assert (c + [bit])[..|c|] == c;
      assert Accumulate(0, c) == ChecksumOf(bits);
    }
  }

  /** The high pulse of a bit, from the rising edge: RECEIVING_ZERO stays for
      up to two samples, becomes RECEIVING_ONE at the third, and that stays
      up to 70 us. The registers are untouched. */
  lemma HighPulse(r: Regs, bit: bool, high: nat, timestamp: nat)
    requires Inv(r) && r.state == ReceivingZero && r.elapsedUs == 0 && r.intervalUs == DecodeIntervalUs
    requires if bit then 3 <= high <= 7 else high <= 2
    ensures var m := Run(r, Samples(true, high), timestamp);
      && Inv(m) && m.state == (if bit then ReceivingOne else ReceivingZero) && m.intervalUs == r.intervalUs
      && m.counter == r.counter && m.data == r.data && m.checksum == r.checksum
  {
    if bit {
      HighForOne(r, timestamp);
      var r3 := Run(r, Samples(true, 3), timestamp);
      WaitOut(r3, high - 3, timestamp);
      SamplesSplit(true, 3, high - 3);
      RunConcat(r, Samples(true, 3), Samples(true, high - 3), timestamp);
    } else {
      WaitOut(r, high, timestamp);
    }
  }

  /** Three high samples from the rising edge reach 30 us, past the 28 us
      that makes the bit a one. */
  lemma HighForOne(r: Regs, timestamp: nat)
    requires Inv(r) && r.state == ReceivingZero && r.elapsedUs == 0 && r.intervalUs == DecodeIntervalUs
    ensures var m := Run(r, Samples(true, 3), timestamp);
      && Inv(m) && m.state == ReceivingOne && m.elapsedUs == 30 && m.intervalUs == r.intervalUs
      && m.counter == r.counter && m.data == r.data && m.checksum == r.checksum
  {
    WaitOut(r, 2, timestamp);
    var r2 := Run(r, Samples(true, 2), timestamp);
    ReceivingZeroTick(r2, true, timestamp);
    TickPreservesInv(r2, true, timestamp);
    assert Samples(true, 2) + [true] == Samples(true, 3);
    RunSnoc(r, Samples(true, 2), true, timestamp);
  }

  /** The low that ends the high pulse shifts the bit in. */
  lemma FallingEdge(m: Regs, timestamp: nat)
    requires Inv(m) && (m.state == ReceivingZero || m.state == ReceivingOne)
    ensures var t := Tick(m, false, timestamp);
      var bit := m.state == ReceivingOne;
      && Inv(t) && BitAppended(m, t, bit)
      && (m.counter < DataBits ==> t.data == ShiftIn(m.data, bit))
      && (m.counter >= DataBits ==> t.checksum == ShiftIn(m.checksum, bit))
  {
    TickPreservesInv(m, false, timestamp);
    if m.state == ReceivingOne {
      ReceivingOneTick(m, false, timestamp);
      ShiftedWithoutLoss(m, true);
    } else {
      ReceivingZeroTick(m, false, timestamp);
      ShiftedWithoutLoss(m, false);
    }
  }

  lemma ShiftedWithoutLoss(m: Regs, bit: bool)
    requires Inv(m) && IsDecoding(m.state)
    ensures m.counter < DataBits ==> ShiftIn(m.data, bit) == 2 * m.data + BitValue(bit)
    ensures m.counter >= DataBits ==> ShiftIn(m.checksum, bit) == 2 * m.checksum + BitValue(bit)
  {
    if m.counter < DataBits {
      ShiftInWidth(m.data, m.counter, bit);
    } else {
      ShiftInWidth(m.checksum, m.counter - DataBits, bit);
    }
  }

  /** Every timing the handlers accept for `bit`, from the start of the bit,
      appends that bit to the frame registers. */
  lemma DecodeBit(r: Regs, bit: bool, w: BitTiming, timestamp: nat)
    requires AtBitStart(r) && Accepts(bit, w)
    ensures var t := Run(r, BitPulses(w), timestamp);
      && Inv(t) && t.counter == r.counter + 1
      && (r.counter < DataBits ==> t.data == ShiftIn(r.data, bit) && t.checksum == r.checksum)
      && (r.counter >= DataBits ==> t.checksum == ShiftIn(r.checksum, bit) && t.data == r.data)
      && (t.counter < FrameBits ==> AtBitStart(t))
      && (t.counter == FrameBits ==> t.state == ReceivedData)
  {
    EdgeAfter(r, w.low, timestamp);
    var r1 := Run(r, Phase(true, w.low), timestamp);
    HighPulse(r1, bit, w.high, timestamp);
    FallingEdge(Run(r1, Samples(true, w.high), timestamp), timestamp);
    RunSnoc(r1, Samples(true, w.high), false, timestamp);
    RunConcat(r, Phase(true, w.low), Phase(false, w.high), timestamp);
  }

  /** The samples of `bits`, at any timings the handlers accept, from the
      first bit's start on cleared registers, leave in the registers exactly
      what shifting `bits` in gives, count them, and finish in RECEIVED_DATA
      at the 40th. */
  lemma {:induction false} DecodeBits(r: Regs, bits: seq<bool>, ws: seq<BitTiming>, timestamp: nat)
    requires AtBitStart(r) && r.counter == 0 && r.data == 0 && r.checksum == 0
    requires |bits| <= FrameBits && AcceptsAll(bits, ws)
    ensures var t := Run(r, Pulses(ws), timestamp);
      && Inv(t) && t.counter == |bits| && t.data == DataOf(bits) && t.checksum == ChecksumOf(bits)
      && (|bits| < FrameBits ==> AtBitStart(t))
      && (|bits| == FrameBits ==> t.state == ReceivedData)
  {
    if bits != [] {
      var front, bit := bits[..|bits| - 1], bits[|bits| - 1];
      var wf, w := ws[..|ws| - 1], ws[|ws| - 1];
      assert bits == front + [bit];
      assert AcceptsAll(front, wf) by {
        forall i | 0 <= i < |front|
          ensures Accepts(front[i], wf[i])
        {
          assert front[i] == bits[i] && wf[i] == ws[i];
        }
      }
      DecodeBits(r, front, wf, timestamp);
      DecodeBit(Run(r, Pulses(wf), timestamp), bit, w, timestamp);
      RunConcat(r, Pulses(wf), BitPulses(w), timestamp);
      RegistersStep(front, bit);
    }
  }

  /** Every 40-bit frame the sensor can send, at any timings the handlers
      accept, is decoded exactly: the data register holds the reading's bytes,
      the checksum register the checksum byte, and the byte split recovers the
      reading. */
  lemma DecodeRoundTrip(r: Regs, p: Packet, ws: seq<BitTiming>, timestamp: nat)
    requires AtBitStart(r) && r.counter == 0 && r.data == 0 && r.checksum == 0
    requires p.IsBytes() && AcceptsAll(PacketBits(p), ws)
    ensures var t := Run(r, Pulses(ws), timestamp);
      && t.state == ReceivedData && t.data < Word
      && t.data == Pack(p.reading) && t.checksum == p.checksum
      && Split(t.data) == p.reading
  {
    DecodeBits(r, PacketBits(p), ws, timestamp);
    RegistersOfPacket(p);
  }

  /** The line levels of one whole read, from RESET on. */
  function ReadLevels(rt: ResponseTiming, ws: seq<BitTiming>): seq<bool>
  {
    StartLevels() + ResponseLevels(rt) + Pulses(ws)
  }

  /** A complete read: from RESET, the start sequence, any accepted response
      and the frame of any packet at any accepted timings end in
      RECEIVED_DATA with the packet in the registers; the next tick goes on
      to DONE whatever the checksum. */
  lemma ReadCycle(r: Regs, p: Packet, rt: ResponseTiming, ws: seq<BitTiming>, timestamp: nat)
    requires Inv(r) && r.state == Reset && p.IsBytes()
    requires rt.Accepted() && AcceptsAll(PacketBits(p), ws)
    ensures var t := Run(r, ReadLevels(rt, ws), timestamp);
      && t.state == ReceivedData
      && t.data == Pack(p.reading) && t.checksum == p.checksum && Split(t.data) == p.reading
      && Tick(t, false, timestamp).state == Done
  {
    var r1 := Run(r, StartLevels(), timestamp);
    StartSequence(r, timestamp);
    Response(r1, rt, timestamp);
    DecodeRoundTrip(Run(r1, ResponseLevels(rt), timestamp), p, ws, timestamp);
    RunConcat(r, StartLevels(), ResponseLevels(rt), timestamp);
    RunConcat(r, StartLevels() + ResponseLevels(rt), Pulses(ws), timestamp);
    ReceivedDataTick(Run(r, ReadLevels(rt, ws), timestamp), false, timestamp);
  }

  /** A frame whose checksum byte disagrees with its sum (50 + 0 + 29 + 3 =
      82, sent 0x54) is decoded and finished like any other: no handler
      compares the two. */
  lemma MismatchStillDone(r: Regs, p: Packet, rt: ResponseTiming, ws: seq<BitTiming>, timestamp: nat)
    requires Inv(r) && r.state == Reset
    requires p == Packet(Reading(50, 0, 29, 3), 0x54)
    requires rt.Accepted() && AcceptsAll(PacketBits(p), ws)
    ensures p.reading.Sum() % 256 != p.checksum
    ensures var t := Run(r, ReadLevels(rt, ws), timestamp);
      && t.data == 0x3200_1D03 && t.checksum == 0x54
      && Tick(t, false, timestamp).state == Done
  {
    ReadCycle(r, p, rt, ws, timestamp);
  }

  // ---------------------------------------------------------------------
  // Errors, sleep and wake-up.

  /** A timeout is reported with the state it happened in: the tick past the
      limit goes to ERROR and the next one to DONE, which still records the
      timed-out state. RECEIVING_ONE times out only while the line is high. */
  lemma TimeoutReported(r: Regs, level: bool, next: bool, timestamp: nat)
    requires r.state in {Waiting, ReceivingResponse, Ready, StartingData} || (r.state == ReceivingOne && level)
    requires Elapsed(r) > TimeoutUs(r.state)
    ensures var t := Run(r, [level, next], timestamp);
      t.state == Done && t.previous == r.state
  {
    var r1 := Tick(r, level, timestamp);
    if r.state == ReceivingOne {
      assert r1.state == Error && r1.previous == ReceivingOne;
    } else {
      EdgeWaitTick(r, level, timestamp);
    }
    RecoveryTick(r1, next, timestamp);
    RunOne(r, level, timestamp);
    RunSnoc(r, [level], next, timestamp);
    assert [level] + [next] == [level, next];
  }

  /** From DONE, if the disconnect never completes, the sleep ceiling ends the
      wait: PRE_SLEEP arms the timer, SLEEP re-arms it once at 5 s, and at
      10 s requests light sleep and leaves the timer unarmed. */
  lemma SleepCeiling(r: Regs, a: bool, b: bool, c: bool, d: bool, timestamp: nat)
    requires Inv(r) && r.state == Done
    ensures var t1 := Run(r, [a], timestamp);
      var t2 := Run(r, [a, b], timestamp);
      var t3 := Run(r, [a, b, c], timestamp);
      var t4 := Run(r, [a, b, c, d], timestamp);
      && t1.state == PreSleep && t1.armed
      && t2.state == Sleep && t2.armed && t2.disconnecting && t2.elapsedUs == 0
      && t3.state == Sleep && t3.armed && t3.elapsedUs == SleepDelayUs
      && t4.state == Sleep && !t4.armed && t4.lightSleep
  {
    var t1 := Tick(r, a, timestamp);
    RecoveryTick(r, a, timestamp);
    TickArming(r, a, timestamp);
    var t2 := Tick(t1, b, timestamp);
    RecoveryTick(t1, b, timestamp);
    var t3 := Tick(t2, c, timestamp);
    SleepTick(t2, c, timestamp);
    TickElapsed(t2, c, timestamp);
    SleepTick(t3, d, timestamp);
    RunOne(r, a, timestamp);
    RunSnoc(r, [a], b, timestamp);
    assert [a] + [b] == [a, b];
    RunSnoc(r, [a, b], c, timestamp);
    assert [a, b] + [c] == [a, b, c];
    RunSnoc(r, [a, b, c], d, timestamp);
    assert [a, b, c] + [d] == [a, b, c, d];
  }

  /** Once the disconnect callback has fired, the next SLEEP tick requests
      light sleep. */
  lemma DisconnectEndsSleep(r: Regs, level: bool, timestamp: nat)
    requires r.state == Sleep
    ensures var t := Tick(DisconnectCallback(r), level, timestamp);
      t.state == Sleep && t.lightSleep && !t.armed
  {
    SleepTick(DisconnectCallback(r), level, timestamp);
  }

  /** Waking up: the wake callback, one tick to POST_WAKEUP, a tick that
      finds the clock set goes to RESET, and the next tick starts a read. */
  lemma WakeCycle(r: Regs, a: bool, b: bool, c: bool, timestamp: nat)
    requires timestamp != 0
    ensures var w := WakeupCallback(r);
      var t1 := Run(w, [a], timestamp);
      var t2 := Run(w, [a, b], timestamp);
      var t3 := Run(w, [a, b, c], timestamp);
      && t1.state == PostWakeup && t1.intervalUs == ConnectionDelayUs
      && t2.state == Reset && t2.armed
      && t3.state == Starting && t3.counter == 0 && t3.intervalUs == DecodeIntervalUs && t3.armed
  {
    var w := WakeupCallback(r);
    var t1 := Tick(w, a, timestamp);
    WakeTick(w, a, timestamp);
    var t2 := Tick(t1, b, timestamp);
    WakeTick(t1, b, timestamp);
    TickArming(t1, b, timestamp);
    ResetTick(t2, c, timestamp);
    TickArming(t2, c, timestamp);
    RunOne(w, a, timestamp);
    RunSnoc(w, [a], b, timestamp);
    assert [a] + [b] == [a, b];
    RunSnoc(w, [a, b], c, timestamp);
    assert [a, b] + [c] == [a, b, c];
  }

  /** Without a clock, POST_WAKEUP keeps waiting, re-armed, tick after tick. */
  lemma {:induction false} NoClockNoRead(r: Regs, levels: seq<bool>)
    requires r.state == PostWakeup
    ensures Run(r, levels, 0).state == PostWakeup
    ensures levels != [] ==> Run(r, levels, 0).armed
    decreases |levels|
  {
    if levels != [] {
      WakeTick(r, levels[0], 0);
      TickArming(r, levels[0], 0);
      NoClockNoRead(Tick(r, levels[0], 0), levels[1..]);
    }
  }
}
