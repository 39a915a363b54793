/** The tick-driven state machine of dht11.c as pure functions over a snapshot
    of its globals: one function per handler, the dispatcher `Tick`
    (hw_timerfunc), the two asynchronous callbacks, and the single-tick
    properties of each. The class in module Sensor is proved against these. */
module Machine {
  import opened Frame

  /** The `state` enumeration (dht11.c:29-47). */
  datatype State =
    | Reset | Starting | Started | Waiting | ReceivingResponse | Ready
    | StartingData | ReceivingZero | ReceivingOne | ReceivedData
    | Error | Done | PreSleep | Sleep | Wakeup | PostWakeup

  const StartingDelayUs: nat := 2_000_000
  const StartPulseUs: nat := 18_000
  const ConnectionDelayUs: nat := 5_000_000
  const SleepDelayUs: nat := 5_000_000
  const SleepTimeoutUs: nat := 10_000_000
  const DecodeIntervalUs: nat := 10
  const DoneIntervalUs: nat := 1_000
  const FrameBits: nat := 40
  const DataBits: nat := 32

  /** The globals the core reads and writes (dht11.c:47-62), plus two facts
      about the platform: whether the one-shot hardware timer is armed, and
      whether light sleep has been requested and not yet ended by the wake
      callback. */
  datatype Regs = Regs(
    state: State,
    previous: State,
    intervalUs: nat,
    elapsedUs: nat,
    data: nat,
    checksum: nat,
    counter: nat,
    disconnecting: bool,
    armed: bool,
    lightSleep: bool)

  /** The static initialisers (dht11.c:47, 51-57, 62) and the first arm in user_init (dht11.c:504). */
  function Init(): (r: Regs)
    ensures r.state == Wakeup && r.previous == Wakeup && r.intervalUs == 10
  {
    Regs(Wakeup, Wakeup, 10, 0, 0, 0, 0, false, true, false)
  }

  // ---------------------------------------------------------------------
  // The invariant every reachable snapshot keeps.

  /** The states in which a data bit is being received. */
  predicate IsDecoding(s: State)
  {
    s == StartingData || s == ReceivingZero || s == ReceivingOne
  }

  /** After `counter` frame bits (at most 40), each shift register holds no
      more significant bits than it has been given. */
  ghost predicate Fits(data: nat, checksum: nat, counter: nat)
  {
    && counter <= FrameBits
    && (counter <= DataBits ==> data < Pow2(counter) && checksum == 0)
    && (counter > DataBits ==> data < Word && checksum < Pow2(counter - DataBits))
  }

  /** The registers filled from any `k` frame bits (at most 40) fit a
      counter of `k`. */
  lemma FrameFits(bits: seq<bool>)
    requires |bits| <= FrameBits
    ensures Fits(DataOf(bits), ChecksumOf(bits), |bits|)
  {
    Pow2Widths();
    if |bits| <= DataBits {
      AccumulateBound(bits);
    } else {
      AccumulateBound(bits[..DataBits]);
      AccumulateBound(bits[DataBits..]);
    }
  }

  /** What each state demands of the frame registers: the counter is below 40
      while a bit is being received and 40 exactly at RECEIVED_DATA; the
      handshake runs on cleared registers. */
  ghost predicate SessionFits(s: State, data: nat, checksum: nat, counter: nat)
  {
    match s
    case StartingData | ReceivingZero | ReceivingOne => counter < FrameBits
    case ReceivedData => counter == FrameBits
    case Starting | Started | Waiting | ReceivingResponse | Ready => counter == 0 && data == 0 && checksum == 0
    case _ => true
  }

  /** uint32 fields stay below 2^32, the shift registers fit, and the session
      agrees with the state. */
  ghost predicate Inv(r: Regs)
  {
    && r.intervalUs < Word && r.elapsedUs < Word
    && Fits(r.data, r.checksum, r.counter)
    && SessionFits(r.state, r.data, r.checksum, r.counter)
  }

  // ---------------------------------------------------------------------
  // Handlers. Each receives the snapshot after the dispatcher has advanced
  // the elapsed time, and `level` is the GPIO level sampled on this tick.

  /** reset (dht11.c:136-154); the SNTP timestamp it reads is only printed. */
  function HandleReset(r: Regs): Regs
  {
    r.(data := 0, checksum := 0, counter := 0, state := Starting, elapsedUs := 0, intervalUs := DecodeIntervalUs)
  }

  /** starting (dht11.c:156-167): hold the line for the start delay. */
  function HandleStarting(r: Regs): Regs
  {
    if r.elapsedUs > StartingDelayUs then r.(state := Started, elapsedUs := 0) else r
  }

  /** started (dht11.c:169-179): the 18 ms start pulse, then release the line. */
  function HandleStarted(r: Regs): Regs
  {
    if r.elapsedUs > StartPulseUs then r.(state := Waiting, elapsedUs := 0) else r
  }

  /** A state that waits for one edge: ERROR after `limit`, else `next` on the `awaited` level. */
  function AwaitEdge(r: Regs, level: bool, limit: nat, awaited: bool, next: State): Regs
  {
    if r.elapsedUs > limit then r.(state := Error)
    else if level == awaited then r.(state := next, elapsedUs := 0)
    else r
  }

  /** waiting (dht11.c:181-193): the sensor pulls the line low within 40 us. */
  function HandleWaiting(r: Regs, level: bool): Regs
  {
    AwaitEdge(r, level, 40, false, ReceivingResponse)
  }

  /** receiving_response (dht11.c:195-208): the response low phase, at most 80 us. */
  function HandleReceivingResponse(r: Regs, level: bool): Regs
  {
    AwaitEdge(r, level, 80, true, Ready)
  }

  /** ready (dht11.c:210-223): the response high phase, at most 80 us. */
  function HandleReady(r: Regs, level: bool): Regs
  {
    AwaitEdge(r, level, 80, false, StartingData)
  }

  /** starting_data (dht11.c:225-238): the low gap before each bit, at most 50 us. */
  function HandleStartingData(r: Regs, level: bool): Regs
  {
    AwaitEdge(r, level, 50, true, ReceivingZero)
  }

  /** The end of a bit (dht11.c:250-267, 281-298): shift it into `data` while
      fewer than 32 bits have arrived and into `checksum` after, count it, and
      wait for the next bit or finish the frame at 40. */
  function AppendBit(r: Regs, bit: bool): Regs
  {
    var shifted := if r.counter < DataBits then r.(data := ShiftIn(r.data, bit))
                   else r.(checksum := ShiftIn(r.checksum, bit));
    if r.counter + 1 < FrameBits then shifted.(counter := r.counter + 1, state := StartingData, elapsedUs := 0)
    else shifted.(counter := r.counter + 1, state := ReceivedData)
  }

  /** receiving_zero (dht11.c:240-269): a high level past 28 us makes the bit a one. */
  function HandleReceivingZero(r: Regs, level: bool): Regs
  {
    if r.elapsedUs > 28 && level then r.(state := ReceivingOne)
    else if !level then AppendBit(r, false)
    else r
  }

  /** receiving_one (dht11.c:271-300): a high level past 70 us is an error. */
  function HandleReceivingOne(r: Regs, level: bool): Regs
  {
    if r.elapsedUs > 70 && level then r.(state := Error)
    else if !level then AppendBit(r, true)
    else r
  }

  /** received_data (dht11.c:302-322): the split and the sum are only printed;
      the checksum register is never compared. */
  function HandleReceivedData(r: Regs): Regs
  {
    r.(intervalUs := ConnectionDelayUs, state := Done)
  }

  /** error (dht11.c:324-328): report `previous_state`, then finish the attempt. */
  function HandleError(r: Regs): Regs
  {
    r.(state := Done)
  }

  /** done (dht11.c:330-336). */
  function HandleDone(r: Regs): Regs
  {
    r.(intervalUs := DoneIntervalUs, state := PreSleep)
  }

  /** pre_sleep (dht11.c:338-356): start the disconnect and arm the timer itself. */
  function HandlePreSleep(r: Regs): Regs
  {
    r.(disconnecting := true, state := Sleep, elapsedUs := 0, intervalUs := SleepDelayUs, armed := true)
  }

  /** sleep (dht11.c:366-379): wait for the disconnect up to the timeout,
      then request light sleep; the state stays SLEEP either way. */
  function HandleSleep(r: Regs): Regs
  {
    if r.disconnecting && r.elapsedUs < SleepTimeoutUs then r.(armed := true)
    else r.(lightSleep := true)
  }

  /** wakeup (dht11.c:381-401). */
  function HandleWakeup(r: Regs): Regs
  {
    r.(state := PostWakeup, elapsedUs := 0, intervalUs := ConnectionDelayUs)
  }

  /** post_wakeup (dht11.c:403-412): wait until SNTP has delivered a timestamp. */
  function HandlePostWakeup(r: Regs, timestamp: nat): Regs
  {
    if timestamp == 0 then r else r.(state := Reset, elapsedUs := 0)
  }

  // ---------------------------------------------------------------------
  // The dispatcher and the callbacks.

  /** The elapsed time the handler sees on a tick: the uint32 sum of the
      elapsed time and the interval the timer was armed with. */
  function Elapsed(r: Regs): (e: nat)
    ensures e < Word
  {
    (r.elapsedUs + r.intervalUs) % Word
  }

  /** The first lines of hw_timerfunc (dht11.c:416-419): the one-shot timer
      has fired, the interval is added to the uint32 elapsed time, and the
      state is recorded unless it is ERROR. */
  function Advance(r: Regs): Regs
  {
    r.(elapsedUs := Elapsed(r),
       previous := if r.state == Error then r.previous else r.state,
       armed := false)
  }

  /** The switch of hw_timerfunc (dht11.c:421-471). */
  function Dispatch(r: Regs, level: bool, timestamp: nat): Regs
  {
    match r.state
    case Reset => HandleReset(r)
    case Starting => HandleStarting(r)
    case Started => HandleStarted(r)
    case Waiting => HandleWaiting(r, level)
    case ReceivingResponse => HandleReceivingResponse(r, level)
    case Ready => HandleReady(r, level)
    case StartingData => HandleStartingData(r, level)
    case ReceivingZero => HandleReceivingZero(r, level)
    case ReceivingOne => HandleReceivingOne(r, level)
    case ReceivedData => HandleReceivedData(r)
    case Error => HandleError(r)
    case Done => HandleDone(r)
    case PreSleep => HandlePreSleep(r)
    case Sleep => HandleSleep(r)
    case Wakeup => HandleWakeup(r)
    case PostWakeup => HandlePostWakeup(r, timestamp)
  }

  /** The last lines of hw_timerfunc (dht11.c:473-474). */
  function Rearm(r: Regs): Regs
  {
    if r.state != Sleep then r.(armed := true) else r
  }

  /** One timer tick: hw_timerfunc (dht11.c:414-475). */
  function Tick(r: Regs, level: bool, timestamp: nat): Regs
  {
    Rearm(Dispatch(Advance(r), level, timestamp))
  }

  /** wifi_wakeup_cb (dht11.c:358-364): light sleep has ended. */
  function WakeupCallback(r: Regs): Regs
  {
    r.(state := Wakeup, elapsedUs := 0, armed := true, lightSleep := false)
  }

  /** The flag clear of conn_disconnect_cb (dht11.c:84-90). */
  function DisconnectCallback(r: Regs): Regs
  {
    r.(disconnecting := false)
  }


  // ---------------------------------------------------------------------
  // Single-tick properties.

  /** The invariant holds initially and across every tick and callback. */
  lemma InitInv()
    ensures Inv(Init())
  {
  }

  lemma TickPreservesInv(r: Regs, level: bool, timestamp: nat)
    requires Inv(r)
    ensures Inv(Tick(r, level, timestamp))
  {
    DispatchPreservesInv(Advance(r), level, timestamp);
  }

  lemma DispatchPreservesInv(r: Regs, level: bool, timestamp: nat)
    requires Inv(r)
    ensures Inv(Dispatch(r, level, timestamp))
  {
    if r.state == Reset || r.state == Starting || r.state == Started || r.state == Waiting || r.state == ReceivingResponse || r.state == Ready {
      HandshakeKeepsInv(r, level, timestamp);
    } else if r.state == StartingData || r.state == ReceivingZero || r.state == ReceivingOne || r.state == ReceivedData {
      DecodeKeepsInv(r, level, timestamp);
    } else if r.state == Error || r.state == Done || r.state == PreSleep {
      RecoveryKeepsInv(r, level, timestamp);
    } else {
      PowerKeepsInv(r, level, timestamp);
    }
  }

  /** Each of the handshake handlers, run in its own state, keeps the invariant. */
  lemma HandshakeKeepsInv(r: Regs, level: bool, timestamp: nat)
    requires Inv(r)
    ensures r.state == Reset ==> Inv(HandleReset(r))
    ensures r.state == Starting ==> Inv(HandleStarting(r))
    ensures r.state == Started ==> Inv(HandleStarted(r))
    ensures r.state == Waiting ==> Inv(HandleWaiting(r, level))
    ensures r.state == ReceivingResponse ==> Inv(HandleReceivingResponse(r, level))
    ensures r.state == Ready ==> Inv(HandleReady(r, level))
  {
  }

  /** Each of the bit-decoding handlers, run in its own state, keeps the invariant. */
  lemma DecodeKeepsInv(r: Regs, level: bool, timestamp: nat)
    requires Inv(r)
    ensures r.state == StartingData ==> Inv(HandleStartingData(r, level))
    ensures r.state == ReceivingZero ==> Inv(HandleReceivingZero(r, level))
    ensures r.state == ReceivingOne ==> Inv(HandleReceivingOne(r, level))
    ensures r.state == ReceivedData ==> Inv(HandleReceivedData(r))
  {
    if IsDecoding(r.state) {
      AppendBitBounds(r, false);
      AppendBitBounds(r, true);
    }
  }

  /** Each of the recovery handlers, run in its own state, keeps the invariant. */
  lemma RecoveryKeepsInv(r: Regs, level: bool, timestamp: nat)
    requires Inv(r)
    ensures r.state == Error ==> Inv(HandleError(r))
    ensures r.state == Done ==> Inv(HandleDone(r))
    ensures r.state == PreSleep ==> Inv(HandlePreSleep(r))
  {
  }

  /** Each of the power-control handlers, run in its own state, keeps the invariant. */
  lemma PowerKeepsInv(r: Regs, level: bool, timestamp: nat)
    requires Inv(r)
    ensures r.state == Sleep ==> Inv(HandleSleep(r))
    ensures r.state == Wakeup ==> Inv(HandleWakeup(r))
    ensures r.state == PostWakeup ==> Inv(HandlePostWakeup(r, timestamp))
  {
  }

  /** Shifting one more bit keeps each register within the width it has been given. */
  lemma AppendBitBounds(r: Regs, bit: bool)
    requires Inv(r) && IsDecoding(r.state)
    ensures Inv(AppendBit(r, bit))
  {
    if r.counter < DataBits {
      DataBitFits(r.data, r.checksum, r.counter, bit);
    } else {
      ChecksumBitFits(r.data, r.checksum, r.counter, bit);
    }
  }

  lemma DataBitFits(data: nat, checksum: nat, counter: nat, bit: bool)
    requires Fits(data, checksum, counter) && counter < DataBits
    ensures Fits(ShiftIn(data, bit), checksum, counter + 1)
  {
    ShiftInWidth(data, counter, bit);
    if counter + 1 == DataBits {
      Pow2Widths();
    }
  }

  lemma ChecksumBitFits(data: nat, checksum: nat, counter: nat, bit: bool)
    requires Fits(data, checksum, counter) && DataBits <= counter < FrameBits
    ensures Fits(data, ShiftIn(checksum, bit), counter + 1)
  {
    ShiftInWidth(checksum, counter - DataBits, bit);
    if counter == DataBits {
      Pow2Widths();
    }
  }


  lemma CallbacksPreserveInv(r: Regs)
    requires Inv(r)
    ensures Inv(WakeupCallback(r)) && Inv(DisconnectCallback(r))
  {
  }

  // ---------------------------------------------------------------------
  // The dispatcher.

  /** Every tick records the state it dispatches on, except in ERROR, so that
      error() reports the state in which the timeout happened. */
  lemma TickRecordsPrevious(r: Regs, level: bool, timestamp: nat)
    ensures Tick(r, level, timestamp).previous == if r.state == Error then r.previous else r.state
  {
  }

  /** Every tick adds the interval to the elapsed time before dispatch; a
      handler can only set it back to zero, and only when it changes state. */
  lemma TickElapsed(r: Regs, level: bool, timestamp: nat)
    ensures var t := Tick(r, level, timestamp);
      t.elapsedUs == Elapsed(r) || (t.elapsedUs == 0 && t.state != r.state)
  {
  }

  /** The timer is re-armed after every tick whose resulting state is not
      SLEEP; in SLEEP it is armed only by pre_sleep or by the disconnect wait
      of sleep(), and light sleep is requested exactly when that wait ends. */
  lemma TickArming(r: Regs, level: bool, timestamp: nat)
    ensures var t := Tick(r, level, timestamp);
      && (t.state != Sleep ==> t.armed)
      && (t.state == Sleep ==> r.state == PreSleep || r.state == Sleep)
      && (t.state == Sleep ==>
            (t.armed <==> r.state == PreSleep || (r.state == Sleep && r.disconnecting && Elapsed(r) < SleepTimeoutUs)))
      && (t.lightSleep <==> r.lightSleep || (r.state == Sleep && !(r.disconnecting && Elapsed(r) < SleepTimeoutUs)))
  {
  }

  /** The wake callback ends light sleep and arms the timer for WAKEUP. */
  lemma WakeupCallbackArms(r: Regs)
    ensures var t := WakeupCallback(r);
      t.state == Wakeup && t.armed && !t.lightSleep && t.elapsedUs == 0 && t.intervalUs == r.intervalUs
  {
  }

  // ---------------------------------------------------------------------
  // The decoding path.

  /** RESET clears the whole session and starts a reading attempt at the 10 us
      decoding rate; no other handler clears the frame counter, and only the
      two bit-receiving handlers touch the frame registers. */
  lemma ResetTick(r: Regs, level: bool, timestamp: nat)
    ensures var t := Tick(r, level, timestamp);
      r.state == Reset ==>
        && t.state == Starting && t.data == 0 && t.checksum == 0 && t.counter == 0
        && t.elapsedUs == 0 && t.intervalUs == DecodeIntervalUs
  {
  }

  lemma SessionTouchedOnlyByDecoding(r: Regs, level: bool, timestamp: nat)
    ensures var t := Tick(r, level, timestamp);
      && (r.state != Reset ==> t.counter == r.counter || t.counter == r.counter + 1)
      && (r.state != Reset && r.state != ReceivingZero && r.state != ReceivingOne ==>
            t.data == r.data && t.checksum == r.checksum && t.counter == r.counter)
  {
  }

  /** The start sequence: the line is held for 2 s, then the 18 ms start pulse is sent. */
  lemma StartSequenceTick(r: Regs, level: bool, timestamp: nat)
    ensures var t := Tick(r, level, timestamp);
      && (r.state == Starting || r.state == Started ==> t.intervalUs == r.intervalUs)
      && (r.state == Starting ==>
            if Elapsed(r) > StartingDelayUs then t.state == Started && t.elapsedUs == 0 else t.state == Starting)
      && (r.state == Started ==>
            if Elapsed(r) > StartPulseUs then t.state == Waiting && t.elapsedUs == 0 else t.state == Started)
  {
  }

  /** The timeout of each state that waits for a line edge. */
  function TimeoutUs(s: State): nat
  {
    match s
    case Waiting => 40
    case ReceivingResponse => 80
    case Ready => 80
    case StartingData => 50
    case ReceivingOne => 70
    case _ => 0
  }

  /** The level each edge-waiting state waits for (true = high). */
  function AwaitedLevel(s: State): bool
  {
    s == ReceivingResponse || s == StartingData
  }

  /** Where the awaited edge leads. */
  function EdgeTarget(s: State): State
  {
    match s
    case Waiting => ReceivingResponse
    case ReceivingResponse => Ready
    case Ready => StartingData
    case _ => ReceivingZero
  }

  /** In WAITING, RECEIVING_RESPONSE, READY and STARTING_DATA a tick past the
      timeout goes to ERROR without resetting the elapsed time and with the
      timed-out state recorded; otherwise the awaited level moves to the next
      state with the elapsed time reset, and any other level waits. The frame
      registers are untouched. */
  lemma EdgeWaitTick(r: Regs, level: bool, timestamp: nat)
    requires r.state in {Waiting, ReceivingResponse, Ready, StartingData}
    ensures var t := Tick(r, level, timestamp);
      && t.data == r.data && t.checksum == r.checksum && t.counter == r.counter
      && t.intervalUs == r.intervalUs
      && (Elapsed(r) > TimeoutUs(r.state) ==>
            t.state == Error && t.elapsedUs == Elapsed(r) && t.previous == r.state)
      && (Elapsed(r) <= TimeoutUs(r.state) && level == AwaitedLevel(r.state) ==>
            t.state == EdgeTarget(r.state) && t.elapsedUs == 0)
      && (Elapsed(r) <= TimeoutUs(r.state) && level != AwaitedLevel(r.state) ==>
            t.state == r.state && t.elapsedUs == Elapsed(r))
  {
  }

  /** `t` is `r` with one more frame bit: shifted MSB-first into `data` for
      bits 0-31 and into `checksum` for bits 32-39, with no bit lost, and
      the machine waits for the next bit or, at the 40th, has the frame. */
  ghost predicate BitAppended(r: Regs, t: Regs, bit: bool)
  {
    && t.counter == r.counter + 1 && t.intervalUs == r.intervalUs
    && (r.counter < DataBits ==> t.data == 2 * r.data + BitValue(bit) && t.checksum == r.checksum)
    && (r.counter >= DataBits ==> t.checksum == 2 * r.checksum + BitValue(bit) && t.data == r.data)
    && (t.counter < FrameBits ==> t.state == StartingData && t.elapsedUs == 0)
    && (t.counter == FrameBits ==> t.state == ReceivedData && t.elapsedUs == Elapsed(r))
  }

  /** Bit classification by pulse width in RECEIVING_ZERO: a line still high
      after more than 28 us makes the bit a one (the elapsed time runs on);
      a low line ends the bit as a zero. */
  lemma ReceivingZeroTick(r: Regs, level: bool, timestamp: nat)
    requires Inv(r) && r.state == ReceivingZero
    ensures var t := Tick(r, level, timestamp);
      && (Elapsed(r) > 28 && level ==>
            && t.state == ReceivingOne && t.elapsedUs == Elapsed(r) && t.intervalUs == r.intervalUs
            && t.counter == r.counter && t.data == r.data && t.checksum == r.checksum)
      && (Elapsed(r) <= 28 && level ==>
            && t.state == ReceivingZero && t.elapsedUs == Elapsed(r) && t.intervalUs == r.intervalUs
            && t.counter == r.counter && t.data == r.data && t.checksum == r.checksum)
      && (!level ==> BitAppended(r, t, false))
  {
    if !level {
      if r.counter < DataBits {
        ShiftInWidth(r.data, r.counter, false);
      } else {
        ShiftInWidth(r.checksum, r.counter - DataBits, false);
      }
    }
  }

  /** In RECEIVING_ONE a line still high after 70 us is an error; a low line
      ends the bit as a one. */
  lemma ReceivingOneTick(r: Regs, level: bool, timestamp: nat)
    requires Inv(r) && r.state == ReceivingOne
    ensures var t := Tick(r, level, timestamp);
      && (Elapsed(r) > TimeoutUs(ReceivingOne) && level ==>
            && t.state == Error && t.elapsedUs == Elapsed(r) && t.previous == ReceivingOne
            && t.intervalUs == r.intervalUs && t.counter == r.counter && t.data == r.data && t.checksum == r.checksum)
      && (Elapsed(r) <= TimeoutUs(ReceivingOne) && level ==>
            && t.state == ReceivingOne && t.elapsedUs == Elapsed(r) && t.intervalUs == r.intervalUs
            && t.counter == r.counter && t.data == r.data && t.checksum == r.checksum)
      && (!level ==> BitAppended(r, t, true))
  {
    if !level {
      if r.counter < DataBits {
        ShiftInWidth(r.data, r.counter, true);
      } else {
        ShiftInWidth(r.checksum, r.counter - DataBits, true);
      }
    }
  }

  /** The frame counter stays within 0..40 and reaches 40 exactly at RECEIVED_DATA. */
  lemma CounterBound(r: Regs, level: bool, timestamp: nat)
    requires Inv(r)
    ensures var t := Tick(r, level, timestamp);
      t.counter <= FrameBits && (t.state == ReceivedData ==> t.counter == FrameBits)
      && (IsDecoding(t.state) ==> t.counter < FrameBits)
  {
    TickPreservesInv(r, level, timestamp);
  }

  /** received_data never compares the checksum: whatever the registers
      hold, the machine goes to DONE with the connection delay. */
  lemma ReceivedDataTick(r: Regs, level: bool, timestamp: nat)
    requires r.state == ReceivedData
    ensures var t := Tick(r, level, timestamp);
      t.state == Done && t.intervalUs == ConnectionDelayUs && t.data == r.data && t.checksum == r.checksum
  {
  }

  // ---------------------------------------------------------------------
  // Recovery and power control.

  /** ERROR goes to DONE keeping the recorded state, DONE to PRE_SLEEP at a
      1 ms interval, and PRE_SLEEP starts the disconnect, enters SLEEP and
      arms the timer with the sleep delay. */
  lemma RecoveryTick(r: Regs, level: bool, timestamp: nat)
    ensures var t := Tick(r, level, timestamp);
      && (r.state == Error ==> t.state == Done && t.previous == r.previous)
      && (r.state == Done ==> t.state == PreSleep && t.intervalUs == DoneIntervalUs)
      && (r.state == PreSleep ==>
            && t.state == Sleep && t.disconnecting && t.elapsedUs == 0
            && t.intervalUs == SleepDelayUs && t.armed)
  {
  }

  /** The sleep gate: SLEEP waits, re-armed, while the disconnect is under way
      and the elapsed time is below the 10 s ceiling; otherwise it requests
      light sleep and leaves the timer unarmed. It never leaves SLEEP itself. */
  lemma SleepTick(r: Regs, level: bool, timestamp: nat)
    requires r.state == Sleep
    ensures var t := Tick(r, level, timestamp);
      && t.state == Sleep && t.intervalUs == r.intervalUs && t.disconnecting == r.disconnecting
      && (r.disconnecting && Elapsed(r) < SleepTimeoutUs ==> t.armed && t.lightSleep == r.lightSleep)
      && (!(r.disconnecting && Elapsed(r) < SleepTimeoutUs) ==> !t.armed && t.lightSleep)
  {
  }

  /** WAKEUP moves to POST_WAKEUP at the connection delay; POST_WAKEUP stays
      while the timestamp is 0 and moves to RESET otherwise. */
  lemma WakeTick(r: Regs, level: bool, timestamp: nat)
    ensures var t := Tick(r, level, timestamp);
      && (r.state == Wakeup ==> t.state == PostWakeup && t.elapsedUs == 0 && t.intervalUs == ConnectionDelayUs)
      && (r.state == PostWakeup && timestamp == 0 ==> t.state == PostWakeup && t.elapsedUs == Elapsed(r))
      && (r.state == PostWakeup && timestamp != 0 ==> t.state == Reset && t.elapsedUs == 0)
  {
  }
}
