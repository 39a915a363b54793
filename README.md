# DHT11 reader for the ESP8266: a verified model of its timer state machine

`dht11.c` reads a DHT11 humidity and temperature sensor from a single GPIO
line. A one-shot hardware timer fires `hw_timerfunc` every
`timer_interval_us` microseconds. The callback adds the interval to
`hw_timer_elapsed`, records the current state in `previous_state` (except in
ERROR), runs the handler of the current `state`, and re-arms the timer unless
the state is SLEEP. The handlers do the following, in order:

- send the host start sequence: RESET, STARTING (2 s), STARTED (18 ms pulse);
- follow the sensor's response: WAITING, RECEIVING_RESPONSE, READY;
- classify each of 40 bits by the width of its high pulse (STARTING_DATA,
  RECEIVING_ZERO, RECEIVING_ONE), shifting them MSB-first into `data` (bits
  0-31) and `checksum` (bits 32-39);
- split `data` into four bytes in RECEIVED_DATA;
- go down through DONE, PRE_SLEEP and SLEEP to light sleep;
- come back through WAKEUP and POST_WAKEUP to RESET once SNTP has a time.

Any timeout goes to ERROR, which reports the state that timed out.

The project has four modules.

- `Frame` (frame.dfy): the 32-bit shift register `(reg << 1) | bit`, the
  MSB-first bit order of a frame, and the byte split of received_data. It
  proves that shifting in a packet's 40 bits fills the registers with
  exactly that packet, and that the split and its inverse round-trip.
- `Machine` (machine.dfy): the globals as a value `Regs`, one function per
  handler, the dispatcher `Tick` and the two callbacks. It also holds the
  invariant every tick keeps (uint32 fields in range, no bit lost from the
  registers, counter at most 40, exactly 40 in RECEIVED_DATA) and one lemma
  per state family stating what a tick does there.
- `Traces` (traces.dfy): `Run`, a sequence of ticks over a sequence of
  sampled line levels, one sample per 10 us tick. A phase of the sensor's
  waveform is given as a number of samples. It proves that a whole read from
  RESET decodes every packet the sensor can send, at every response and bit
  timing the handlers' thresholds accept. It also proves that a phase past
  its timeout ends in ERROR, how timeouts are reported, the sleep ceiling,
  and the wake-up sequence.
- `Sensor` (sensor.dfy): the code's own form. Class `Dht11` has the globals
  as fields and one method per C function. Every method is proved to change
  the fields exactly as the matching `Machine` function says, so the
  properties above hold of it. `HwTimerFunc` also keeps the invariant.

The pin level read by a handler and the SNTP timestamp are parameters of
each tick. Whether the one-shot timer is armed and whether light sleep has
been requested are modelled as two more fields, because SDK calls change
them (`hw_timer_arm`, `wifi_fpm_do_sleep`).

## Model

The functions of module Machine that model the C functions themselves (`Tick`, the `Handle*` functions, `AwaitEdge`, `AppendBit`, `WakeupCallback`, `DisconnectCallback`) have no rows of their own: each Sensor method row below stands for the Machine function its contract names, and the Machine lemma rows state their properties.

| member | source | states |
|---|---|---|
| Frame.ShiftIn | dht11.c:281-288 | the shifted register is a 32-bit value, and a register below 2^31 becomes twice itself plus the bit |
| Frame.ShiftInBits | dht11.c:281-288 | after the shift the new bit is bit 0 and the old contents, without their top bit, sit one place up |
| Frame.ShiftInWidth | dht11.c:250-257 | a register holding fewer than 32 significant bits loses nothing and gains exactly one significant bit |
| Frame.AccumulateBitsOf | dht11.c:279-288 | shifting the n-bit MSB-first encoding of v into a cleared register gives v back (n up to 32) |
| Frame.AccumulateBound | dht11.c:250-257 | a register that took k bits from a cleared start holds a value below 2^k |
| Frame.Split | dht11.c:307-310 | the four fields of the split are bytes |
| Frame.SplitPack | dht11.c:307-310 | the split recovers every reading made of bytes from its packed word |
| Frame.PackSplit | dht11.c:307-310 | packing the four split bytes gives back every 32-bit data word |
| Frame.RegistersOfPacket | dht11.c:279-298 | the registers filled from a packet's 40 bits hold the packet's data word and checksum byte, and the split returns its reading |
| Frame.RhIntegralAsWritten | dht11.c:307 | `data >> 24` on the signed register equals the top byte when bit 31 is clear and the top byte minus 256 (negative) when it is set |
| Frame.RhIntegralAsWrittenNegative | dht11.c:307 | a humidity byte of 128 comes out as -128, while the split gives 128 |
| Frame.SplitExample | dht11.c:307-312 | 0x32001D03 splits into 50, 0, 29 and 3, whose sum is 82 |
| Machine.Init | dht11.c:47-57 | the system starts in WAKEUP, previous state WAKEUP, at a 10 us interval |
| Machine.Elapsed | dht11.c:416 | the elapsed time after adding the interval stays a uint32 |
| Machine.FrameFits | dht11.c:250-257 | the registers filled from any k frame bits (k up to 40) meet the bound the invariant demands at counter k |
| Machine.InitInv | dht11.c:47-62 | the initial globals satisfy the invariant |
| Machine.TickPreservesInv | dht11.c:414-475 | every tick keeps the invariant: uint32 fields in range, no register bit lost, counter within 0-40, 40 exactly in RECEIVED_DATA, cleared registers during the handshake |
| Machine.AppendBitBounds | dht11.c:250-267 | appending a bit while decoding keeps the invariant |
| Machine.CallbacksPreserveInv | dht11.c:358-364 | the wake and disconnect callbacks keep the invariant |
| Machine.TickRecordsPrevious | dht11.c:416-419 | every tick records the state it dispatches on as previous, except in ERROR, where the earlier one is kept |
| Machine.TickElapsed | dht11.c:416-471 | a tick leaves the elapsed time at old elapsed plus interval, or sets it to 0 and changes the state |
| Machine.TickArming | dht11.c:473-474 | the timer is armed after every tick ending outside SLEEP; in SLEEP it is armed exactly after pre_sleep or while the disconnect wait runs below 10 s; light sleep is requested exactly when that wait ends |
| Machine.WakeupCallbackArms | dht11.c:358-364 | the wake callback enters WAKEUP with elapsed 0, re-arms the timer and ends light sleep |
| Machine.ResetTick | dht11.c:136-154 | a RESET tick clears data, checksum and counter and enters STARTING with elapsed 0 at 10 us |
| Machine.SessionTouchedOnlyByDecoding | dht11.c:240-300 | outside RESET the counter rises by at most one per tick, and only RECEIVING_ZERO and RECEIVING_ONE change the registers |
| Machine.StartSequenceTick | dht11.c:156-179 | STARTING moves to STARTED after more than 2 s, and STARTED to WAITING after more than 18 ms, each with elapsed 0; the interval is unchanged |
| Machine.EdgeWaitTick | dht11.c:181-238 | in WAITING (40 us, low), RECEIVING_RESPONSE (80 us, high), READY (80 us, low) and STARTING_DATA (50 us, high), past the limit a tick goes to ERROR, keeps the elapsed time and records the state; within it the awaited level moves on with elapsed 0 and any other level waits |
| Machine.ReceivingZeroTick | dht11.c:240-269 | a high line after more than 28 us makes the bit a one and keeps the elapsed time; a low line appends a zero without loss; at 40 bits the machine is in RECEIVED_DATA |
| Machine.ReceivingOneTick | dht11.c:271-300 | a high line after more than 70 us is an error recording RECEIVING_ONE; a low line appends a one without loss |
| Machine.CounterBound | dht11.c:259-267 | after any tick the counter is at most 40, below 40 while decoding, and exactly 40 in RECEIVED_DATA |
| Machine.ReceivedDataTick | dht11.c:302-322 | RECEIVED_DATA always goes to DONE at the 5 s connection delay, whatever the checksum, and leaves the registers as they are |
| Machine.RecoveryTick | dht11.c:324-356 | ERROR goes to DONE keeping the recorded state; DONE goes to PRE_SLEEP at 1 ms; PRE_SLEEP sets the disconnect flag, enters SLEEP with elapsed 0 at 5 s and arms the timer |
| Machine.SleepTick | dht11.c:366-379 | SLEEP never leaves by itself; it re-arms while disconnecting below 10 s, and otherwise requests light sleep with the timer unarmed |
| Machine.WakeTick | dht11.c:381-412 | WAKEUP goes to POST_WAKEUP at 5 s; POST_WAKEUP waits while the timestamp is 0 and goes to RESET with elapsed 0 otherwise |
| Traces.RunPreservesInv | dht11.c:414-475 | any number of ticks keeps the invariant |
| Traces.HoldTicks | dht11.c:156-179 | below its delay, STARTING or STARTED only adds 10 us per tick |
| Traces.StayTick | dht11.c:181-300 | in a waiting state, within its limit (the timeout, or 28 us in RECEIVING_ZERO), a tick away from the awaited level only adds 10 us and keeps the registers |
| Traces.WaitOut | dht11.c:181-300 | any number of such ticks within the limit keep the state and the registers and add 10 us each |
| Traces.EdgeAfter | dht11.c:181-238 | a phase whose edge comes within the timeout reaches the next state with elapsed 0 and the registers unchanged |
| Traces.PhaseTooLong | dht11.c:181-238 | a phase that reaches its timeout without the edge goes to ERROR on the next tick, at either level, recording the timed-out state |
| Traces.HighPulse | dht11.c:240-277 | a high pulse of up to two samples after the rising edge keeps the machine in RECEIVING_ZERO, one of three to seven samples reaches RECEIVING_ONE without error, registers unchanged |
| Traces.Nominal | dht11.c:225-300 | the datasheet timing of each bit (50 us gap, 26-28 us or 70 us high) is accepted as that bit and not as the other |
| Traces.StartSequence | dht11.c:136-179 | from RESET, 202003 ticks of start sequence reach WAITING with cleared registers, elapsed 0, at 10 us |
| Traces.Response | dht11.c:181-223 | every response timing within the 40, 80 and 80 us timeouts reaches the start of the first bit with the registers unchanged |
| Traces.DecodeBit | dht11.c:225-300 | the samples of one bit, at any timing accepted as that bit, shift that bit into the right register, count it, and return to the start of the next bit (RECEIVED_DATA after the 40th) |
| Traces.DecodeBits | dht11.c:225-300 | the samples of any bits (up to 40), each at an accepted timing, leave the MSB-first value of the first 32 in `data` and of the rest in `checksum`, with the counter equal to their number |
| Traces.DecodeRoundTrip | dht11.c:225-310 | the 40 bits of any packet of bytes, at accepted timings, decode to its data word and checksum byte, and the split returns its reading |
| Traces.ReadCycle | dht11.c:136-322 | a whole read from RESET of any packet, with any accepted response and bit timings, ends in RECEIVED_DATA holding the packet, and the next tick reaches DONE |
| Traces.MismatchStillDone | dht11.c:302-322 | the frame 0x32001D03 with checksum 0x54, whose bytes sum to 82, is decoded and finished like any other |
| Traces.TimeoutReported | dht11.c:181-328 | a timeout in any of the five states that have one (RECEIVING_ONE only with the line high) is followed by DONE with the timed-out state still recorded |
| Traces.SleepCeiling | dht11.c:338-379 | from DONE, without a disconnect, the machine requests light sleep on the fourth tick (10 s into SLEEP) and stops re-arming |
| Traces.DisconnectEndsSleep | dht11.c:366-379 | after the disconnect callback the next SLEEP tick requests light sleep |
| Traces.WakeCycle | dht11.c:358-412 | after the wake callback, with a clock set, three ticks reach POST_WAKEUP, then RESET, then STARTING with the counter cleared, re-armed each time |
| Traces.NoClockNoRead | dht11.c:403-412 | without a timestamp POST_WAKEUP waits indefinitely, re-armed |
| Sensor.Dht11.constructor | dht11.c:47-62 | the globals start as the static initialisers, with the timer armed once, and satisfy the invariant |
| Sensor.Dht11.Reset | dht11.c:136-154 | reset clears registers and counter and enters STARTING at 10 us |
| Sensor.Dht11.Starting | dht11.c:156-167 | starting moves to STARTED only once the 2 s delay has passed |
| Sensor.Dht11.Started | dht11.c:169-179 | started moves to WAITING only once the 18 ms pulse has passed |
| Sensor.Dht11.AwaitEdge | dht11.c:181-193 | the timeout-or-edge shape of the four waiting handlers |
| Sensor.Dht11.Waiting | dht11.c:181-193 | waiting: ERROR after 40 us, RECEIVING_RESPONSE on low |
| Sensor.Dht11.ReceivingResponse | dht11.c:195-208 | receiving_response: ERROR after 80 us, READY on high |
| Sensor.Dht11.Ready | dht11.c:210-223 | ready: ERROR after 80 us, STARTING_DATA on low |
| Sensor.Dht11.StartingData | dht11.c:225-238 | starting_data: ERROR after 50 us, RECEIVING_ZERO on high |
| Sensor.Dht11.AppendBit | dht11.c:250-267 | shift the bit into data or checksum, count it, and go on or finish at 40 |
| Sensor.Dht11.ReceivingZero | dht11.c:240-269 | receiving_zero, as Machine.ReceivingZeroTick states |
| Sensor.Dht11.ReceivingOne | dht11.c:271-300 | receiving_one, as Machine.ReceivingOneTick states |
| Sensor.Dht11.ReceivedData | dht11.c:302-322 | received_data sets the connection delay and enters DONE |
| Sensor.Dht11.Error | dht11.c:324-328 | error enters DONE |
| Sensor.Dht11.Done | dht11.c:330-336 | done sets the 1 ms interval and enters PRE_SLEEP |
| Sensor.Dht11.PreSleep | dht11.c:338-356 | pre_sleep starts the disconnect, enters SLEEP and arms the timer at 5 s |
| Sensor.Dht11.Sleep | dht11.c:366-379 | sleep re-arms while disconnecting below 10 s, otherwise requests light sleep |
| Sensor.Dht11.Wakeup | dht11.c:381-401 | wakeup enters POST_WAKEUP at the connection delay |
| Sensor.Dht11.PostWakeup | dht11.c:403-412 | post_wakeup enters RESET once the timestamp is non-zero |
| Sensor.Dht11.Dispatch | dht11.c:421-471 | the switch runs exactly the handler of the current state |
| Sensor.Dht11.Advance | dht11.c:416-419 | the interval is added modulo 2^32 and the state recorded, except in ERROR |
| Sensor.Dht11.Rearm | dht11.c:473-474 | the timer is re-armed unless the state is SLEEP |
| Sensor.Dht11.HwTimerFunc | dht11.c:414-475 | one timer tick is Machine.Tick of the globals and keeps the invariant |
| Sensor.Dht11.WifiWakeupCb | dht11.c:358-364 | the wake callback enters WAKEUP with elapsed 0 and re-arms, keeping the invariant |
| Sensor.Dht11.ConnDisconnectCb | dht11.c:84-86 | the disconnect callback clears the disconnect flag, keeping the invariant |

## Left out

- The network callbacks and connection set-up (dht11.c:64-134) are not modelled, except the flag clear in conn_disconnect_cb. They only send the report and never touch the state machine's globals.
- start_wifi_station and user_init (dht11.c:477-505) are not modelled beyond the first `hw_timer_arm`, which the constructor's armed timer stands for.
- SDK calls are not modelled beyond their effect on the globals: espconn_*, wifi_station_*, wifi_set_opmode, wifi_fpm_*, sntp_* except the timestamp, GPIO output writes and GPIO_DIS_OUTPUT. The timestamp is a parameter of each tick.
- os_printf output, including the printed reading, the checksum sum `x` and the calibration offsets T_CALIB and RH_CALIB, is not modelled: these values are only printed.
- `reset_timer_elapsed` is not modelled: it is never used. `PAUSE_TIME_US` is not modelled: it is only passed to wifi_fpm_do_sleep and printed (dht11.c:349).
- receiving_zero and receiving_one read the pin a second time when elapsed is past 28 (70) us and the first read is low (dht11.c:242-248, 273-279). The model samples one level per tick and assumes both reads agree. If the line rises between the two reads, the source does nothing on that tick; this is not modelled.
- Interrupt concurrency is not modelled. The wake and disconnect callbacks are atomic steps between ticks.
- received_data never compares the checksum with the byte sum and sets no mismatch flag. ReceivedDataTick and MismatchStillDone prove that the outcome does not depend on the checksum.
- post_wakeup polls SNTP with no attempt limit and never goes on without a time (NoClockNoRead).
- `data` and `checksum` are C `int`s, modelled as their 32-bit patterns. Shifting into the sign bit, and `0xFF << 24` in the masks, overflow a signed int; the model takes the wrapped bit pattern, which is what the code evidently intends.
- Traces.Run gives every tick of a run the same timestamp. It does not check that the timer is armed before a tick; the trace lemmas state the armed flag where it matters.
- Traces.DecodeBit and Traces.Response see the line only at the 10 us ticks, each phase as a whole number of samples. Jitter in the tick rate, and a level that changes between the two pin reads of one handler, are not modelled.

## Findings

| source | as written | input that shows it | evidently intended | confidence | as-written member | corrected member |
|---|---|---|---|---|---|---|
| dht11.c:307 | `rh_integral = data >> 24` shifts a signed `int`, so with bit 31 set the result is the top byte minus 256 | `data` = 0x80000000, a humidity byte of 128, gives rh_integral = -128 | the top byte as an unsigned value, 0-255, like the other three fields | low; a DHT11 reports humidity 20-90 %, so the top byte stays below 128 in practice; not executed | Frame.RhIntegralAsWrittenNegative | Frame.SplitPack |
