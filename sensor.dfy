/** The DHT11 reader as dht11.c writes it: globals updated in place by one
    handler per state, a timer callback that dispatches on `state`, and two
    SDK callbacks. Each method is proved to change the globals exactly as
    the matching function of module Machine says, so every property proved
    there and in module Traces holds of this code. */
module Sensor {
  import opened Frame
  import M = Machine

  class Dht11 {
    /** `state` and `previous_state` (dht11.c:29-47). */
    var state: M.State
    var previousState: M.State
    /** `timer_interval_us` and `hw_timer_elapsed` (dht11.c:51, 53), uint32. */
    var timerIntervalUs: nat
    var hwTimerElapsed: nat
    /** `data`, `checksum`, `data_counter` (dht11.c:55-57). */
    var data: nat
    var checksum: nat
    var dataCounter: nat
    /** `espconn_disconnecting` (dht11.c:62). */
    var espconnDisconnecting: bool
    /** Whether the one-shot hardware timer is armed (hw_timer_arm), and
        whether light sleep has been requested (wifi_fpm_do_sleep) and not
        yet ended by wifi_wakeup_cb. */
    var timerArmed: bool
    var lightSleepRequested: bool

    /** The globals as a value of the functional model. */
    function Snapshot(): M.Regs
      reads this
    {
      M.Regs(state, previousState, timerIntervalUs, hwTimerElapsed, data, checksum, dataCounter,
             espconnDisconnecting, timerArmed, lightSleepRequested)
    }

    ghost predicate Valid()
      reads this
    {
      M.Inv(Snapshot())
    }

    /** The static initialisers and user_init's first hw_timer_arm. */
    constructor ()
      ensures Snapshot() == M.Init() && Valid()
    {
      state := M.Wakeup;
      previousState := M.Wakeup;
      timerIntervalUs := 10;
      hwTimerElapsed := 0;
      data := 0;
      checksum := 0;
      dataCounter := 0;
      espconnDisconnecting := false;
      timerArmed := true;
      lightSleepRequested := false;
      new;
      M.InitInv();
    }

    method Reset()
      modifies this
      ensures Snapshot() == M.HandleReset(old(Snapshot()))
    {
      data := 0;
      checksum := 0;
      dataCounter := 0;
      state := M.Starting;
      hwTimerElapsed := 0;
      timerIntervalUs := 10;
    }

    method Starting()
      modifies this
      ensures Snapshot() == M.HandleStarting(old(Snapshot()))
    {
      if hwTimerElapsed > M.StartingDelayUs {
        state := M.Started;
        hwTimerElapsed := 0;
      }
    }

    method Started()
      modifies this
      ensures Snapshot() == M.HandleStarted(old(Snapshot()))
    {
      if hwTimerElapsed > M.StartPulseUs {
        state := M.Waiting;
        hwTimerElapsed := 0;
      }
    }

    /** The shape shared by waiting, receiving_response, ready and
        starting_data: time out to ERROR, or move on at the awaited level. */
    method AwaitEdge(level: bool, limit: nat, awaited: bool, next: M.State)
      modifies this
      ensures Snapshot() == M.AwaitEdge(old(Snapshot()), level, limit, awaited, next)
    {
      if hwTimerElapsed > limit {
        state := M.Error;
        return;
      }
      if level == awaited {
        state := next;
        hwTimerElapsed := 0;
      }
    }

    method Waiting(level: bool)
      modifies this
      ensures Snapshot() == M.HandleWaiting(old(Snapshot()), level)
    {
      AwaitEdge(level, 40, false, M.ReceivingResponse);
    }

    method ReceivingResponse(level: bool)
      modifies this
      ensures Snapshot() == M.HandleReceivingResponse(old(Snapshot()), level)
    {
      AwaitEdge(level, 80, true, M.Ready);
    }

    method Ready(level: bool)
      modifies this
      ensures Snapshot() == M.HandleReady(old(Snapshot()), level)
    {
      AwaitEdge(level, 80, false, M.StartingData);
    }

    method StartingData(level: bool)
      modifies this
      ensures Snapshot() == M.HandleStartingData(old(Snapshot()), level)
    {
      AwaitEdge(level, 50, true, M.ReceivingZero);
    }

    /** Shift one bit into `data` or `checksum` and count it. */
    method AppendBit(bit: bool)
      modifies this
      ensures Snapshot() == M.AppendBit(old(Snapshot()), bit)
    {
      if dataCounter < M.DataBits {
        data := ShiftIn(data, bit);
      } else {
        checksum := ShiftIn(checksum, bit);
      }
      dataCounter := dataCounter + 1;
      if dataCounter < M.FrameBits {
        state := M.StartingData;
        hwTimerElapsed := 0;
      } else {
        state := M.ReceivedData;
      }
    }

    method ReceivingZero(level: bool)
      modifies this
      ensures Snapshot() == M.HandleReceivingZero(old(Snapshot()), level)
    {
      if hwTimerElapsed > 28 && level {
        state := M.ReceivingOne;
        return;
      }
      if !level {
        AppendBit(false);
      }
    }

    method ReceivingOne(level: bool)
      modifies this
      ensures Snapshot() == M.HandleReceivingOne(old(Snapshot()), level)
    {
      if hwTimerElapsed > 70 && level {
        state := M.Error;
        return;
      }
      if !level {
        AppendBit(true);
      }
    }

    method ReceivedData()
      modifies this
      ensures Snapshot() == M.HandleReceivedData(old(Snapshot()))
    {
      timerIntervalUs := M.ConnectionDelayUs;
      state := M.Done;
    }

    method Error()
      modifies this
      ensures Snapshot() == M.HandleError(old(Snapshot()))
    {
      state := M.Done;
    }

    method Done()
      modifies this
      ensures Snapshot() == M.HandleDone(old(Snapshot()))
    {
      timerIntervalUs := M.DoneIntervalUs;
      state := M.PreSleep;
    }

    method PreSleep()
      modifies this
      ensures Snapshot() == M.HandlePreSleep(old(Snapshot()))
    {
      espconnDisconnecting := true;
      state := M.Sleep;
      hwTimerElapsed := 0;
      timerIntervalUs := M.SleepDelayUs;
      timerArmed := true;
    }

    method Sleep()
      modifies this
      ensures Snapshot() == M.HandleSleep(old(Snapshot()))
    {
      if espconnDisconnecting && hwTimerElapsed < M.SleepTimeoutUs {
        timerArmed := true;
        return;
      }
      lightSleepRequested := true;
    }

    method Wakeup()
      modifies this
      ensures Snapshot() == M.HandleWakeup(old(Snapshot()))
    {
      state := M.PostWakeup;
      hwTimerElapsed := 0;
      timerIntervalUs := M.ConnectionDelayUs;
    }

    /** `timestamp` is what sntp_get_current_timestamp returns. */
    method PostWakeup(timestamp: nat)
      modifies this
      ensures Snapshot() == M.HandlePostWakeup(old(Snapshot()), timestamp)
    {
      if timestamp == 0 {
        return;
      }
      state := M.Reset;
      hwTimerElapsed := 0;
    }

    /** The switch of hw_timerfunc. */
    method Dispatch(level: bool, timestamp: nat)
      modifies this
      ensures Snapshot() == M.Dispatch(old(Snapshot()), level, timestamp)
    {
      match state
      case Reset => Reset();
      case Starting => Starting();
      case Started => Started();
      case Waiting => Waiting(level);
      case ReceivingResponse => ReceivingResponse(level);
      case Ready => Ready(level);
      case StartingData => StartingData(level);
      case ReceivingZero => ReceivingZero(level);
      case ReceivingOne => ReceivingOne(level);
      case ReceivedData => ReceivedData();
      case Error => Error();
      case Done => Done();
      case PreSleep => PreSleep();
      case Sleep => Sleep();
      case Wakeup => Wakeup();
      case PostWakeup => PostWakeup(timestamp);
    }

    /** The first lines of hw_timerfunc: add the interval (uint32) and record
        the state, except in ERROR. The timer has fired, so it is no longer armed. */
    method Advance()
      modifies this
      ensures Snapshot() == M.Advance(old(Snapshot()))
    {
      hwTimerElapsed := (hwTimerElapsed + timerIntervalUs) % Word;
      if state != M.Error {
        previousState := state;
      }
      timerArmed := false;
    }

    /** The last lines of hw_timerfunc: re-arm unless in SLEEP. */
    method Rearm()
      modifies this
      ensures Snapshot() == M.Rearm(old(Snapshot()))
    {
      if state != M.Sleep {
        timerArmed := true;
      }
    }

    /** hw_timerfunc: one tick of the one-shot timer. `level` is the pin
        level the handler reads and `timestamp` the SNTP time; the invariant
        of module Machine is kept. */
    method HwTimerFunc(level: bool, timestamp: nat)
      modifies this
      ensures Snapshot() == M.Tick(old(Snapshot()), level, timestamp)
      ensures old(Valid()) ==> Valid()
    {
      Advance();
      Dispatch(level, timestamp);
      Rearm();
      if old(Valid()) {
        M.TickPreservesInv(old(Snapshot()), level, timestamp);
      }
    }

    /** wifi_wakeup_cb: light sleep has ended. */
    method WifiWakeupCb()
      modifies this
      ensures Snapshot() == M.WakeupCallback(old(Snapshot()))
      ensures old(Valid()) ==> Valid()
    {
      state := M.Wakeup;
      hwTimerElapsed := 0;
      timerArmed := true;
      lightSleepRequested := false;
      if old(Valid()) {
        M.CallbacksPreserveInv(old(Snapshot()));
      }
    }

    /** The flag clear of conn_disconnect_cb. */
    method ConnDisconnectCb()
      modifies this
      ensures Snapshot() == M.DisconnectCallback(old(Snapshot()))
      ensures old(Valid()) ==> Valid()
    {
      espconnDisconnecting := false;
      if old(Valid()) {
        M.CallbacksPreserveInv(old(Snapshot()));
      }
    }
  }
}
