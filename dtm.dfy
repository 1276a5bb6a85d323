/**
 * Class DTM of src/DTM.js as an object whose fields are the source's fields. Each event
 * method performs exactly one transition of the Controller model, so the invariants and
 * properties proved there hold of the object.
 *
 * Besides the source's own fields the object keeps what its suspended test procedure
 * holds in local variables: `phase` (where the procedure waits, with its arguments and
 * current channel offset) and `packetsReceivedForChannel` (the receiver sweep's array).
 * `sent` is the log of commands handed to the transport, `pendingEnds` the End commands
 * whose response is outstanding, and `result` what the last procedure returned.
 */
module DtmObject {
  import opened Basics
  import opened Bits
  import opened Codec
  import opened Controller

  class Dtm {
    var lengthPayload: int
    var modulationPayload: int
    var phyPayload: int
    var dbmPayload: int
    var selectedTimer: int

    var isTransmitting: bool
    var isReceiving: bool
    var timedOut: bool
    var sweepTimedOut: bool

    /** The armed whole-test and per-step timers, as the kind whose flag their callback reads. */
    var timeoutEvent: Option<Kind>
    var sweepTimeoutEvent: Option<Kind>

    /** The promise whose resolver is installed as onEndEvent, and what each promise resolved with. */
    var onEndEvent: Option<nat>
    var endResults: map<nat, EndStatus>
    var nextPromise: nat

    var phase: Phase
    var packetsReceivedForChannel: array<nat>
    var result: Option<Outcome>
    var sent: seq<seq<Byte>>
    var pendingEnds: nat

    /** End commands sent since the current step began. */
    ghost var stepEnds: nat

    ghost function Snapshot(): State
      reads this, packetsReceivedForChannel
    {
      State(Defaults(lengthPayload, modulationPayload, phyPayload, dbmPayload, selectedTimer),
            Guards(isTransmitting, isReceiving, timedOut, sweepTimedOut, timeoutEvent, sweepTimeoutEvent, stepEnds),
            Promises(onEndEvent, endResults, nextPromise),
            phase, packetsReceivedForChannel[..], result, sent, pendingEnds)
    }

    ghost predicate Valid()
      reads this, packetsReceivedForChannel
    {
      Inv(Snapshot())
    }

    /** The constructor's defaults. */
    constructor ()
      ensures Snapshot() == Initial() && Valid()
    {
      lengthPayload := 1;
      modulationPayload := StandardModulationIndex;
      phyPayload := PhyLe1M;
      dbmPayload := 0;
      selectedTimer := 0;
      isTransmitting := false;
      isReceiving := false;
      timedOut := false;
      sweepTimedOut := false;
      timeoutEvent := None;
      sweepTimeoutEvent := None;
      onEndEvent := None;
      endResults := map[];
      nextPromise := 0;
      phase := Idle;
      packetsReceivedForChannel := new nat[40](_ => 0);
      result := None;
      sent := [];
      pendingEnds := 0;
      stepEnds := 0;
      new;
      assert packetsReceivedForChannel[..] == seq(40, _ => 0);
      InitialInv();
    }

    // -------------------------------------------------------------------------
    // Helpers. Each one changes the fields it names and states the object's new
    // snapshot, so the procedures below are composed at the level of the model.
    // -------------------------------------------------------------------------

    /** dtmTransport.sendCMD up to its await: the command is handed to the transport. */
    method SendCmd(cmd: seq<Byte>)
      modifies this`sent
      ensures var s := old(Snapshot()); Snapshot() == s.(sent := s.sent + [cmd])
    {
      sent := sent + [cmd];
    }

    /** endCurrentTest up to its await: the End command is sent. */
    method EndCurrentTest()
      modifies this`sent, this`pendingEnds, this`stepEnds
      ensures Snapshot() == WithEnd(old(Snapshot()))
    {
      var cmd := CreateEndCmd();
      SendCmd(cmd);
      CountEnd(1);
    }

    /** Counts an End command sent (d == 1) or answered (d == -1). */
    method CountEnd(d: int)
      requires pendingEnds + d >= 0
      modifies this`pendingEnds, this`stepEnds
      ensures var s := old(Snapshot());
        Snapshot() == s.(pendingEnds := s.pendingEnds + d, guards := s.guards.(stepEnds := if d > 0 then s.guards.stepEnds + d else s.guards.stepEnds))
    {
      pendingEnds := pendingEnds + d;
      if d > 0 {
        stepEnds := stepEnds + d;
      }
    }

    /**
     * The start command of step idx: carrierTestCMD for a transmitter, createReceiverCMD
     * for a receiver, on the step's channel.
     */
    method StartCommand(t: Test, idx: int) returns (cmd: seq<Byte>)
      requires InRange(t, idx)
      ensures cmd == StepCommand(t, idx)
    {
      var frequency := ChannelToFrequency(t.low + idx);
      if t.kind == Transmitter {
        cmd := CarrierTestCmd(frequency, t.length, t.bitpattern);
      } else {
        cmd := CreateReceiverCmd(frequency, 0, PktDefault);
      }
      StepCommandBuilt(t, idx);
    }

    /**
     * `this.timeoutEvent = this.startTimeoutEvent(flag, timeout)`: clears timedOut and
     * arms the timer only for a positive timeout.
     */
    method StartTimeoutEvent(kind: Kind, timeout: int)
      modifies this`timedOut, this`timeoutEvent
      ensures var s := old(Snapshot());
        Snapshot() == s.(guards := s.guards.(timedOut := false, mainTimer := if timeout > 0 then Some(kind) else None))
    {
      timedOut, timeoutEvent := false, if timeout > 0 then Some(kind) else None;
    }

    /** startSweepTimeoutEvent and the assignment of the timer it returns. */
    method StartSweepTimeoutEvent(kind: Kind, sweepTime: int)
      modifies this`sweepTimedOut, this`sweepTimeoutEvent
      ensures var s := old(Snapshot());
        Snapshot() == s.(guards := s.guards.(sweepTimedOut := false, stepTimer := if sweepTime > 0 then Some(kind) else None))
    {
      sweepTimedOut, sweepTimeoutEvent := false, if sweepTime > 0 then Some(kind) else None;
    }

    /** endTimeoutEvent(sweepTimeoutEvent). */
    method EndSweepTimeoutEvent()
      modifies this`sweepTimeoutEvent
      ensures var s := old(Snapshot()); Snapshot() == s.(guards := s.guards.(stepTimer := None))
    {
      sweepTimeoutEvent := None;
    }

    /** endEventDataReceived: a fresh promise whose resolver becomes onEndEvent. */
    method EndEventDataReceived() returns (p: nat)
      modifies this`onEndEvent, this`nextPromise
      ensures var s := old(Snapshot()); p == s.promises.nextPromise && Snapshot() == s.(promises := Installed(s.promises))
    {
      p := nextPromise;
      onEndEvent, nextPromise := Some(p), nextPromise + 1;
    }

    /** The resolver installed as onEndEvent: it uninstalls itself and resolves its promise. */
    method ResolveEndEvent(status: EndStatus) returns (p: nat)
      requires onEndEvent.Some?
      modifies this`onEndEvent, this`endResults
      ensures var s := old(Snapshot()); p == s.promises.onEndEvent.value
      ensures var s := old(Snapshot());
        Snapshot() == s.(promises := s.promises.(onEndEvent := None, endResults := s.promises.endResults[p := status]))
    {
      p := onEndEvent.value;
      onEndEvent, endResults := None, endResults[p := status];
    }

    /** Sets the flag a timer callback of this kind reads. */
    method SetKindFlag(kind: Kind, b: bool)
      modifies this`isTransmitting, this`isReceiving
      ensures var s := old(Snapshot()); Snapshot() == s.(guards := SetFlag(s.guards, kind, b))
    {
      if kind == Transmitter {
        isTransmitting := b;
      } else {
        isReceiving := b;
      }
    }

    method SetTimedOut(b: bool)
      modifies this`timedOut
      ensures var s := old(Snapshot()); Snapshot() == s.(guards := s.guards.(timedOut := b))
    {
      timedOut := b;
    }

    method SetSweepTimedOut(b: bool)
      modifies this`sweepTimedOut
      ensures var s := old(Snapshot()); Snapshot() == s.(guards := s.guards.(sweepTimedOut := b))
    {
      sweepTimedOut := b;
    }

    /** A new step, or a new procedure, has sent no End command yet. */
    method ClearStepEnds()
      modifies this`stepEnds
      ensures var s := old(Snapshot()); Snapshot() == s.(guards := s.guards.(stepEnds := 0))
    {
      stepEnds := 0;
    }

    /** The procedure suspends at an await. */
    method Suspend(ph: Phase)
      modifies this`phase
      ensures var s := old(Snapshot()); Snapshot() == s.(phase := ph)
    {
      phase := ph;
    }

    /** endTimeoutEvent(this.timeoutEvent). */
    method ClearTimeoutEvent()
      modifies this`timeoutEvent
      ensures var s := old(Snapshot()); Snapshot() == s.(guards := s.guards.(mainTimer := None))
    {
      timeoutEvent := None;
    }

    /** The procedure clears its whole-test timeout and returns o. */
    method Return(o: Outcome)
      modifies this`timeoutEvent, this`phase, this`result
      ensures Snapshot() == Returned(old(Snapshot()), o)
    {
      ClearTimeoutEvent();
      Suspend(Idle);
      result := Some(o);
    }

    /** `packetsReceivedForChannel[slot] += received`. */
    method AddReceived(slot: int, received: nat)
      requires 0 <= slot < packetsReceivedForChannel.Length
      modifies packetsReceivedForChannel
      ensures var s := old(Snapshot());
        Snapshot() == s.(counts := s.counts[slot := s.counts[slot] + received])
    {
      packetsReceivedForChannel[slot] := packetsReceivedForChannel[slot] + received;
    }

    /** The head of one sweep iteration, up to the await of the start command's response. */
    method BeginStep(t: Test, idx: int)
      requires InRange(t, idx) && !timedOut
      modifies this
      ensures Snapshot() == StepBegun(old(Snapshot()), t, idx)
      ensures packetsReceivedForChannel == old(packetsReceivedForChannel)
    {
      SetSweepTimedOut(false);
      SetKindFlag(t.kind, false);
      var cmd := StartCommand(t, idx);
      var p := EndEventDataReceived();
      SendCmd(cmd);
      ClearStepEnds();
      Suspend(AwaitStart(t, idx, Some(p)));
    }

    /** The code after the end-of-step promise resolved with status. */
    method EndOfStep(t: Test, idx: int, status: EndStatus, draw: real)
      requires InRange(t, idx) && packetsReceivedForChannel.Length == 40 && 0.0 <= draw < 1.0
      modifies this, packetsReceivedForChannel
      ensures Snapshot() == StepEnded(old(Snapshot()), t, idx, status, draw)
      ensures packetsReceivedForChannel == old(packetsReceivedForChannel)
    {
      if !t.sweep {
        Return(Status(status));
        return;
      }
      EndSweepTimeoutEvent();
      if !status.success {
        if t.kind == Transmitter {
          SetKindFlag(Transmitter, false);
        }
        Return(Failure(EndFailure(t.kind)));
        return;
      }
      if t.kind == Receiver {
        AddReceived(t.low + idx, status.received);
      }
      ContinueSweep(t, idx, draw);
    }

    /** The bottom of a successful sweep iteration: advance and loop, or return. */
    method ContinueSweep(t: Test, idx: int, draw: real)
      requires InRange(t, idx) && packetsReceivedForChannel.Length == 40 && 0.0 <= draw < 1.0
      modifies this
      ensures Snapshot() == SweepStepEnded(old(Snapshot()), t, idx, draw)
      ensures packetsReceivedForChannel == old(packetsReceivedForChannel)
    {
      var next := NextIndex(t, idx, draw);
      var active := if t.kind == Transmitter then isTransmitting else isReceiving;
      if active && !timedOut {
        BeginStep(t, next);
      } else if t.kind == Receiver {
        var counts := packetsReceivedForChannel[..];
        Return(SweepResult(Sum(counts), Some(counts)));
      } else {
        Return(SweepResult(0, None));
      }
    }

    /** `await` on the end-of-step promise p: continue at once if it has already resolved. */
    method AwaitEndEvent(t: Test, idx: int, p: nat, draw: real)
      requires InRange(t, idx) && packetsReceivedForChannel.Length == 40 && 0.0 <= draw < 1.0
      modifies this, packetsReceivedForChannel
      ensures Snapshot() == EndAwaited(old(Snapshot()), t, idx, p, draw)
      ensures packetsReceivedForChannel == old(packetsReceivedForChannel)
    {
      if p in endResults {
        EndOfStep(t, idx, endResults[p], draw);
      } else {
        Suspend(AwaitEnd(t, idx, p));
      }
    }

    /** The whole-test part the four procedures share before their first command. */
    method BeginTest(t: Test, timeout: int)
      modifies this
      ensures var s := old(Snapshot());
        Snapshot() == s.(result := None, guards := s.guards.(timedOut := false, stepEnds := 0,
                                                             mainTimer := if timeout > 0 then Some(t.kind) else None))
      ensures packetsReceivedForChannel == old(packetsReceivedForChannel)
    {
      result := None;
      ClearStepEnds();
      StartTimeoutEvent(t.kind, timeout);
    }

    // -------------------------------------------------------------------------
    // The test procedures, up to their first await
    // -------------------------------------------------------------------------

    /** singleChannelTransmitterTest. */
    method SingleChannelTransmitterTest(bitpattern: nat, length: int, channel: int, timeout: int)
      requires Valid() && phase == Idle && IsChannel(channel) && bitpattern < 4
      modifies this
      ensures Snapshot() == TestStarted(old(Snapshot()), Test(Transmitter, false, channel, channel, bitpattern, length, 0, false), timeout)
      ensures Valid() && packetsReceivedForChannel == old(packetsReceivedForChannel)
    {
      var t := Test(Transmitter, false, channel, channel, bitpattern, length, 0, false);
      TestStartedInv(Snapshot(), t, timeout);
      SetKindFlag(Transmitter, true);
      BeginTest(t, timeout);
      SetSweepTimedOut(false);
      SetTimedOut(false);
      var cmd := StartCommand(t, 0);
      SendCmd(cmd);
      Suspend(AwaitStart(t, 0, None));
    }

    /** sweepTransmitterTest. */
    method SweepTransmitterTest(bitpattern: nat, length: int, channelLow: int, channelHigh: int,
                                sweepTime: int, timeout: int, randomPattern: bool)
      requires Valid() && phase == Idle && bitpattern < 4
      requires IsChannel(channelLow) && IsChannel(channelHigh) && channelLow <= channelHigh
      modifies this
      ensures Snapshot() == TestStarted(old(Snapshot()),
                Test(Transmitter, true, channelLow, channelHigh, bitpattern, length, sweepTime, randomPattern), timeout)
      ensures Valid() && packetsReceivedForChannel == old(packetsReceivedForChannel)
    {
      var t := Test(Transmitter, true, channelLow, channelHigh, bitpattern, length, sweepTime, randomPattern);
      TestStartedInv(Snapshot(), t, timeout);
      SetKindFlag(Transmitter, false);
      BeginTest(t, timeout);
      BeginStep(t, 0);
    }

    /** singleChannelReceiverTest. */
    method SingleChannelReceiverTest(channel: int, timeout: int)
      requires Valid() && phase == Idle && IsChannel(channel)
      modifies this
      ensures Snapshot() == TestStarted(old(Snapshot()), Test(Receiver, false, channel, channel, 0, 0, 0, false), timeout)
      ensures Valid() && packetsReceivedForChannel == old(packetsReceivedForChannel)
    {
      var t := Test(Receiver, false, channel, channel, 0, 0, 0, false);
      TestStartedInv(Snapshot(), t, timeout);
      SetKindFlag(Receiver, true);
      BeginTest(t, timeout);
      SetTimedOut(false);
      SetSweepTimedOut(false);
      var cmd := StartCommand(t, 0);
      var p := EndEventDataReceived();
      SendCmd(cmd);
      Suspend(AwaitStart(t, 0, Some(p)));
    }

    /** sweepReceiverTest: the per-channel counts start as a fresh array of 40 zeros. */
    method SweepReceiverTest(channelLow: int, channelHigh: int, sweepTime: int, timeout: int, randomPattern: bool)
      requires Valid() && phase == Idle
      requires IsChannel(channelLow) && IsChannel(channelHigh) && channelLow <= channelHigh
      modifies this
      ensures Snapshot() == TestStarted(old(Snapshot()),
                Test(Receiver, true, channelLow, channelHigh, 0, 0, sweepTime, randomPattern), timeout)
      ensures Valid() && fresh(packetsReceivedForChannel)
    {
      var t := Test(Receiver, true, channelLow, channelHigh, 0, 0, sweepTime, randomPattern);
      TestStartedInv(Snapshot(), t, timeout);
      SetKindFlag(Receiver, false);
      NewCounts();
      BeginTest(t, timeout);
      BeginStep(t, 0);
    }

    /** `new Array(40).fill(0)`. */
    method NewCounts()
      modifies this`packetsReceivedForChannel
      ensures var s := old(Snapshot()); Snapshot() == s.(counts := seq(40, _ => 0))
      ensures fresh(packetsReceivedForChannel)
    {
      packetsReceivedForChannel := new nat[40](_ => 0);
      assert packetsReceivedForChannel[..] == seq(40, _ => 0);
    }

    // -------------------------------------------------------------------------
    // The events that resume a suspended procedure or fire a timer
    // -------------------------------------------------------------------------

    /** The response to the running procedure's start command arrives. */
    method OnStartResponse(response: Option<seq<Byte>>, draw: real)
      requires Valid() && phase.AwaitStart? && 0.0 <= draw < 1.0
      modifies this, packetsReceivedForChannel
      ensures Snapshot() == StartAnswered(old(Snapshot()), response, draw)
      ensures Valid() && packetsReceivedForChannel == old(packetsReceivedForChannel)
    {
      StartAnsweredInv(Snapshot(), response, draw);
      ContinueAfterStart(response, draw);
    }

    /** The running procedure resumes after the await of its start command's response. */
    method ContinueAfterStart(response: Option<seq<Byte>>, draw: real)
      requires phase.AwaitStart? && InRange(phase.test, phase.idx) && packetsReceivedForChannel.Length == 40
      requires phase.test.sweep || phase.test.kind == Receiver ==> phase.waiter.Some?
      requires 0.0 <= draw < 1.0
      modifies this, packetsReceivedForChannel
      ensures Snapshot() == StartAnswered(old(Snapshot()), response, draw)
      ensures packetsReceivedForChannel == old(packetsReceivedForChannel)
    {
      var t, idx, w := phase.test, phase.idx, phase.waiter;
      if !t.sweep {
        if !ReportSuccess(response) {
          Return(Failure(StartFailure(t.kind)));
        } else if t.kind == Transmitter {
          var p := EndEventDataReceived();
          Suspend(AwaitEnd(t, idx, p));
        } else {
          AwaitEndEvent(t, idx, w.value, draw);
        }
      } else {
        SetKindFlag(t.kind, true);
        if !ReportSuccess(response) {
          if t.kind == Transmitter {
            SetKindFlag(Transmitter, false);
          }
          Return(Failure(StartFailure(t.kind)));
        } else {
          StartSweepTimeoutEvent(t.kind, t.sweepTime);
          SetSweepTimedOut(false);
          if timedOut {
            EndCurrentTest();
          }
          AwaitEndEvent(t, idx, w.value, draw);
        }
      }
    }

    /**
     * The response to an End command arrives. A missing response makes `response[0]`
     * throw, so the rest of endCurrentTest never runs.
     */
    method OnEndResponse(response: Option<seq<Byte>>, draw: real)
      requires Valid() && pendingEnds > 0 && Response(response) && 0.0 <= draw < 1.0
      modifies this, packetsReceivedForChannel
      ensures Snapshot() == EndAnswered(old(Snapshot()), response, draw)
      ensures Valid() && packetsReceivedForChannel == old(packetsReceivedForChannel)
    {
      EndAnsweredInv(Snapshot(), response, draw);
      ContinueEndCurrentTest(response, draw);
    }

    /** The rest of endCurrentTest once its End command's response has arrived. */
    method ContinueEndCurrentTest(response: Option<seq<Byte>>, draw: real)
      requires pendingEnds > 0 && Response(response) && packetsReceivedForChannel.Length == 40
      requires phase.AwaitEnd? ==> InRange(phase.test, phase.idx)
      requires 0.0 <= draw < 1.0
      modifies this, packetsReceivedForChannel
      ensures Snapshot() == EndAnswered(old(Snapshot()), response, draw)
      ensures packetsReceivedForChannel == old(packetsReceivedForChannel)
    {
      CountEnd(-1);
      if response.Some? && onEndEvent.Some? {
        ResolveAndResume(EndStatus(true, PacketCount(response.value)), draw);
      }
    }

    /** The installed waiter resolves its promise; a procedure awaiting that promise continues. */
    method ResolveAndResume(status: EndStatus, draw: real)
      requires onEndEvent.Some? && packetsReceivedForChannel.Length == 40 && 0.0 <= draw < 1.0
      requires phase.AwaitEnd? ==> InRange(phase.test, phase.idx)
      modifies this, packetsReceivedForChannel
      ensures Snapshot() == EndResolved(old(Snapshot()), status, draw)
      ensures packetsReceivedForChannel == old(packetsReceivedForChannel)
    {
      var p := ResolveEndEvent(status);
      if phase.AwaitEnd? && phase.promise == p {
        EndOfStep(phase.test, phase.idx, status, draw);
      }
    }

    /** The whole-test timer fires. */
    method OnTimeout()
      requires Valid() && timeoutEvent.Some?
      modifies this
      ensures Snapshot() == MainTimerFired(old(Snapshot()))
      ensures Valid() && packetsReceivedForChannel == old(packetsReceivedForChannel)
    {
      MainTimerFiredInv(Snapshot());
      var kind := timeoutEvent.value;
      ClearTimeoutEvent();
      SetTimedOut(true);
      var active := if kind == Transmitter then isTransmitting else isReceiving;
      if active && !sweepTimedOut {
        EndCurrentTest();
      }
    }

    /** The per-step sweep timer fires. */
    method OnSweepTimeout()
      requires Valid() && sweepTimeoutEvent.Some?
      modifies this
      ensures Snapshot() == StepTimerFired(old(Snapshot()))
      ensures Valid() && packetsReceivedForChannel == old(packetsReceivedForChannel)
    {
      StepTimerFiredInv(Snapshot());
      var kind := sweepTimeoutEvent.value;
      EndSweepTimeoutEvent();
      SetSweepTimedOut(true);
      var active := if kind == Transmitter then isTransmitting else isReceiving;
      if active && !timedOut {
        EndCurrentTest();
      }
    }

    /** endTest. */
    method EndTest()
      requires Valid()
      modifies this
      ensures Snapshot() == EndTestCalled(old(Snapshot()))
      ensures Valid() && packetsReceivedForChannel == old(packetsReceivedForChannel)
    {
      EndTestCalledInv(Snapshot());
      if timedOut {
        return;
      }
      SetTimedOut(true);
      ClearTimeoutEvent();
      if !sweepTimedOut && (isTransmitting || isReceiving) {
        EndCurrentTest();
      }
    }

    // -------------------------------------------------------------------------
    // The setters, up to the await of their command's response
    // -------------------------------------------------------------------------

    /** setTxPower. */
    method SetTxPower(dbm: Option<int>)
      requires Valid()
      modifies this
      ensures Snapshot() == TxPowerSet(old(Snapshot()), dbm)
      ensures Valid() && packetsReceivedForChannel == old(packetsReceivedForChannel)
    {
      ghost var s0 := Snapshot();
      dbmPayload := OrStored(dbm, dbmPayload);
      var cmd := TxPowerCommand(dbmPayload);
      ConfigurationKeepsInv(s0, Snapshot().defaults, cmd);
      SendCmd(cmd);
    }

    /** selectTimer. */
    method SelectTimer(timer: Option<int>)
      requires Valid() && 0 <= OrStored(timer, selectedTimer) < 64
      modifies this
      ensures Snapshot() == TimerSelected(old(Snapshot()), timer)
      ensures Valid() && packetsReceivedForChannel == old(packetsReceivedForChannel)
    {
      ghost var s0 := Snapshot();
      selectedTimer := OrStored(timer, selectedTimer);
      var cmd := SelectTimerCommand(selectedTimer);
      ConfigurationKeepsInv(s0, Snapshot().defaults, cmd);
      SendCmd(cmd);
    }

    /** setupReset. */
    method SetupReset()
      requires Valid()
      modifies this
      ensures Snapshot() == ResetSent(old(Snapshot()))
      ensures Valid() && packetsReceivedForChannel == old(packetsReceivedForChannel)
    {
      ghost var s0 := Snapshot();
      var cmd := SetupCommand(ControlReset, ParameterDefault);
      ConfigurationKeepsInv(s0, Snapshot().defaults, cmd);
      SendCmd(cmd);
    }

    /** setupLength. */
    method SetupLength(length: Option<int>)
      requires Valid() && 0 <= OrStored(length, lengthPayload) < 4096
      modifies this
      ensures Snapshot() == LengthSet(old(Snapshot()), length)
      ensures Valid() && packetsReceivedForChannel == old(packetsReceivedForChannel)
    {
      ghost var s0 := Snapshot();
      lengthPayload := OrStored(length, lengthPayload);
      var lengthBits := LengthBits(lengthPayload);
      var cmd := SetupCommand(ControlEnableLength, lengthBits);
      ConfigurationKeepsInv(s0, Snapshot().defaults, cmd);
      SendCmd(cmd);
    }

    /** setupPhy. */
    method SetupPhy(phy: Option<int>)
      requires Valid() && 0 <= OrStored(phy, phyPayload) < 64
      modifies this
      ensures Snapshot() == PhySet(old(Snapshot()), phy)
      ensures Valid() && packetsReceivedForChannel == old(packetsReceivedForChannel)
    {
      ghost var s0 := Snapshot();
      phyPayload := OrStored(phy, phyPayload);
      var cmd := SetupCommand(ControlPhy, phyPayload);
      ConfigurationKeepsInv(s0, Snapshot().defaults, cmd);
      SendCmd(cmd);
    }

    /** setupModulation. */
    method SetupModulation(modulation: Option<int>)
      requires Valid() && 0 <= OrStored(modulation, modulationPayload) < 64
      modifies this
      ensures Snapshot() == ModulationSet(old(Snapshot()), modulation)
      ensures Valid() && packetsReceivedForChannel == old(packetsReceivedForChannel)
    {
      ghost var s0 := Snapshot();
      modulationPayload := OrStored(modulation, modulationPayload);
      var cmd := SetupCommand(ControlModulation, modulationPayload);
      ConfigurationKeepsInv(s0, Snapshot().defaults, cmd);
      SendCmd(cmd);
    }

    /** setupReadFeatures. */
    method SetupReadFeatures()
      requires Valid()
      modifies this
      ensures Snapshot() == FeaturesRead(old(Snapshot()))
      ensures Valid() && packetsReceivedForChannel == old(packetsReceivedForChannel)
    {
      ghost var s0 := Snapshot();
      var cmd := SetupCommand(ControlFeatures, 0);
      ConfigurationKeepsInv(s0, Snapshot().defaults, cmd);
      SendCmd(cmd);
    }

    /** setupReadSupportedRxTx. */
    method SetupReadSupportedRxTx(parameter: int)
      requires Valid() && 0 <= parameter < 64
      modifies this
      ensures Snapshot() == SupportedRxTxRead(old(Snapshot()), parameter)
      ensures Valid() && packetsReceivedForChannel == old(packetsReceivedForChannel)
    {
      ghost var s0 := Snapshot();
      var cmd := SetupCommand(ControlTxRx, parameter);
      ConfigurationKeepsInv(s0, Snapshot().defaults, cmd);
      SendCmd(cmd);
    }
  }

  /** createTxPowerCMD(dbm & 0x3F). */
  method TxPowerCommand(dbm: int) returns (cmd: seq<Byte>)
    ensures cmd == [0x80 + dbm % 64, 0x0B]
  {
    AndInt3F(dbm);
    cmd := CreateTxPowerCmd(AndInt(dbm, 0x3F));
  }

  /** createSelectTimerCMD(value). */
  method SelectTimerCommand(value: int) returns (cmd: seq<Byte>)
    requires 0 <= value < 64
    ensures cmd == [0x80 + value, 0x0F]
  {
    cmd := CreateSelectTimerCmd(value);
  }

  /** createSetupCMD(control, parameter) with the default DC field. */
  method SetupCommand(control: nat, parameter: int) returns (cmd: seq<Byte>)
    requires control < 64 && 0 <= parameter < 64
    ensures cmd == [control, parameter * 4]
  {
    KindValues();
    cmd := CreateSetupCmd(control, parameter, DcDefault);
  }
}
