/**
 * Class DTM$1 of dist/nrf-dtm.js as an object whose fields are the source's fields. Each
 * event method performs exactly one transition of the BundleController model, so the
 * invariants and properties proved there hold of the object.
 *
 * As for src, the object also keeps what the suspended procedure holds in local
 * variables: `phase` (including which setup command of a sweep step it awaits), the
 * receiver sweep's array `packetsReceivedForChannel` and the armed per-step timer. `sent`
 * logs the commands handed to the transport and `deliveries` the listener calls.
 */
module BundleObject {
  import opened Basics
  import opened Codec
  import C = Controller
  import BundleCodec
  import DtmObject
  import opened BundleController

  class BundleDtm {
    var lengthPayload: int
    var modulationPayload: int
    var phyPayload: int
    var dbmPayload: int
    var selectedTimer: int

    var isTransmitting: bool
    var isReceiving: bool
    var timedOut: bool
    var sweepTimedOut: bool

    /** `this.timeoutEvent`, and the sweep's local `sweepTimeoutEvent`, as the kind whose flag they read. */
    var timeoutEvent: Option<Kind>
    var sweepTimeoutEvent: Option<Kind>

    /** The promise whose resolver is installed as onEndEvent, and what each promise resolved with. */
    var onEndEvent: Option<nat>
    var endResults: map<nat, EndStatus>
    var nextPromise: nat

    /** `this.listeners`, and every call made to them. */
    var listeners: seq<nat>
    var deliveries: seq<Delivery>

    var phase: Phase
    var packetsReceivedForChannel: array<nat>
    var result: Option<Outcome>
    var sent: seq<seq<Byte>>
    var pendingEnds: nat

    ghost function Snapshot(): State
      reads this, packetsReceivedForChannel
    {
      State(C.Defaults(lengthPayload, modulationPayload, phyPayload, dbmPayload, selectedTimer),
            Guards(isTransmitting, isReceiving, timedOut, sweepTimedOut, timeoutEvent, sweepTimeoutEvent),
            Promises(onEndEvent, endResults, nextPromise),
            phase, packetsReceivedForChannel[..], result, sent, pendingEnds, listeners, deliveries)
    }

    ghost predicate Valid()
      reads this, packetsReceivedForChannel
    {
      Inv(Snapshot())
    }

    /** The constructor: sweepTimedOut, which the source leaves undefined, reads as false. */
    constructor ()
      ensures Snapshot() == Initial() && Valid()
    {
      lengthPayload := 1;
      modulationPayload := StandardModulationIndex;
      phyPayload := PhyLe1M;
      dbmPayload := 0;
      selectedTimer := 0;
      isTransmitting := false;
      isReceiving := false;
      timedOut := false;
      sweepTimedOut := false;
      timeoutEvent := None;
      sweepTimeoutEvent := None;
      onEndEvent := None;
      endResults := map[];
      nextPromise := 0;
      listeners := [];
      deliveries := [];
      phase := Idle;
      packetsReceivedForChannel := new nat[0];
      result := None;
      sent := [];
      pendingEnds := 0;
      new;
      assert packetsReceivedForChannel[..] == [];
      InitialInv();
    }

    // -------------------------------------------------------------------------
    // Listeners
    // -------------------------------------------------------------------------

    /** addListener. */
    method AddListener(l: nat)
      requires Valid()
      modifies this`listeners
      ensures Snapshot() == ListenerAdded(old(Snapshot()), l) && Valid()
    {
      ListenersKeepInv(Snapshot(), l, Reset);
      listeners := listeners + [l];
    }

    /** callback(event): every listener is called with the event, in registration order. */
    method Notify(e: Event)
      modifies this`deliveries
      ensures Snapshot() == Notified(old(Snapshot()), e)
    {
      var i := 0;
      while i < |listeners|
        invariant 0 <= i <= |listeners|
        invariant |deliveries| == |old(deliveries)| + i && deliveries[..|old(deliveries)|] == old(deliveries)
        invariant forall j :: 0 <= j < i ==> deliveries[|old(deliveries)| + j] == Delivery(listeners[j], e)
      {
        deliveries := deliveries + [Delivery(listeners[i], e)];
        i := i + 1;
      }
      assert deliveries == old(deliveries) + FanOut(listeners, e);
    }

    // -------------------------------------------------------------------------
    // Helpers. Each one changes the fields it names and states the object's new
    // snapshot, so the procedures below are composed at the level of the model.
    // -------------------------------------------------------------------------

    /** dtmTransport.sendCMD up to its await. */
    method SendCmd(cmd: seq<Byte>)
      modifies this`sent
      ensures var s := old(Snapshot()); Snapshot() == s.(sent := s.sent + [cmd])
    {
      sent := sent + [cmd];
    }

    /** endCurrentTest up to its await: the End command is sent. */
    method EndCurrentTest()
      modifies this`sent, this`pendingEnds
      ensures Snapshot() == WithEnd(old(Snapshot()))
    {
      var cmd := CreateEndCmd();
      SendCmd(cmd);
      pendingEnds := pendingEnds + 1;
    }

    /** The start command of step idx: carrierTestCMD, or the bundled createReceiverCMD. */
    method StartCommand(t: Test, idx: int) returns (cmd: seq<Byte>)
      requires C.InRange(t, idx)
      ensures cmd == StepCommand(t, idx)
    {
      var frequency := C.ChannelToFrequency(t.low + idx);
      if t.kind == C.Transmitter {
        cmd := C.CarrierTestCmd(frequency, t.length, t.bitpattern);
      } else {
        cmd := BundleCodec.CreateReceiverCmd(frequency);
      }
      StepCommandBuilt(t, idx);
    }

    /** `this.timeoutEvent = this.startTimeoutEvent(flag, timeout)`. */
    method StartTimeoutEvent(kind: Kind, timeout: int)
      modifies this`timedOut, this`timeoutEvent
      ensures var s := old(Snapshot());
        Snapshot() == s.(guards := s.guards.(timedOut := false, mainTimer := if timeout > 0 then Some(kind) else None))
    {
      timedOut, timeoutEvent := false, if timeout > 0 then Some(kind) else None;
    }

    /** `const sweepTimeoutEvent = this.startSweepTimeoutEvent(flag, sweepTime)`. */
    method StartSweepTimeoutEvent(kind: Kind, sweepTime: int)
      modifies this`sweepTimedOut, this`sweepTimeoutEvent
      ensures var s := old(Snapshot());
        Snapshot() == s.(guards := s.guards.(sweepTimedOut := false, stepTimer := if sweepTime > 0 then Some(kind) else None))
    {
      sweepTimedOut, sweepTimeoutEvent := false, if sweepTime > 0 then Some(kind) else None;
    }

    /** endTimeoutEvent(sweepTimeoutEvent). */
    method EndSweepTimeoutEvent()
      modifies this`sweepTimeoutEvent
      ensures var s := old(Snapshot()); Snapshot() == s.(guards := s.guards.(stepTimer := None))
    {
      sweepTimeoutEvent := None;
    }

    /** endTimeoutEvent(this.timeoutEvent). */
    method ClearTimeoutEvent()
      modifies this`timeoutEvent
      ensures var s := old(Snapshot()); Snapshot() == s.(guards := s.guards.(mainTimer := None))
    {
      timeoutEvent := None;
    }

    /** endEventDataReceived: a fresh promise whose resolver becomes onEndEvent. */
    method EndEventDataReceived() returns (p: nat)
      modifies this`onEndEvent, this`nextPromise
      ensures var s := old(Snapshot()); p == s.promises.nextPromise && Snapshot() == s.(promises := Installed(s.promises))
    {
      p := nextPromise;
      onEndEvent, nextPromise := Some(p), nextPromise + 1;
    }

    /** A call of the installed resolver: it resolves its promise and stays installed. */
    method ResolveEndEvent(status: EndStatus) returns (p: nat)
      requires onEndEvent.Some?
      modifies this`endResults
      ensures var s := old(Snapshot()); p == s.promises.onEndEvent.value
      ensures var s := old(Snapshot());
        Snapshot() == s.(promises := s.promises.(endResults := s.promises.endResults[p := status]))
    {
      p := onEndEvent.value;
      endResults := endResults[p := status];
    }

    method SetKindFlag(kind: Kind, b: bool)
      modifies this`isTransmitting, this`isReceiving
      ensures var s := old(Snapshot()); Snapshot() == s.(guards := SetFlag(s.guards, kind, b))
    {
      if kind == C.Transmitter {
        isTransmitting := b;
      } else {
        isReceiving := b;
      }
    }

    method SetTimedOut(b: bool)
      modifies this`timedOut
      ensures var s := old(Snapshot()); Snapshot() == s.(guards := s.guards.(timedOut := b))
    {
      timedOut := b;
    }

    method SetSweepTimedOut(b: bool)
      modifies this`sweepTimedOut
      ensures var s := old(Snapshot()); Snapshot() == s.(guards := s.guards.(sweepTimedOut := b))
    {
      sweepTimedOut := b;
    }

    /** The procedure suspends at an await. */
    method Suspend(ph: Phase)
      modifies this`phase
      ensures var s := old(Snapshot()); Snapshot() == s.(phase := ph)
    {
      phase := ph;
    }

    /** The procedure clears its whole-test timeout and returns o. */
    method Return(o: Outcome)
      modifies this`timeoutEvent, this`phase, this`result
      ensures Snapshot() == Returned(old(Snapshot()), o)
    {
      ClearTimeoutEvent();
      Suspend(Idle);
      result := Some(o);
    }

    /** `packetsReceivedForChannel[currentChannelIdx] += status.received`. */
    method AddReceived(idx: int, received: nat)
      requires 0 <= idx < packetsReceivedForChannel.Length
      modifies packetsReceivedForChannel
      ensures var s := old(Snapshot());
        Snapshot() == s.(counts := s.counts[idx := s.counts[idx] + received])
    {
      packetsReceivedForChannel[idx] := packetsReceivedForChannel[idx] + received;
    }

    /** `packetsReceivedForChannel[currentChannelIdx] += status.received` in a receiver sweep. */
    method Count(t: Test, idx: int, received: nat)
      requires C.InRange(t, idx) && CountsOk(t, Snapshot().counts) && t.sweep
      modifies packetsReceivedForChannel
      ensures Snapshot() == Counted(old(Snapshot()), t, idx, received)
    {
      if t.kind == C.Receiver {
        AddReceived(idx, received);
      }
    }

    /** The per-step timer, and the End sent at once when the whole test has already timed out. */
    method ArmStep(t: Test)
      modifies this`sweepTimedOut, this`sweepTimeoutEvent, this`sent, this`pendingEnds
      ensures Snapshot() == StepArmed(old(Snapshot()), t)
    {
      StartSweepTimeoutEvent(t.kind, t.sweepTime);
      SetSweepTimedOut(false);
      if timedOut {
        EndCurrentTest();
      }
    }

    /** `new Array(n).fill(0)`. */
    method NewCounts(n: nat)
      modifies this`packetsReceivedForChannel
      ensures var s := old(Snapshot()); Snapshot() == s.(counts := seq(n, _ => 0))
      ensures fresh(packetsReceivedForChannel)
    {
      packetsReceivedForChannel := new nat[n](_ => 0);
      assert packetsReceivedForChannel[..] == seq(n, _ => 0);
    }

    // -------------------------------------------------------------------------
    // A sweep step's setup
    // -------------------------------------------------------------------------

    /**
     * One setup step: its setter called with no argument, up to the await of its
     * response. Such a call keeps every stored value and only sends the setter's command
     * for them (SetupIssuedSends).
     */
    method IssueSetup(st: Setup)
      requires C.DefaultsOk(Snapshot().defaults)
      modifies this
      ensures Snapshot() == SetupIssued(old(Snapshot()), st)
      ensures packetsReceivedForChannel == old(packetsReceivedForChannel)
    {
      SetupIssuedSends(Snapshot(), st);
      var cmd := SetupCommand(C.Defaults(lengthPayload, modulationPayload, phyPayload, dbmPayload, selectedTimer), st);
      SendCmd(cmd);
    }

    /** The head of one sweep iteration, up to the await of the reset's response. */
    method BeginStep(t: Test, idx: int)
      requires C.InRange(t, idx) && C.DefaultsOk(Snapshot().defaults)
      modifies this
      ensures Snapshot() == StepBegun(old(Snapshot()), t, idx)
      ensures packetsReceivedForChannel == old(packetsReceivedForChannel)
    {
      SetSweepTimedOut(false);
      SetKindFlag(t.kind, false);
      IssueSetup(SetupOrder(t.kind)[0]);
      Suspend(AwaitSetup(t, idx, 0));
    }

    /**
     * The response to the awaited setup command arrives: send the next one, or create
     * the end-of-step promise and send the start command.
     */
    method OnSetupResponse()
      requires Valid() && phase.AwaitSetup?
      modifies this
      ensures Snapshot() == SetupAnswered(old(Snapshot()))
      ensures Valid() && packetsReceivedForChannel == old(packetsReceivedForChannel)
    {
      SetupAnsweredInv(Snapshot());
      var t, idx, done := phase.test, phase.idx, phase.done;
      if done + 1 < |SetupOrder(t.kind)| {
        IssueSetup(SetupOrder(t.kind)[done + 1]);
        Suspend(AwaitSetup(t, idx, done + 1));
      } else {
        var cmd := StartCommand(t, idx);
        var p := EndEventDataReceived();
        SendCmd(cmd);
        Suspend(AwaitStart(t, idx, Some(p)));
      }
    }

    // -------------------------------------------------------------------------
    // The rest of a step
    // -------------------------------------------------------------------------

    /** The code after the end-of-step promise resolved with status. */
    method EndOfStep(t: Test, idx: int, status: EndStatus, draw: real)
      requires C.InRange(t, idx) && CountsOk(t, Snapshot().counts) && C.DefaultsOk(Snapshot().defaults)
      requires 0.0 <= draw < 1.0
      modifies this, packetsReceivedForChannel
      ensures Snapshot() == StepEnded(old(Snapshot()), t, idx, status, draw)
      ensures packetsReceivedForChannel == old(packetsReceivedForChannel)
    {
      if !t.sweep {
        Notify(Ended(t.kind, t.low + idx, EndedPackets(t.kind, status)));
        Return(C.Status(status));
      } else {
        EndOfSweepStep(t, idx, status, draw);
      }
    }

    /** The same for a sweep: clear the step timer, then fail, or count and continue. */
    method EndOfSweepStep(t: Test, idx: int, status: EndStatus, draw: real)
      requires C.InRange(t, idx) && CountsOk(t, Snapshot().counts) && C.DefaultsOk(Snapshot().defaults)
      requires 0.0 <= draw < 1.0 && t.sweep
      modifies this, packetsReceivedForChannel
      ensures Snapshot() == StepEnded(old(Snapshot()), t, idx, status, draw)
      ensures packetsReceivedForChannel == old(packetsReceivedForChannel)
    {
      if status.success {
        SweepStepSucceeded(t, idx, status, draw);
      } else {
        EndSweepTimeoutEvent();
        if t.kind == C.Transmitter {
          SetKindFlag(C.Transmitter, false);
        }
        Return(C.Failure(C.EndFailure(t.kind)));
      }
    }

    method SweepStepSucceeded(t: Test, idx: int, status: EndStatus, draw: real)
      requires C.InRange(t, idx) && CountsOk(t, Snapshot().counts) && C.DefaultsOk(Snapshot().defaults)
      requires 0.0 <= draw < 1.0 && t.sweep && status.success
      modifies this, packetsReceivedForChannel
      ensures Snapshot() == StepEnded(old(Snapshot()), t, idx, status, draw)
      ensures packetsReceivedForChannel == old(packetsReceivedForChannel)
    {
      EndSweepTimeoutEvent();
      Count(t, idx, status.received);
      Notify(Ended(t.kind, t.low + idx, EndedPackets(t.kind, status)));
      ContinueSweep(t, idx, draw);
    }

    /** The bottom of a successful sweep iteration: advance and loop, or return. */
    method ContinueSweep(t: Test, idx: int, draw: real)
      requires C.InRange(t, idx) && C.DefaultsOk(Snapshot().defaults) && 0.0 <= draw < 1.0
      modifies this
      ensures Snapshot() == SweepStepEnded(old(Snapshot()), t, idx, draw)
      ensures packetsReceivedForChannel == old(packetsReceivedForChannel)
    {
      var next := NextIndex(t, idx, draw);
      var active := if t.kind == C.Transmitter then isTransmitting else isReceiving;
      if active && !timedOut {
        BeginStep(t, next);
      } else if t.kind == C.Receiver {
        var counts := packetsReceivedForChannel[..];
        Return(C.SweepResult(C.Sum(counts), Some(counts)));
      } else {
        Return(C.SweepResult(0, None));
      }
    }

    /** `await` on the end-of-step promise p: continue at once if it has already resolved. */
    method AwaitEndEvent(t: Test, idx: int, p: nat, draw: real)
      requires C.InRange(t, idx) && CountsOk(t, Snapshot().counts) && C.DefaultsOk(Snapshot().defaults)
      requires 0.0 <= draw < 1.0
      modifies this, packetsReceivedForChannel
      ensures Snapshot() == EndAwaited(old(Snapshot()), t, idx, p, draw)
      ensures packetsReceivedForChannel == old(packetsReceivedForChannel)
    {
      if p in endResults {
        EndOfStep(t, idx, endResults[p], draw);
      } else {
        Suspend(AwaitEnd(t, idx, p));
      }
    }

    // -------------------------------------------------------------------------
    // The test procedures, up to their first await
    // -------------------------------------------------------------------------

    /** What the four procedures share: the 'reset' event and the whole-test timeout. */
    method BeginTest(t: Test, timeout: int)
      modifies this
      ensures var s := old(Snapshot());
        Snapshot() == Notified(s.(result := None, guards := s.guards.(timedOut := false,
                                  mainTimer := if timeout > 0 then Some(t.kind) else None)), Reset)
      ensures packetsReceivedForChannel == old(packetsReceivedForChannel)
    {
      result := None;
      Notify(Reset);
      StartTimeoutEvent(t.kind, timeout);
    }

    /** singleChannelTransmitterTest. */
    method SingleChannelTransmitterTest(bitpattern: nat, length: int, channel: int, timeout: int)
      requires Valid() && phase == Idle && C.IsChannel(channel) && bitpattern < 4
      modifies this
      ensures Snapshot() == TestStarted(old(Snapshot()), C.Test(C.Transmitter, false, channel, channel, bitpattern, length, 0, false), timeout)
      ensures Valid() && packetsReceivedForChannel == old(packetsReceivedForChannel)
    {
      var t := C.Test(C.Transmitter, false, channel, channel, bitpattern, length, 0, false);
      TestStartedInv(Snapshot(), t, timeout);
      BeginTest(t, timeout);
      SetKindFlag(C.Transmitter, true);
      SetSweepTimedOut(false);
      var cmd := StartCommand(t, 0);
      SendCmd(cmd);
      Suspend(AwaitStart(t, 0, None));
    }

    /** sweepTransmitterTest. */
    method SweepTransmitterTest(bitpattern: nat, length: int, channelLow: int, channelHigh: int,
                                sweepTime: int, timeout: int, randomPattern: bool)
      requires Valid() && phase == Idle && bitpattern < 4
      requires C.IsChannel(channelLow) && C.IsChannel(channelHigh) && channelLow <= channelHigh
      modifies this
      ensures Snapshot() == TestStarted(old(Snapshot()),
                C.Test(C.Transmitter, true, channelLow, channelHigh, bitpattern, length, sweepTime, randomPattern), timeout)
      ensures Valid() && packetsReceivedForChannel == old(packetsReceivedForChannel)
    {
      var t := C.Test(C.Transmitter, true, channelLow, channelHigh, bitpattern, length, sweepTime, randomPattern);
      TestStartedInv(Snapshot(), t, timeout);
      BeginTest(t, timeout);
      SetKindFlag(C.Transmitter, false);
      BeginStep(t, 0);
    }

    /** singleChannelReceiverTest. */
    method SingleChannelReceiverTest(channel: int, timeout: int)
      requires Valid() && phase == Idle && C.IsChannel(channel)
      modifies this
      ensures Snapshot() == TestStarted(old(Snapshot()), C.Test(C.Receiver, false, channel, channel, 0, 0, 0, false), timeout)
      ensures Valid() && packetsReceivedForChannel == old(packetsReceivedForChannel)
    {
      var t := C.Test(C.Receiver, false, channel, channel, 0, 0, 0, false);
      TestStartedInv(Snapshot(), t, timeout);
      BeginTest(t, timeout);
      SetKindFlag(C.Receiver, true);
      SetSweepTimedOut(false);
      var cmd := StartCommand(t, 0);
      var p := EndEventDataReceived();
      SendCmd(cmd);
      Suspend(AwaitStart(t, 0, Some(p)));
    }

    /** sweepReceiverTest: the counts are a fresh array of channelHigh - channelLow + 1 zeros. */
    method SweepReceiverTest(channelLow: int, channelHigh: int, sweepTime: int, timeout: int, randomPattern: bool)
      requires Valid() && phase == Idle
      requires C.IsChannel(channelLow) && C.IsChannel(channelHigh) && channelLow <= channelHigh
      modifies this
      ensures Snapshot() == TestStarted(old(Snapshot()),
                C.Test(C.Receiver, true, channelLow, channelHigh, 0, 0, sweepTime, randomPattern), timeout)
      ensures Valid() && fresh(packetsReceivedForChannel)
    {
      var t := C.Test(C.Receiver, true, channelLow, channelHigh, 0, 0, sweepTime, randomPattern);
      TestStartedInv(Snapshot(), t, timeout);
      BeginTest(t, timeout);
      SetKindFlag(C.Receiver, false);
      NewCounts(channelHigh - channelLow + 1);
      BeginStep(t, 0);
    }

    /**
     * transmitterTest: a single-channel test with a 1000 ms timeout when useSingleChannel
     * is set; otherwise nothing happens and the answer is null (started == false).
     */
    method TransmitterTest(bitpattern: nat, length: int, useSingleChannel: bool, singleChannelNum: int)
      returns (started: bool)
      requires Valid() && phase == Idle && C.IsChannel(singleChannelNum) && bitpattern < 4
      modifies this
      ensures started == useSingleChannel
      ensures Snapshot() == TransmitterTestCalled(old(Snapshot()), bitpattern, length, useSingleChannel, singleChannelNum)
      ensures Valid() && packetsReceivedForChannel == old(packetsReceivedForChannel)
    {
      started := useSingleChannel;
      if useSingleChannel {
        SingleChannelTransmitterTest(bitpattern, length, singleChannelNum, 1000);
      }
    }

    // -------------------------------------------------------------------------
    // The events that resume a suspended procedure or fire a timer
    // -------------------------------------------------------------------------

    /** The response to the running procedure's start command arrives. */
    method OnStartResponse(response: seq<Byte>, draw: real)
      requires Valid() && phase.AwaitStart? && |response| == 2 && 0.0 <= draw < 1.0
      modifies this, packetsReceivedForChannel
      ensures Snapshot() == StartAnswered(old(Snapshot()), response, draw)
      ensures Valid() && packetsReceivedForChannel == old(packetsReceivedForChannel)
    {
      StartAnsweredInv(Snapshot(), response, draw);
      if !phase.test.sweep {
        SingleStartResponse(response, draw);
      } else {
        SweepStartResponse(response, draw);
      }
    }

    method SingleStartResponse(response: seq<Byte>, draw: real)
      requires CanAnswerStart(Snapshot(), response, draw) && !phase.test.sweep
      modifies this, packetsReceivedForChannel
      ensures Snapshot() == StartAnswered(old(Snapshot()), response, draw)
      ensures packetsReceivedForChannel == old(packetsReceivedForChannel)
    {
      var t, idx, w := phase.test, phase.idx, phase.waiter;
      if !ReportSuccess(response) {
        Return(C.Failure(C.StartFailure(t.kind)));
      } else {
        Notify(Started(t.kind, t.low + idx));
        if t.kind == C.Transmitter {
          var p := EndEventDataReceived();
          Suspend(AwaitEnd(t, idx, p));
        } else {
          AwaitEndEvent(t, idx, w.value, draw);
        }
      }
    }

    /** Within a step the flag is set first; a refused start clears it again for a transmitter. */
    method SweepStartResponse(response: seq<Byte>, draw: real)
      requires CanAnswerStart(Snapshot(), response, draw) && phase.test.sweep
      modifies this, packetsReceivedForChannel
      ensures Snapshot() == StartAnswered(old(Snapshot()), response, draw)
      ensures packetsReceivedForChannel == old(packetsReceivedForChannel)
    {
      var t := phase.test;
      if ReportSuccess(response) {
        SweepStartAccepted(response, draw);
      } else {
        SetKindFlag(t.kind, true);
        if t.kind == C.Transmitter {
          SetKindFlag(C.Transmitter, false);
        }
        Return(C.Failure(C.StartFailure(t.kind)));
      }
    }

    method SweepStartAccepted(response: seq<Byte>, draw: real)
      requires CanAnswerStart(Snapshot(), response, draw) && phase.test.sweep && ReportSuccess(response)
      modifies this, packetsReceivedForChannel
      ensures Snapshot() == StartAnswered(old(Snapshot()), response, draw)
      ensures packetsReceivedForChannel == old(packetsReceivedForChannel)
    {
      ghost var s0 := Snapshot();
      var t, idx, w := phase.test, phase.idx, phase.waiter;
      SetKindFlag(t.kind, true);
      Notify(Started(t.kind, t.low + idx));
      ArmStep(t);
      ghost var s3 := Snapshot();
      assert s3 == StepArmed(Notified(s0.(guards := SetFlag(s0.guards, t.kind, true)), Started(t.kind, t.low + idx)), t);
      AwaitEndEvent(t, idx, w.value, draw);
      assert Snapshot() == EndAwaited(s3, t, idx, w.value, draw);
    }

    /**
     * The response to an End command arrives: the installed resolver, if any, is called
     * with success and the decoded count; a resolver already called changes nothing.
     */
    method OnEndResponse(response: seq<Byte>, draw: real)
      requires Valid() && pendingEnds > 0 && |response| == 2 && 0.0 <= draw < 1.0
      modifies this, packetsReceivedForChannel
      ensures Snapshot() == EndAnswered(old(Snapshot()), response, draw)
      ensures Valid() && packetsReceivedForChannel == old(packetsReceivedForChannel)
    {
      EndAnsweredInv(Snapshot(), response, draw);
      ContinueEndCurrentTest(response, draw);
    }

    /** The rest of endCurrentTest once its End command's response has arrived. */
    method ContinueEndCurrentTest(response: seq<Byte>, draw: real)
      requires CanAnswerEnd(Snapshot(), response, draw)
      modifies this, packetsReceivedForChannel
      ensures Snapshot() == EndAnswered(old(Snapshot()), response, draw)
      ensures packetsReceivedForChannel == old(packetsReceivedForChannel)
    {
      pendingEnds := pendingEnds - 1;
      if onEndEvent.None? || onEndEvent.value in endResults {
        return;
      }
      var status := C.EndStatus(true, C.PacketCount(response));
      var p := ResolveEndEvent(status);
      if phase.AwaitEnd? && phase.promise == p {
        EndOfStep(phase.test, phase.idx, status, draw);
      }
    }

    /** The whole-test timer fires. */
    method OnTimeout()
      requires Valid() && timeoutEvent.Some?
      modifies this
      ensures Snapshot() == MainTimerFired(old(Snapshot()))
      ensures Valid() && packetsReceivedForChannel == old(packetsReceivedForChannel)
    {
      MainTimerFiredInv(Snapshot());
      var kind := timeoutEvent.value;
      ClearTimeoutEvent();
      SetTimedOut(true);
      var active := if kind == C.Transmitter then isTransmitting else isReceiving;
      if active && !sweepTimedOut {
        EndCurrentTest();
      }
    }

    /** The per-step sweep timer fires. */
    method OnSweepTimeout()
      requires Valid() && sweepTimeoutEvent.Some?
      modifies this
      ensures Snapshot() == StepTimerFired(old(Snapshot()))
      ensures Valid() && packetsReceivedForChannel == old(packetsReceivedForChannel)
    {
      StepTimerFiredInv(Snapshot());
      var kind := sweepTimeoutEvent.value;
      EndSweepTimeoutEvent();
      SetSweepTimedOut(true);
      var active := if kind == C.Transmitter then isTransmitting else isReceiving;
      if active && !timedOut {
        EndCurrentTest();
      }
    }

    /** endTest. */
    method EndTest()
      requires Valid()
      modifies this
      ensures Snapshot() == EndTestCalled(old(Snapshot()))
      ensures Valid() && packetsReceivedForChannel == old(packetsReceivedForChannel)
    {
      EndTestCalledInv(Snapshot());
      if timedOut {
        return;
      }
      SetTimedOut(true);
      ClearTimeoutEvent();
      if !sweepTimedOut && (isTransmitting || isReceiving) {
        EndCurrentTest();
      }
    }

    // -------------------------------------------------------------------------
    // The setters, up to the await of their command's response
    // -------------------------------------------------------------------------

    /** setTxPower. */
    method SetTxPower(dbm: Option<int>)
      requires Valid()
      modifies this
      ensures Snapshot() == TxPowerSet(old(Snapshot()), dbm)
      ensures Valid() && packetsReceivedForChannel == old(packetsReceivedForChannel)
    {
      ghost var s0 := Snapshot();
      dbmPayload := C.OrStored(dbm, dbmPayload);
      var cmd := DtmObject.TxPowerCommand(dbmPayload);
      ConfigurationKeepsInv(s0, Snapshot().defaults, cmd);
      SendCmd(cmd);
    }

    /** selectTimer. */
    method SelectTimer(timer: Option<int>)
      requires Valid() && 0 <= C.OrStored(timer, selectedTimer) < 64
      modifies this
      ensures Snapshot() == TimerSelected(old(Snapshot()), timer)
      ensures Valid() && packetsReceivedForChannel == old(packetsReceivedForChannel)
    {
      ghost var s0 := Snapshot();
      selectedTimer := C.OrStored(timer, selectedTimer);
      var cmd := DtmObject.SelectTimerCommand(selectedTimer);
      ConfigurationKeepsInv(s0, Snapshot().defaults, cmd);
      SendCmd(cmd);
    }

    /** setupReset. */
    method SetupReset()
      requires Valid()
      modifies this
      ensures Snapshot() == ResetSent(old(Snapshot()))
      ensures Valid() && packetsReceivedForChannel == old(packetsReceivedForChannel)
    {
      ghost var s0 := Snapshot();
      var cmd := DtmObject.SetupCommand(ControlReset, ParameterDefault);
      ConfigurationKeepsInv(s0, Snapshot().defaults, cmd);
      SendCmd(cmd);
    }

    /** setupLength. */
    method SetupLength(length: Option<int>)
      requires Valid() && 0 <= C.OrStored(length, lengthPayload) < 4096
      modifies this
      ensures Snapshot() == LengthSet(old(Snapshot()), length)
      ensures Valid() && packetsReceivedForChannel == old(packetsReceivedForChannel)
    {
      ghost var s0 := Snapshot();
      lengthPayload := C.OrStored(length, lengthPayload);
      var lengthBits := C.LengthBits(lengthPayload);
      var cmd := DtmObject.SetupCommand(ControlEnableLength, lengthBits);
      ConfigurationKeepsInv(s0, Snapshot().defaults, cmd);
      SendCmd(cmd);
    }

    /** setupPhy. */
    method SetupPhy(phy: Option<int>)
      requires Valid() && 0 <= C.OrStored(phy, phyPayload) < 64
      modifies this
      ensures Snapshot() == PhySet(old(Snapshot()), phy)
      ensures Valid() && packetsReceivedForChannel == old(packetsReceivedForChannel)
    {
      ghost var s0 := Snapshot();
      phyPayload := C.OrStored(phy, phyPayload);
      var cmd := DtmObject.SetupCommand(ControlPhy, phyPayload);
      ConfigurationKeepsInv(s0, Snapshot().defaults, cmd);
      SendCmd(cmd);
    }

    /** setupModulation. */
    method SetupModulation(modulation: Option<int>)
      requires Valid() && 0 <= C.OrStored(modulation, modulationPayload) < 64
      modifies this
      ensures Snapshot() == ModulationSet(old(Snapshot()), modulation)
      ensures Valid() && packetsReceivedForChannel == old(packetsReceivedForChannel)
    {
      ghost var s0 := Snapshot();
      modulationPayload := C.OrStored(modulation, modulationPayload);
      var cmd := DtmObject.SetupCommand(ControlModulation, modulationPayload);
      ConfigurationKeepsInv(s0, Snapshot().defaults, cmd);
      SendCmd(cmd);
    }

    /** setupReadFeatures. */
    method SetupReadFeatures()
      requires Valid()
      modifies this
      ensures Snapshot() == FeaturesRead(old(Snapshot()))
      ensures Valid() && packetsReceivedForChannel == old(packetsReceivedForChannel)
    {
      ghost var s0 := Snapshot();
      var cmd := DtmObject.SetupCommand(ControlFeatures, 0);
      ConfigurationKeepsInv(s0, Snapshot().defaults, cmd);
      SendCmd(cmd);
    }

    /** setupReadSupportedRxTx. */
    method SetupReadSupportedRxTx(parameter: int)
      requires Valid() && 0 <= parameter < 64
      modifies this
      ensures Snapshot() == SupportedRxTxRead(old(Snapshot()), parameter)
      ensures Valid() && packetsReceivedForChannel == old(packetsReceivedForChannel)
    {
      ghost var s0 := Snapshot();
      var cmd := DtmObject.SetupCommand(ControlTxRx, parameter);
      ConfigurationKeepsInv(s0, Snapshot().defaults, cmd);
      SendCmd(cmd);
    }
  }
}
