/**
 * Class DTM$1 of dist/nrf-dtm.js, the bundled older controller, as a value of type State
 * with one transition function per event. Class BundleDtm (module BundleObject) has the
 * source's fields and performs exactly these transitions.
 *
 * It shares channelToFrequency, the packet-count decode, carrierTestCMD, the sweep index
 * arithmetic and the setters' commands with src/DTM.js, whose models in module Controller
 * are reused. It differs in these ways:
 *  - reportSuccess reads bit 0 of the first byte without checking the response;
 *  - the resolver installed as onEndEvent stays installed after it has been called;
 *  - each sweep step re-issues the setup commands, one await each, before its start command;
 *  - the receiver sweep counts into an array of high - low + 1 slots indexed by the offset;
 *  - the procedures report their progress to a list of listeners.
 */
module BundleController {
  import opened Basics
  import opened Bits
  import opened Codec
  import C = Controller
  import BundleCodec

  type Kind = C.Kind
  type Test = C.Test
  type EndStatus = C.EndStatus
  type Outcome = C.Outcome
  type Defaults = C.Defaults

  /**
   * reportSuccess: bit 0 of the first byte is the error flag. There is no check that a
   * response is present or two bytes long.
   */
  function ReportSuccess(report: seq<Byte>): (success: bool)
    requires |report| >= 1
    ensures success <==> report[0] % 2 == 0
  {
    C.AndOne(report[0]);
    And(report[0], 0x01) == 0
  }

  /**
   * On the two-byte responses the transport delivers the two versions agree; on a
   * response of another length only the bundled one can report success.
   */
  lemma ReportSuccessVariants(report: seq<Byte>)
    requires |report| >= 1
    ensures |report| == 2 ==> (ReportSuccess(report) <==> C.ReportSuccess(Some(report)))
    ensures |report| != 2 ==> !C.ReportSuccess(Some(report))
    ensures |report| != 2 && report[0] % 2 == 0 ==> ReportSuccess(report)
  {
  }

  // ---------------------------------------------------------------------------
  // Listeners
  // ---------------------------------------------------------------------------

  /** The objects the procedures pass to `callback`. */
  datatype Event =
    | Reset
    | Started(kind: Kind, channel: int)
    | Ended(kind: Kind, channel: int, packets: Option<nat>)

  /** One call of a registered listener (listeners are numbered in registration order). */
  datatype Delivery = Delivery(listener: nat, event: Event)

  /**
   * `listeners.forEach(listener => listener(event))`: every registered listener receives
   * the event exactly once, in registration order.
   */
  function FanOut(listeners: seq<nat>, e: Event): (r: seq<Delivery>)
    ensures |r| == |listeners|
    ensures forall i :: 0 <= i < |listeners| ==> r[i] == Delivery(listeners[i], e)
  {
    if listeners == [] then [] else [Delivery(listeners[0], e)] + FanOut(listeners[1..], e)
  }

  /** A listener added last is called last. */
  lemma {:induction false} FanOutAppend(listeners: seq<nat>, l: nat, e: Event)
    ensures FanOut(listeners + [l], e) == FanOut(listeners, e) + [Delivery(l, e)]
  {
    if listeners == [] {
      assert [l][1..] == [];
    } else {
      assert (listeners + [l])[1..] == listeners[1..] + [l];
      FanOutAppend(listeners[1..], l, e);
    }
  }

  // ---------------------------------------------------------------------------
  // The controller's state
  // ---------------------------------------------------------------------------

  /** The four flags and the two armed timeouts, with the kind whose flag their callback reads. */
  datatype Guards = Guards(isTransmitting: bool, isReceiving: bool, timedOut: bool, sweepTimedOut: bool,
                           mainTimer: Option<Kind>, stepTimer: Option<Kind>)

  /** The promise whose resolver is installed as onEndEvent, and what each promise resolved with. */
  datatype Promises = Promises(onEndEvent: Option<nat>, endResults: map<nat, EndStatus>, nextPromise: nat)

  /** The setup commands a sweep step re-issues. */
  datatype Setup = ResetStep | TimerStep | TxPowerStep | LengthStep | ModulationStep | PhyStep

  /**
   * Where the running procedure is suspended: at the await of setup command number `done`
   * of its step, of its start command's response, or of the end-of-step promise.
   */
  datatype Phase =
    | Idle
    | AwaitSetup(test: Test, idx: int, done: nat)
    | AwaitStart(test: Test, idx: int, waiter: Option<nat>)
    | AwaitEnd(test: Test, idx: int, promise: nat)

  /**
   * The controller. `counts` is the receiver sweep's array, `result` what the last
   * procedure returned, `sent` every command handed to the transport, `pendingEnds` the
   * End commands whose response has not arrived, `deliveries` every listener call.
   */
  datatype State = State(defaults: Defaults, guards: Guards, promises: Promises, phase: Phase,
                         counts: seq<nat>, result: Option<Outcome>, sent: seq<seq<Byte>>, pendingEnds: nat,
                         listeners: seq<nat>, deliveries: seq<Delivery>)

  function Flag(g: Guards, k: Kind): bool {
    if k == C.Transmitter then g.isTransmitting else g.isReceiving
  }

  function SetFlag(g: Guards, k: Kind, b: bool): Guards {
    if k == C.Transmitter then g.(isTransmitting := b) else g.(isReceiving := b)
  }

  /** The constructor: the same defaults as src, all flags false, no listeners. */
  function Initial(): State {
    State(C.Defaults(1, StandardModulationIndex, PhyLe1M, 0, 0),
          Guards(false, false, false, false, None, None),
          Promises(None, map[], 0),
          Idle, [], None, [], 0, [], [])
  }

  /** `callback(event)`. */
  function Notified(s: State, e: Event): State {
    s.(deliveries := s.deliveries + FanOut(s.listeners, e))
  }

  /** addListener. */
  function ListenerAdded(s: State, l: nat): State {
    s.(listeners := s.listeners + [l])
  }

  /** endEventDataReceived: a fresh promise whose resolver becomes onEndEvent. */
  function Installed(pr: Promises): Promises {
    pr.(onEndEvent := Some(pr.nextPromise), nextPromise := pr.nextPromise + 1)
  }

  /**
   * The command that starts step idx, as in src: StepCommandBuilt shows it is what
   * carrierTestCMD and the bundled createReceiverCMD build.
   */
  function StepCommand(t: Test, idx: int): seq<Byte>
    requires C.InRange(t, idx)
  {
    C.StepCommand(t, idx)
  }

  lemma StepCommandBuilt(t: Test, idx: int)
    requires C.InRange(t, idx)
    ensures var frequency := C.ChannelToFrequency(t.low + idx);
      StepCommand(t, idx) == if t.kind == C.Transmitter then C.CarrierTestCmd(frequency, t.length, t.bitpattern)
                             else BundleCodec.CreateReceiverCmd(frequency)
  {
    if t.kind == C.Transmitter {
      C.TransmitterStepBuilt(t.low + idx, t.length, t.bitpattern);
    }
  }

  /** endCurrentTest up to its await: the End command is sent. */
  function WithEnd(s: State): State {
    s.(sent := s.sent + [C.EndCommand], pendingEnds := s.pendingEnds + 1)
  }

  /** The procedure clears its whole-test timeout and returns o. */
  function Returned(s: State, o: Outcome): State {
    s.(guards := s.guards.(mainTimer := None), phase := Idle, result := Some(o))
  }

  // ---------------------------------------------------------------------------
  // The setters: as in src, each stores its argument or keeps the stored value, and
  // sends one command.
  // ---------------------------------------------------------------------------

  function TxPowerSet(s: State, dbm: Option<int>): State {
    var v := C.OrStored(dbm, s.defaults.dbmPayload);
    s.(defaults := s.defaults.(dbmPayload := v), sent := s.sent + [[0x80 + v % 64, 0x0B]])
  }

  function TimerSelected(s: State, timer: Option<int>): State
    requires 0 <= C.OrStored(timer, s.defaults.selectedTimer) < 64
  {
    var v := C.OrStored(timer, s.defaults.selectedTimer);
    s.(defaults := s.defaults.(selectedTimer := v), sent := s.sent + [[0x80 + v, 0x0F]])
  }

  function ResetSent(s: State): State {
    s.(sent := s.sent + [[0x00, 0x00]])
  }

  function LengthSet(s: State, length: Option<int>): State
    requires 0 <= C.OrStored(length, s.defaults.lengthPayload) < 4096
  {
    var v := C.OrStored(length, s.defaults.lengthPayload);
    s.(defaults := s.defaults.(lengthPayload := v), sent := s.sent + [[0x01, v / 64 * 4]])
  }

  function PhySet(s: State, phy: Option<int>): State
    requires 0 <= C.OrStored(phy, s.defaults.phyPayload) < 64
  {
    var v := C.OrStored(phy, s.defaults.phyPayload);
    s.(defaults := s.defaults.(phyPayload := v), sent := s.sent + [[0x02, v * 4]])
  }

  function ModulationSet(s: State, modulation: Option<int>): State
    requires 0 <= C.OrStored(modulation, s.defaults.modulationPayload) < 64
  {
    var v := C.OrStored(modulation, s.defaults.modulationPayload);
    s.(defaults := s.defaults.(modulationPayload := v), sent := s.sent + [[0x03, v * 4]])
  }

  function FeaturesRead(s: State): State {
    s.(sent := s.sent + [[0x04, 0x00]])
  }

  function SupportedRxTxRead(s: State, parameter: int): State
    requires 0 <= parameter < 64
  {
    s.(sent := s.sent + [[0x05, parameter * 4]])
  }

  // ---------------------------------------------------------------------------
  // A sweep step's setup
  // ---------------------------------------------------------------------------

  /**
   * The setup a sweep step re-issues, in order: reset, selectTimer, setTxPower (transmitter
   * only), setupLength (transmitter only), setupModulation, setupPhy.
   */
  function SetupOrder(k: Kind): seq<Setup> {
    if k == C.Transmitter then [ResetStep, TimerStep, TxPowerStep, LengthStep, ModulationStep, PhyStep]
    else [ResetStep, TimerStep, ModulationStep, PhyStep]
  }

  /** One setup step: its setter called with no argument. */
  function SetupIssued(s: State, st: Setup): State
    requires C.DefaultsOk(s.defaults)
  {
    match st
    case ResetStep => ResetSent(s)
    case TimerStep => TimerSelected(s, None)
    case TxPowerStep => TxPowerSet(s, None)
    case LengthStep => LengthSet(s, None)
    case ModulationStep => ModulationSet(s, None)
    case PhyStep => PhySet(s, None)
  }

  /** The command of a setup step for the stored values d. */
  function SetupCommand(d: Defaults, st: Setup): seq<Byte>
    requires C.DefaultsOk(d)
  {
    match st
    case ResetStep => [0x00, 0x00]
    case TimerStep => [0x80 + d.selectedTimer, 0x0F]
    case TxPowerStep => [0x80 + d.dbmPayload % 64, 0x0B]
    case LengthStep => [0x01, d.lengthPayload / 64 * 4]
    case ModulationStep => [0x03, d.modulationPayload * 4]
    case PhyStep => [0x02, d.phyPayload * 4]
  }

  /** The commands of a list of setup steps, in order. */
  function SetupCommands(d: Defaults, steps: seq<Setup>): seq<seq<Byte>>
    requires C.DefaultsOk(d)
  {
    if steps == [] then [] else [SetupCommand(d, steps[0])] + SetupCommands(d, steps[1..])
  }

  /** Called without an argument, a setter keeps every stored value and only sends. */
  lemma SetupIssuedSends(s: State, st: Setup)
    requires C.DefaultsOk(s.defaults)
    ensures SetupIssued(s, st) == s.(sent := s.sent + [SetupCommand(s.defaults, st)])
  {
  }

  /**
   * The head of one sweep iteration: clear sweepTimedOut and the kind's flag, send the
   * first setup command.
   */
  function StepBegun(s: State, t: Test, idx: int): (r: State)
    requires C.InRange(t, idx) && C.DefaultsOk(s.defaults)
    ensures r.phase == AwaitSetup(t, idx, 0) && r.sent == s.sent + [SetupCommand(s.defaults, ResetStep)]
    ensures !Flag(r.guards, t.kind) && !r.guards.sweepTimedOut
    ensures r.defaults == s.defaults && r.promises == s.promises && r.counts == s.counts && r.pendingEnds == s.pendingEnds
  {
    var s1 := s.(guards := SetFlag(s.guards, t.kind, false).(sweepTimedOut := false));
    SetupIssued(s1, SetupOrder(t.kind)[0]).(phase := AwaitSetup(t, idx, 0))
  }

  predicate CanAnswerSetup(s: State) {
    && s.phase.AwaitSetup? && C.InRange(s.phase.test, s.phase.idx)
    && s.phase.done < |SetupOrder(s.phase.test.kind)| && C.DefaultsOk(s.defaults)
  }

  /**
   * The response to setup command `done` arrives: the next setup command is sent, or,
   * after the last one, the end-of-step promise is created and the start command sent.
   */
  function SetupAnswered(s: State): (r: State)
    requires CanAnswerSetup(s)
    ensures var t, idx, done := s.phase.test, s.phase.idx, s.phase.done;
      done + 1 < |SetupOrder(t.kind)| ==>
        r.phase == AwaitSetup(t, idx, done + 1) && r.sent == s.sent + [SetupCommand(s.defaults, SetupOrder(t.kind)[done + 1])]
    ensures var t, idx, done := s.phase.test, s.phase.idx, s.phase.done;
      done + 1 == |SetupOrder(t.kind)| ==>
        && r.phase == AwaitStart(t, idx, Some(s.promises.nextPromise)) && r.promises.onEndEvent == r.phase.waiter
        && r.sent == s.sent + [StepCommand(t, idx)]
    ensures r.defaults == s.defaults && r.pendingEnds == s.pendingEnds
  {
    var t, idx, done := s.phase.test, s.phase.idx, s.phase.done;
    if done + 1 < |SetupOrder(t.kind)| then
      SetupIssued(s, SetupOrder(t.kind)[done + 1]).(phase := AwaitSetup(t, idx, done + 1))
    else
      s.(promises := Installed(s.promises), phase := AwaitStart(t, idx, Some(s.promises.nextPromise)),
         sent := s.sent + [StepCommand(t, idx)])
  }

  // ---------------------------------------------------------------------------
  // The procedures and the events
  // ---------------------------------------------------------------------------

  /** The receiver sweep's array has one slot per channel of its range. */
  predicate CountsOk(t: Test, counts: seq<nat>) {
    t.sweep && t.kind == C.Receiver ==> |counts| == t.high - t.low + 1
  }

  /** The next sweep offset (the same arithmetic as src). */
  function NextIndex(t: Test, idx: int, draw: real): (r: int)
    requires C.ValidTest(t) && 0 <= idx && 0.0 <= draw < 1.0
    ensures 0 <= r <= t.high - t.low
  {
    C.NextIndex(t, idx, draw)
  }

  /** The bottom of a successful sweep iteration: advance, then loop or return. */
  function SweepStepEnded(s: State, t: Test, idx: int, draw: real): State
    requires C.InRange(t, idx) && C.DefaultsOk(s.defaults) && 0.0 <= draw < 1.0
  {
    var next := NextIndex(t, idx, draw);
    if Flag(s.guards, t.kind) && !s.guards.timedOut then StepBegun(s, t, next)
    else if t.kind == C.Receiver then Returned(s, C.SweepResult(C.Sum(s.counts), Some(s.counts)))
    else Returned(s, C.SweepResult(0, None))
  }

  /** The packets an 'ended' event reports: the receiver's count, nothing for a transmitter. */
  function EndedPackets(k: Kind, status: EndStatus): Option<nat> {
    if k == C.Receiver then Some(status.received) else None
  }

  /** The procedure's code after its end-of-step promise resolved with status. */
  function StepEnded(s: State, t: Test, idx: int, status: EndStatus, draw: real): (r: State)
    requires C.InRange(t, idx) && CountsOk(t, s.counts) && C.DefaultsOk(s.defaults) && 0.0 <= draw < 1.0
    ensures !t.sweep ==> r.phase == Idle && r.result == Some(C.Status(status))
    ensures t.sweep && !status.success ==> r.phase == Idle && r.result == Some(C.Failure(C.EndFailure(t.kind)))
    ensures r.phase == Idle || (t.sweep && status.success && r.phase.AwaitSetup? && r.phase.test == t)
    ensures r.defaults == s.defaults && r.pendingEnds == s.pendingEnds && r.promises == s.promises
  {
    var ended := Ended(t.kind, t.low + idx, EndedPackets(t.kind, status));
    if !t.sweep then Returned(Notified(s, ended), C.Status(status))
    else
      var g := s.guards.(stepTimer := None);
      if !status.success then
        var g' := if t.kind == C.Transmitter then g.(isTransmitting := false) else g;
        Returned(s.(guards := g'), C.Failure(C.EndFailure(t.kind)))
      else SweepStepEnded(Notified(Counted(s.(guards := g), t, idx, status.received), ended), t, idx, draw)
  }

  /** A receiver sweep adds the step's count to slot idx; a transmitter sweep counts nothing. */
  function Counted(s: State, t: Test, idx: int, received: nat): State
    requires C.InRange(t, idx) && CountsOk(t, s.counts) && t.sweep
  {
    if t.kind == C.Receiver then s.(counts := s.counts[idx := s.counts[idx] + received]) else s
  }

  /** `await` on the end-of-step promise p: continue at once if it has already resolved. */
  function EndAwaited(s: State, t: Test, idx: int, p: nat, draw: real): State
    requires C.InRange(t, idx) && CountsOk(t, s.counts) && C.DefaultsOk(s.defaults) && 0.0 <= draw < 1.0
  {
    if p in s.promises.endResults then StepEnded(s, t, idx, s.promises.endResults[p], draw)
    else s.(phase := AwaitEnd(t, idx, p))
  }

  /** One of the four test procedures up to its first await. */
  function TestStarted(s: State, t: Test, timeout: int): (r: State)
    requires s.phase == Idle && C.ValidTest(t) && C.DefaultsOk(s.defaults)
    ensures r.result.None? && !r.guards.timedOut && (r.guards.mainTimer.Some? <==> timeout > 0)
    ensures r.deliveries == s.deliveries + FanOut(s.listeners, Reset)
    ensures !t.sweep ==> r.phase.AwaitStart? && r.phase.test == t && r.phase.idx == 0 && r.sent == s.sent + [StepCommand(t, 0)]
    ensures t.sweep ==> r.phase == AwaitSetup(t, 0, 0) && r.sent == s.sent + [SetupCommand(s.defaults, ResetStep)]
    ensures r.defaults == s.defaults && r.pendingEnds == s.pendingEnds
  {
    var g := s.guards.(timedOut := false, mainTimer := if timeout > 0 then Some(t.kind) else None);
    var s0 := Notified(s.(result := None, guards := g), Reset);
    if !t.sweep then SingleStarted(s0, t) else SweepStarted(s0, t)
  }

  function SingleStarted(s: State, t: Test): (r: State)
    requires C.ValidTest(t)
    ensures r.phase.AwaitStart? && r.phase.test == t && r.phase.idx == 0 && r.sent == s.sent + [StepCommand(t, 0)]
    ensures r.result == s.result && r.deliveries == s.deliveries && r.defaults == s.defaults && r.pendingEnds == s.pendingEnds
    ensures r.guards.timedOut == s.guards.timedOut && r.guards.mainTimer == s.guards.mainTimer
  {
    var s1 := s.(guards := SetFlag(s.guards, t.kind, true).(sweepTimedOut := false), sent := s.sent + [StepCommand(t, 0)]);
    if t.kind == C.Transmitter then s1.(phase := AwaitStart(t, 0, None))
    else s1.(promises := Installed(s.promises), phase := AwaitStart(t, 0, Some(s.promises.nextPromise)))
  }

  /** A sweep: the receiver's array is `new Array(channelHigh - channelLow + 1).fill(0)`. */
  function SweepStarted(s: State, t: Test): (r: State)
    requires C.ValidTest(t) && C.DefaultsOk(s.defaults)
    ensures r.phase == AwaitSetup(t, 0, 0) && r.sent == s.sent + [SetupCommand(s.defaults, ResetStep)]
    ensures r.result == s.result && r.deliveries == s.deliveries && r.defaults == s.defaults && r.pendingEnds == s.pendingEnds
    ensures r.guards.timedOut == s.guards.timedOut && r.guards.mainTimer == s.guards.mainTimer
  {
    var s1 := s.(guards := SetFlag(s.guards, t.kind, false));
    var s2 := if t.kind == C.Receiver then s1.(counts := seq(t.high - t.low + 1, _ => 0)) else s1;
    StepBegun(s2, t, 0)
  }

  /** transmitterTest: a single-channel test with a 1000 ms timeout, or nothing at all. */
  function TransmitterTestCalled(s: State, bitpattern: nat, length: int, useSingleChannel: bool, channel: int): State
    requires s.phase == Idle && C.IsChannel(channel) && bitpattern < 4 && C.DefaultsOk(s.defaults)
  {
    if useSingleChannel then TestStarted(s, C.Test(C.Transmitter, false, channel, channel, bitpattern, length, 0, false), 1000)
    else s
  }

  predicate CanAnswerStart(s: State, resp: seq<Byte>, draw: real) {
    && s.phase.AwaitStart? && C.InRange(s.phase.test, s.phase.idx) && CountsOk(s.phase.test, s.counts)
    && (s.phase.test.sweep || s.phase.test.kind == C.Receiver ==> s.phase.waiter.Some?)
    && C.DefaultsOk(s.defaults) && |resp| == 2 && 0.0 <= draw < 1.0
  }

  /** The await of a start command's response completes. */
  function StartAnswered(s: State, resp: seq<Byte>, draw: real): (r: State)
    requires CanAnswerStart(s, resp, draw)
    ensures !ReportSuccess(resp) ==>
      && r.phase == Idle && r.result == Some(C.Failure(C.StartFailure(s.phase.test.kind)))
      && r.sent == s.sent && r.promises == s.promises && r.deliveries == s.deliveries && r.pendingEnds == s.pendingEnds
    ensures ReportSuccess(resp) && !s.phase.test.sweep && s.phase.test.kind == C.Transmitter ==>
      && r.phase == AwaitEnd(s.phase.test, s.phase.idx, s.promises.nextPromise)
      && r.promises.onEndEvent == Some(s.promises.nextPromise) && r.sent == s.sent
      && r.deliveries == s.deliveries + FanOut(s.listeners, Started(C.Transmitter, s.phase.test.low + s.phase.idx))
    ensures r.defaults == s.defaults
  {
    var t, idx, w := s.phase.test, s.phase.idx, s.phase.waiter;
    var started := Started(t.kind, t.low + idx);
    if !t.sweep then
      if !ReportSuccess(resp) then Returned(s, C.Failure(C.StartFailure(t.kind)))
      else
        var s1 := Notified(s, started);
        if t.kind == C.Transmitter then
          s1.(promises := Installed(s1.promises), phase := AwaitEnd(t, idx, s1.promises.nextPromise))
        else EndAwaited(s1, t, idx, w.value, draw)
    else
      var g := SetFlag(s.guards, t.kind, true);
      if !ReportSuccess(resp) then
        var g' := if t.kind == C.Transmitter then g.(isTransmitting := false) else g;
        Returned(s.(guards := g'), C.Failure(C.StartFailure(t.kind)))
      else EndAwaited(StepArmed(Notified(s.(guards := g), started), t), t, idx, w.value, draw)
  }

  /**
   * After a sweep step started: arm the per-step timer, clear sweepTimedOut, and end the
   * step at once if the whole test has already timed out.
   */
  function StepArmed(s: State, t: Test): State {
    var s1 := s.(guards := s.guards.(stepTimer := if t.sweepTime > 0 then Some(t.kind) else None, sweepTimedOut := false));
    if s1.guards.timedOut then WithEnd(s1) else s1
  }

  predicate CanAnswerEnd(s: State, resp: seq<Byte>, draw: real) {
    && s.pendingEnds > 0 && |resp| == 2 && C.DefaultsOk(s.defaults) && 0.0 <= draw < 1.0
    && (s.phase.AwaitEnd? ==> C.InRange(s.phase.test, s.phase.idx) && CountsOk(s.phase.test, s.counts))
  }

  /**
   * The response to an End command arrives and endCurrentTest continues: the installed
   * resolver, if any, is called with success and the decoded count. It is not
   * uninstalled, and calling it for a promise that has already resolved changes nothing.
   */
  function EndAnswered(s: State, resp: seq<Byte>, draw: real): (r: State)
    requires CanAnswerEnd(s, resp, draw)
    ensures r.pendingEnds == s.pendingEnds - 1 && r.defaults == s.defaults
    ensures s.promises.onEndEvent.None? || s.promises.onEndEvent.value in s.promises.endResults ==>
      r == s.(pendingEnds := s.pendingEnds - 1)
    ensures s.promises.onEndEvent.Some? && s.promises.onEndEvent.value !in s.promises.endResults ==>
      && r.promises.onEndEvent == s.promises.onEndEvent
      && r.promises.endResults == s.promises.endResults[s.promises.onEndEvent.value := C.EndStatus(true, C.PacketCount(resp))]
  {
    var s1 := s.(pendingEnds := s.pendingEnds - 1);
    var pr := s.promises;
    if pr.onEndEvent.None? || pr.onEndEvent.value in pr.endResults then s1
    else
      var p := pr.onEndEvent.value;
      var status := C.EndStatus(true, C.PacketCount(resp));
      var s2 := s1.(promises := pr.(endResults := pr.endResults[p := status]));
      if s.phase.AwaitEnd? && s.phase.promise == p then StepEnded(s2, s.phase.test, s.phase.idx, status, draw)
      else s2
  }

  /** The callback of startTimeoutEvent. */
  function MainTimerFired(s: State): (r: State)
    requires s.guards.mainTimer.Some?
    ensures r.guards.timedOut && r.guards.mainTimer.None? && r.phase == s.phase && r.promises == s.promises
    ensures r.defaults == s.defaults && (r.sent == s.sent || r.sent == s.sent + [C.EndCommand])
  {
    var g := s.guards.(mainTimer := None, timedOut := true);
    var s1 := s.(guards := g);
    if Flag(g, s.guards.mainTimer.value) && !g.sweepTimedOut then WithEnd(s1) else s1
  }

  /** The callback of startSweepTimeoutEvent. */
  function StepTimerFired(s: State): (r: State)
    requires s.guards.stepTimer.Some?
    ensures r.guards.sweepTimedOut && r.guards.stepTimer.None? && r.phase == s.phase && r.promises == s.promises
    ensures r.defaults == s.defaults && (r.sent == s.sent || r.sent == s.sent + [C.EndCommand])
  {
    var g := s.guards.(stepTimer := None, sweepTimedOut := true);
    var s1 := s.(guards := g);
    if Flag(g, s.guards.stepTimer.value) && !g.timedOut then WithEnd(s1) else s1
  }

  /** endTest. */
  function EndTestCalled(s: State): (r: State)
    ensures r.guards.timedOut && r.phase == s.phase && r.promises == s.promises && r.defaults == s.defaults
    ensures r.sent == s.sent || r.sent == s.sent + [C.EndCommand]
    ensures s.guards.timedOut ==> r == s
  {
    if s.guards.timedOut then s
    else
      var g := s.guards.(timedOut := true, mainTimer := None);
      var s1 := s.(guards := g);
      if !g.sweepTimedOut && (g.isTransmitting || g.isReceiving) then WithEnd(s1) else s1
  }

  // ---------------------------------------------------------------------------
  // Invariants
  // ---------------------------------------------------------------------------

  /** Every promise handed out is numbered below nextPromise and resolves with success. */
  predicate PromisesOk(pr: Promises) {
    && (pr.onEndEvent.Some? ==> pr.onEndEvent.value < pr.nextPromise)
    && (forall p :: p in pr.endResults ==> p < pr.nextPromise && pr.endResults[p].success)
  }

  /** An armed timer has not fired yet. */
  predicate GuardsOk(g: Guards) {
    (g.mainTimer.Some? ==> !g.timedOut) && (g.stepTimer.Some? ==> !g.sweepTimedOut)
  }

  /** Only a start command can make a procedure fail. */
  predicate ResultOk(r: Option<Outcome>) {
    r.Some? && r.value.Failure? ==> r.value.message == C.StartTransmitterFailure || r.value.message == C.StartReceiverFailure
  }

  predicate Core(s: State) {
    C.DefaultsOk(s.defaults) && PromisesOk(s.promises) && GuardsOk(s.guards) && ResultOk(s.result)
  }

  /**
   * What each phase implies: no timer outlives a procedure, the step timer runs only
   * while a step awaits its end, a sweep's setup awaits a step that exists, and the
   * awaited end-of-step promise is the installed, unresolved one.
   */
  predicate PhaseOk(s: State) {
    var g, pr := s.guards, s.promises;
    match s.phase
    case Idle => g.mainTimer.None? && g.stepTimer.None?
    case AwaitSetup(t, idx, done) =>
      C.InRange(t, idx) && t.sweep && done < |SetupOrder(t.kind)| && g.stepTimer.None? && CountsOk(t, s.counts)
    case AwaitStart(t, idx, w) =>
      && C.InRange(t, idx) && g.stepTimer.None? && CountsOk(t, s.counts)
      && (w.Some? <==> t.sweep || t.kind == C.Receiver)
      && (w.Some? ==> pr.onEndEvent == w)
    case AwaitEnd(t, idx, p) =>
      && C.InRange(t, idx) && CountsOk(t, s.counts)
      && (g.stepTimer.Some? ==> t.sweep)
      && pr.onEndEvent == Some(p) && p !in pr.endResults
  }

  predicate Inv(s: State) {
    Core(s) && PhaseOk(s)
  }

  lemma InitialInv()
    ensures Inv(Initial())
  {
  }

  /** Adding a listener, and notifying the listeners, keep the invariant. */
  lemma ListenersKeepInv(s: State, l: nat, e: Event)
    requires Inv(s)
    ensures Inv(ListenerAdded(s, l)) && Inv(Notified(s, e))
  {
  }

  /** The setters keep the invariant when the stored values fit their command fields. */
  lemma ConfigurationKeepsInv(s: State, d: Defaults, cmd: seq<Byte>)
    requires Inv(s) && C.DefaultsOk(d)
    ensures Inv(s.(defaults := d, sent := s.sent + [cmd]))
  {
  }

  lemma ReturnedInv(s: State, o: Outcome)
    requires Core(s) && s.guards.stepTimer.None? && ResultOk(Some(o))
    ensures Inv(Returned(s, o))
  {
  }

  lemma StepBegunInv(s: State, t: Test, idx: int)
    requires Core(s) && C.InRange(t, idx) && t.sweep && s.guards.stepTimer.None? && CountsOk(t, s.counts)
    ensures Inv(StepBegun(s, t, idx))
  {
    var s1 := s.(guards := SetFlag(s.guards, t.kind, false).(sweepTimedOut := false));
    SetupIssuedSends(s1, SetupOrder(t.kind)[0]);
  }

  lemma SweepStepEndedInv(s: State, t: Test, idx: int, draw: real)
    requires Core(s) && C.InRange(t, idx) && t.sweep && s.guards.stepTimer.None? && CountsOk(t, s.counts)
    requires 0.0 <= draw < 1.0
    ensures Inv(SweepStepEnded(s, t, idx, draw))
  {
    var next := NextIndex(t, idx, draw);
    if Flag(s.guards, t.kind) && !s.guards.timedOut {
      StepBegunInv(s, t, next);
    } else if t.kind == C.Receiver {
      ReturnedInv(s, C.SweepResult(C.Sum(s.counts), Some(s.counts)));
    } else {
      ReturnedInv(s, C.SweepResult(0, None));
    }
  }

  lemma StepEndedInv(s: State, t: Test, idx: int, status: EndStatus, draw: real)
    requires Core(s) && C.InRange(t, idx) && CountsOk(t, s.counts) && status.success && 0.0 <= draw < 1.0
    requires s.guards.stepTimer.Some? ==> t.sweep
    ensures Inv(StepEnded(s, t, idx, status, draw))
  {
    var ended := Ended(t.kind, t.low + idx, EndedPackets(t.kind, status));
    if !t.sweep {
      ReturnedInv(Notified(s, ended), C.Status(status));
    } else {
      SweepStepSucceededInv(s, t, idx, status, draw);
    }
  }

  lemma SweepStepSucceededInv(s: State, t: Test, idx: int, status: EndStatus, draw: real)
    requires Core(s) && C.InRange(t, idx) && CountsOk(t, s.counts) && status.success && 0.0 <= draw < 1.0
    requires t.sweep
    ensures Inv(StepEnded(s, t, idx, status, draw))
  {
    var ended := Ended(t.kind, t.low + idx, EndedPackets(t.kind, status));
    var g := s.guards.(stepTimer := None);
    var counts := if t.kind == C.Receiver then s.counts[idx := s.counts[idx] + status.received] else s.counts;
    var s1 := Notified(s.(guards := g, counts := counts), ended);
    SweepStepEndedInv(s1, t, idx, draw);
    assert StepEnded(s, t, idx, status, draw) == SweepStepEnded(s1, t, idx, draw);
  }

  lemma EndAwaitedInv(s: State, t: Test, idx: int, p: nat, draw: real)
    requires Core(s) && C.InRange(t, idx) && CountsOk(t, s.counts) && 0.0 <= draw < 1.0
    requires s.guards.stepTimer.Some? ==> t.sweep
    requires p in s.promises.endResults || s.promises.onEndEvent == Some(p)
    ensures Inv(EndAwaited(s, t, idx, p, draw))
  {
    if p in s.promises.endResults {
      StepEndedInv(s, t, idx, s.promises.endResults[p], draw);
    }
  }

  lemma TestStartedInv(s: State, t: Test, timeout: int)
    requires Inv(s) && s.phase == Idle && C.ValidTest(t)
    ensures Inv(TestStarted(s, t, timeout))
  {
    var g := s.guards.(timedOut := false, mainTimer := if timeout > 0 then Some(t.kind) else None);
    var s0 := Notified(s.(result := None, guards := g), Reset);
    assert Core(s0) && s0.guards.stepTimer.None?;
    if t.sweep {
      SweepStartedInv(s0, t);
    } else {
      SingleStartedInv(s0, t);
    }
  }

  lemma SingleStartedInv(s: State, t: Test)
    requires Core(s) && s.guards.stepTimer.None? && C.ValidTest(t) && !t.sweep
    ensures Inv(SingleStarted(s, t))
  {
  }

  lemma SweepStartedInv(s: State, t: Test)
    requires Core(s) && s.guards.stepTimer.None? && C.ValidTest(t) && t.sweep
    ensures Inv(SweepStarted(s, t))
  {
    var s1 := s.(guards := SetFlag(s.guards, t.kind, false));
    var s2 := if t.kind == C.Receiver then s1.(counts := seq(t.high - t.low + 1, _ => 0)) else s1;
    StepBegunInv(s2, t, 0);
  }

  lemma SetupAnsweredInv(s: State)
    requires Inv(s) && s.phase.AwaitSetup?
    ensures CanAnswerSetup(s) && Inv(SetupAnswered(s))
  {
    var t, idx, done := s.phase.test, s.phase.idx, s.phase.done;
    if done + 1 < |SetupOrder(t.kind)| {
      SetupIssuedSends(s, SetupOrder(t.kind)[done + 1]);
    }
  }

  lemma StartAnsweredInv(s: State, resp: seq<Byte>, draw: real)
    requires Inv(s) && s.phase.AwaitStart? && |resp| == 2 && 0.0 <= draw < 1.0
    ensures CanAnswerStart(s, resp, draw) && Inv(StartAnswered(s, resp, draw))
  {
    if !ReportSuccess(resp) {
      StartRefusedInv(s, resp, draw);
    } else if !s.phase.test.sweep {
      SingleStartAcceptedInv(s, resp, draw);
    } else {
      SweepStartAcceptedInv(s, resp, draw);
    }
  }

  lemma SingleStartAcceptedInv(s: State, resp: seq<Byte>, draw: real)
    requires Inv(s) && s.phase.AwaitStart? && |resp| == 2 && 0.0 <= draw < 1.0
    requires ReportSuccess(resp) && !s.phase.test.sweep
    ensures CanAnswerStart(s, resp, draw) && Inv(StartAnswered(s, resp, draw))
  {
    var t, idx, w := s.phase.test, s.phase.idx, s.phase.waiter;
    var s1 := Notified(s, Started(t.kind, t.low + idx));
    if t.kind == C.Receiver {
      EndAwaitedInv(s1, t, idx, w.value, draw);
      assert StartAnswered(s, resp, draw) == EndAwaited(s1, t, idx, w.value, draw);
    }
  }

  lemma SweepStartAcceptedInv(s: State, resp: seq<Byte>, draw: real)
    requires Inv(s) && s.phase.AwaitStart? && |resp| == 2 && 0.0 <= draw < 1.0
    requires ReportSuccess(resp) && s.phase.test.sweep
    ensures CanAnswerStart(s, resp, draw) && Inv(StartAnswered(s, resp, draw))
  {
    var t, idx, w := s.phase.test, s.phase.idx, s.phase.waiter;
    var s1 := Notified(s.(guards := SetFlag(s.guards, t.kind, true)), Started(t.kind, t.low + idx));
    assert Core(s1) && s1.counts == s.counts && s1.promises == s.promises;
    StepArmedCore(s1, t);
    EndAwaitedInv(StepArmed(s1, t), t, idx, w.value, draw);
    assert StartAnswered(s, resp, draw) == EndAwaited(StepArmed(s1, t), t, idx, w.value, draw);
  }

  lemma StepArmedCore(s: State, t: Test)
    requires Core(s)
    ensures var r := StepArmed(s, t);
      Core(r) && r.promises == s.promises && r.counts == s.counts && r.phase == s.phase
  {
  }

  lemma StartRefusedInv(s: State, resp: seq<Byte>, draw: real)
    requires Inv(s) && s.phase.AwaitStart? && |resp| == 2 && 0.0 <= draw < 1.0 && !ReportSuccess(resp)
    ensures CanAnswerStart(s, resp, draw) && Inv(StartAnswered(s, resp, draw))
  {
    var t := s.phase.test;
    var g := SetFlag(s.guards, t.kind, true);
    var g' := if t.kind == C.Transmitter then g.(isTransmitting := false) else g;
    if t.sweep {
      ReturnedInv(s.(guards := g'), C.Failure(C.StartFailure(t.kind)));
    } else {
      ReturnedInv(s, C.Failure(C.StartFailure(t.kind)));
    }
  }

  lemma EndAnsweredInv(s: State, resp: seq<Byte>, draw: real)
    requires Inv(s) && s.pendingEnds > 0 && |resp| == 2 && 0.0 <= draw < 1.0
    ensures CanAnswerEnd(s, resp, draw) && Inv(EndAnswered(s, resp, draw))
  {
    var pr := s.promises;
    if pr.onEndEvent.Some? && pr.onEndEvent.value !in pr.endResults {
      var p := pr.onEndEvent.value;
      var status := C.EndStatus(true, C.PacketCount(resp));
      var s2 := s.(pendingEnds := s.pendingEnds - 1, promises := pr.(endResults := pr.endResults[p := status]));
      assert PromisesOk(s2.promises);
      if s.phase.AwaitEnd? && s.phase.promise == p {
        EndAwaitedAnsweredInv(s, resp, draw);
      } else {
        assert EndAnswered(s, resp, draw) == s2;
        ResolvedElsewhereInv(s, s2);
      }
    } else {
      assert EndAnswered(s, resp, draw) == s.(pendingEnds := s.pendingEnds - 1);
    }
  }

  /** The answer resolves the promise the procedure awaits, and the step ends. */
  lemma EndAwaitedAnsweredInv(s: State, resp: seq<Byte>, draw: real)
    requires Inv(s) && s.pendingEnds > 0 && |resp| == 2 && 0.0 <= draw < 1.0
    requires s.phase.AwaitEnd? && s.promises.onEndEvent == Some(s.phase.promise)
    ensures CanAnswerEnd(s, resp, draw) && Inv(EndAnswered(s, resp, draw))
  {
    var pr := s.promises;
    var status := C.EndStatus(true, C.PacketCount(resp));
    var s2 := s.(pendingEnds := s.pendingEnds - 1, promises := pr.(endResults := pr.endResults[s.phase.promise := status]));
    assert PromisesOk(s2.promises);
    assert EndAnswered(s, resp, draw) == StepEnded(s2, s.phase.test, s.phase.idx, status, draw);
    StepEndedInv(s2, s.phase.test, s.phase.idx, status, draw);
  }

  /** Resolving a promise that the procedure does not await keeps the invariant. */
  lemma ResolvedElsewhereInv(s: State, s2: State)
    requires Inv(s) && s.promises.onEndEvent.Some? && s.promises.onEndEvent.value !in s.promises.endResults
    requires !(s.phase.AwaitEnd? && s.phase.promise == s.promises.onEndEvent.value)
    requires PromisesOk(s2.promises) && s2.promises.onEndEvent == s.promises.onEndEvent
    requires s2 == s.(pendingEnds := s2.pendingEnds, promises := s2.promises)
    requires s.promises.endResults.Keys <= s2.promises.endResults.Keys
    ensures Inv(s2)
  {
  }

  lemma MainTimerFiredInv(s: State)
    requires Inv(s) && s.guards.mainTimer.Some?
    ensures Inv(MainTimerFired(s))
  {
  }

  lemma StepTimerFiredInv(s: State)
    requires Inv(s) && s.guards.stepTimer.Some?
    ensures Inv(StepTimerFired(s))
  {
  }

  lemma EndTestCalledInv(s: State)
    requires Inv(s)
    ensures Inv(EndTestCalled(s))
  {
  }

  // ---------------------------------------------------------------------------
  // Properties of the transitions
  // ---------------------------------------------------------------------------

  /**
   * endTest is idempotent, as in src: once timedOut is set it does nothing; otherwise it
   * sets timedOut, clears the whole-test timer, and sends End exactly when sweepTimedOut
   * is clear and a test is active.
   */
  lemma EndTestIdempotent(s: State)
    ensures s.guards.timedOut ==> EndTestCalled(s) == s
    ensures EndTestCalled(EndTestCalled(s)) == EndTestCalled(s)
    ensures !s.guards.timedOut ==> EndTestCalled(s).guards.timedOut && EndTestCalled(s).guards.mainTimer.None?
    ensures !s.guards.timedOut && !s.guards.sweepTimedOut && (s.guards.isTransmitting || s.guards.isReceiving)
            ==> EndTestCalled(s).sent == s.sent + [[0xC0, 0x00]] && EndTestCalled(s).pendingEnds == s.pendingEnds + 1
    ensures s.guards.timedOut || s.guards.sweepTimedOut || !(s.guards.isTransmitting || s.guards.isReceiving)
            ==> EndTestCalled(s).sent == s.sent && EndTestCalled(s).pendingEnds == s.pendingEnds
  {
  }

  /** The whole-test timer sends End exactly when its kind's flag is set and sweepTimedOut is clear. */
  lemma MainTimerGuard(s: State)
    requires s.guards.mainTimer.Some?
    ensures MainTimerFired(s).guards.timedOut && MainTimerFired(s).guards.mainTimer.None?
    ensures Flag(s.guards, s.guards.mainTimer.value) && !s.guards.sweepTimedOut ==> MainTimerFired(s).sent == s.sent + [[0xC0, 0x00]]
    ensures !Flag(s.guards, s.guards.mainTimer.value) || s.guards.sweepTimedOut ==> MainTimerFired(s).sent == s.sent
  {
  }

  /** A timeout of zero or less schedules nothing. */
  lemma TimeoutDisabled(s: State, t: Test, timeout: int)
    requires s.phase == Idle && C.ValidTest(t) && C.DefaultsOk(s.defaults)
    ensures TestStarted(s, t, timeout).guards.mainTimer.None? <==> timeout <= 0
  {
  }

  /**
   * Every procedure first reports 'reset' to every listener. A single-channel test then
   * sends its start command; a sweep sends the first setup command, the reset.
   */
  lemma TestStartSends(s: State, t: Test, timeout: int)
    requires s.phase == Idle && C.ValidTest(t) && C.DefaultsOk(s.defaults)
    ensures var r := TestStarted(s, t, timeout);
      && r.deliveries == s.deliveries + FanOut(s.listeners, Reset)
      && (!t.sweep ==> r.sent == s.sent + [StepCommand(t, 0)] && r.phase.AwaitStart?)
      && (t.sweep ==> r.sent == s.sent + [[0x00, 0x00]] && r.phase == AwaitSetup(t, 0, 0))
  {
  }

  /**
   * The resolver installed as onEndEvent stays installed. Its first call resolves the
   * promise with the decoded count; a later End response finds the promise resolved and
   * changes none of the promises.
   */
  lemma EndEventStaysInstalled(s: State, r1: seq<Byte>, r2: seq<Byte>, draw: real)
    requires Inv(s) && s.pendingEnds >= 2 && |r1| == 2 && |r2| == 2 && 0.0 <= draw < 1.0
    requires s.promises.onEndEvent.Some? && !s.phase.AwaitEnd?
    ensures var p := s.promises.onEndEvent.value;
      var s1 := EndAnswered(s, r1, draw);
      && s1.promises.onEndEvent == Some(p) && p in s1.promises.endResults
      && (p !in s.promises.endResults ==> s1.promises.endResults[p] == C.EndStatus(true, C.PacketCount(r1)))
      && CanAnswerEnd(s1, r2, draw) && EndAnswered(s1, r2, draw) == s1.(pendingEnds := s1.pendingEnds - 1)
  {
    EndAnsweredInv(s, r1, draw);
  }

  /**
   * One setup response: the next setup command of the step is sent, or after the last
   * one the start command, with the end-of-step promise created just before it.
   */
  lemma SetupAnsweredSends(s: State)
    requires CanAnswerSetup(s)
    ensures var t, idx, done := s.phase.test, s.phase.idx, s.phase.done;
      var r := SetupAnswered(s);
      && r.defaults == s.defaults && r.listeners == s.listeners && r.deliveries == s.deliveries
      && (done + 1 < |SetupOrder(t.kind)| ==>
            && r.phase == AwaitSetup(t, idx, done + 1) && r.promises == s.promises
            && r.sent == s.sent + [SetupCommand(s.defaults, SetupOrder(t.kind)[done + 1])])
      && (done + 1 == |SetupOrder(t.kind)| ==>
            && r.phase == AwaitStart(t, idx, Some(s.promises.nextPromise))
            && r.promises == Installed(s.promises) && r.sent == s.sent + [StepCommand(t, idx)])
  {
    var t, done := s.phase.test, s.phase.done;
    if done + 1 < |SetupOrder(t.kind)| {
      SetupIssuedSends(s, SetupOrder(t.kind)[done + 1]);
    }
  }

  /** n setup responses in a row, with no other event in between. */
  function AfterSetupResponses(s: State, n: nat): State
    requires CanAnswerSetup(s) && s.phase.done + n <= |SetupOrder(s.phase.test.kind)|
    decreases n
  {
    if n == 0 then s
    else
      SetupAnsweredSends(s);
      var s1 := SetupAnswered(s);
      if n == 1 then s1 else AfterSetupResponses(s1, n - 1)
  }

  /**
   * The rest of a step's setup: once every remaining setup command is answered, the
   * commands sent are the remaining setup commands in order, then the start command.
   */
  lemma {:induction false} SetupResponsesSend(s: State, n: nat)
    requires CanAnswerSetup(s) && n >= 1 && s.phase.done + n == |SetupOrder(s.phase.test.kind)|
    ensures var t, idx, done := s.phase.test, s.phase.idx, s.phase.done;
      var r := AfterSetupResponses(s, n);
      && r.phase == AwaitStart(t, idx, Some(s.promises.nextPromise))
      && r.sent == s.sent + SetupCommands(s.defaults, SetupOrder(t.kind)[done + 1..]) + [StepCommand(t, idx)]
    decreases n
  {
    AfterSetupResponsesUnfold(s, n);
    if n == 1 {
      LastSetupResponse(s);
    } else {
      SetupResponsesSend(SetupAnswered(s), n - 1);
      SetupResponseStep(s, AfterSetupResponses(SetupAnswered(s), n - 1));
    }
  }

  lemma LastSetupResponse(s: State)
    requires CanAnswerSetup(s) && s.phase.done + 1 == |SetupOrder(s.phase.test.kind)|
    ensures var t, idx, done := s.phase.test, s.phase.idx, s.phase.done;
      var r := SetupAnswered(s);
      && r.phase == AwaitStart(t, idx, Some(s.promises.nextPromise))
      && r.sent == s.sent + SetupCommands(s.defaults, SetupOrder(t.kind)[done + 1..]) + [StepCommand(t, idx)]
  {
    var t, done := s.phase.test, s.phase.done;
    assert SetupOrder(t.kind)[done + 1..] == [];
  }

  /** If the rest of the step sends what SetupResponsesSend says from the next setup step, it does from this one. */
  lemma SetupResponseStep(s: State, r: State)
    requires CanAnswerSetup(s) && s.phase.done + 1 < |SetupOrder(s.phase.test.kind)|
    requires var s1 := SetupAnswered(s);
      && CanAnswerSetup(s1)
      && r.phase == AwaitStart(s1.phase.test, s1.phase.idx, Some(s1.promises.nextPromise))
      && r.sent == s1.sent + SetupCommands(s1.defaults, SetupOrder(s1.phase.test.kind)[s1.phase.done + 1..])
                   + [StepCommand(s1.phase.test, s1.phase.idx)]
    ensures var t, idx, done := s.phase.test, s.phase.idx, s.phase.done;
      && r.phase == AwaitStart(t, idx, Some(s.promises.nextPromise))
      && r.sent == s.sent + SetupCommands(s.defaults, SetupOrder(t.kind)[done + 1..]) + [StepCommand(t, idx)]
  {
    var t, idx, done := s.phase.test, s.phase.idx, s.phase.done;
    var order := SetupOrder(t.kind);
    SetupAnsweredSends(s);
    var rest := order[done + 2..];
    assert order[done + 1..] == [order[done + 1]] + rest;
    SetupCommandsCons(s.defaults, order[done + 1], rest);
  }

  lemma AfterSetupResponsesUnfold(s: State, n: nat)
    requires CanAnswerSetup(s) && n >= 1 && s.phase.done + n <= |SetupOrder(s.phase.test.kind)|
    ensures n == 1 ==> AfterSetupResponses(s, n) == SetupAnswered(s)
    ensures n > 1 ==> CanAnswerSetup(SetupAnswered(s)) && SetupAnswered(s).phase.done == s.phase.done + 1
    ensures n > 1 ==> AfterSetupResponses(s, n) == AfterSetupResponses(SetupAnswered(s), n - 1)
  {
    SetupAnsweredSends(s);
  }

  lemma SetupCommandsCons(d: Defaults, st: Setup, rest: seq<Setup>)
    requires C.DefaultsOk(d)
    ensures SetupCommands(d, [st] + rest) == [SetupCommand(d, st)] + SetupCommands(d, rest)
  {
    assert ([st] + rest)[1..] == rest;
  }

  /**
   * A whole sweep step, from the loop head to the await of its start command's response
   * when no other event intervenes: reset, selectTimer, setTxPower, setupLength,
   * setupModulation, setupPhy for a transmitter (reset, selectTimer, setupModulation,
   * setupPhy for a receiver), all with the stored values, then the start command.
   */
  lemma SweepStepSends(s: State, t: Test, idx: int)
    requires C.InRange(t, idx) && C.DefaultsOk(s.defaults)
    ensures var s0 := StepBegun(s, t, idx);
      && CanAnswerSetup(s0)
      && var r := AfterSetupResponses(s0, |SetupOrder(t.kind)|);
         && r.phase == AwaitStart(t, idx, Some(s.promises.nextPromise))
         && r.sent == s.sent + SetupCommands(s.defaults, SetupOrder(t.kind)) + [StepCommand(t, idx)]
         && r.defaults == s.defaults
  {
    var order := SetupOrder(t.kind);
    var s1 := s.(guards := SetFlag(s.guards, t.kind, false).(sweepTimedOut := false));
    SetupIssuedSends(s1, order[0]);
    var s0 := StepBegun(s, t, idx);
    assert s0.sent == s.sent + [SetupCommand(s.defaults, order[0])];
    SetupResponsesSend(s0, |order|);
    assert order == [order[0]] + order[1..];
    SetupCommandsCons(s.defaults, order[0], order[1..]);
    SetupResponsesKeepDefaults(s0, |order|);
  }

  lemma {:induction false} SetupResponsesKeepDefaults(s: State, n: nat)
    requires CanAnswerSetup(s) && s.phase.done + n <= |SetupOrder(s.phase.test.kind)|
    ensures AfterSetupResponses(s, n).defaults == s.defaults
    decreases n
  {
    if n > 0 {
      SetupAnsweredSends(s);
      if n > 1 {
        SetupResponsesKeepDefaults(SetupAnswered(s), n - 1);
      }
    }
  }

  /** SetupCommands has one command per setup step, in the steps' order. */
  lemma {:induction false} SetupCommandsEach(d: Defaults, steps: seq<Setup>)
    requires C.DefaultsOk(d)
    ensures |SetupCommands(d, steps)| == |steps|
    ensures forall i :: 0 <= i < |steps| ==> SetupCommands(d, steps)[i] == SetupCommand(d, steps[i])
    decreases |steps|
  {
    if steps != [] {
      SetupCommandsEach(d, steps[1..]);
    }
  }

  /** The transmitter's setup: six commands, in the source's order, with the stored values. */
  lemma TransmitterSetupCommands(d: Defaults)
    requires C.DefaultsOk(d)
    ensures SetupCommands(d, SetupOrder(C.Transmitter)) ==
      [[0x00, 0x00], [0x80 + d.selectedTimer, 0x0F], [0x80 + d.dbmPayload % 64, 0x0B],
       [0x01, d.lengthPayload / 64 * 4], [0x03, d.modulationPayload * 4], [0x02, d.phyPayload * 4]]
  {
    SetupCommandsEach(d, SetupOrder(C.Transmitter));
  }

  /** The receiver's setup: four commands, without power and length. */
  lemma ReceiverSetupCommands(d: Defaults)
    requires C.DefaultsOk(d)
    ensures SetupCommands(d, SetupOrder(C.Receiver)) ==
      [[0x00, 0x00], [0x80 + d.selectedTimer, 0x0F], [0x03, d.modulationPayload * 4], [0x02, d.phyPayload * 4]]
  {
    SetupCommandsEach(d, SetupOrder(C.Receiver));
  }

  /**
   * A successful receiver sweep step adds its count to slot idx, the channel's offset in
   * the range, of the high - low + 1 slot array; the total grows by exactly that count,
   * and when the sweep ends it returns the total and the array itself.
   */
  lemma ReceiverStepCounts(s: State, t: Test, idx: int, status: EndStatus, draw: real)
    requires C.InRange(t, idx) && CountsOk(t, s.counts) && C.DefaultsOk(s.defaults) && 0.0 <= draw < 1.0
    requires t.sweep && t.kind == C.Receiver && status.success
    ensures var r := StepEnded(s, t, idx, status, draw);
      && |r.counts| == t.high - t.low + 1
      && r.counts == s.counts[idx := s.counts[idx] + status.received]
      && C.Sum(r.counts) == C.Sum(s.counts) + status.received
      && (r.phase == Idle ==> r.result == Some(C.SweepResult(C.Sum(r.counts), Some(r.counts))))
  {
    var ended := Ended(t.kind, t.low + idx, EndedPackets(t.kind, status));
    var s1 := Notified(s.(guards := s.guards.(stepTimer := None), counts := s.counts[idx := s.counts[idx] + status.received]), ended);
    assert StepEnded(s, t, idx, status, draw) == SweepStepEnded(s1, t, idx, draw);
    SweepStepEndedCounts(s1, t, idx, draw);
    C.SumUpdate(s.counts, idx, status.received);
  }

  /** The bottom of a receiver sweep iteration keeps the array, and a return hands over its total and the array. */
  lemma SweepStepEndedCounts(s: State, t: Test, idx: int, draw: real)
    requires C.InRange(t, idx) && C.DefaultsOk(s.defaults) && 0.0 <= draw < 1.0 && t.kind == C.Receiver
    ensures var r := SweepStepEnded(s, t, idx, draw);
      && r.counts == s.counts
      && (r.phase == Idle ==> r.result == Some(C.SweepResult(C.Sum(s.counts), Some(s.counts))))
  {
    StepBegunKeepsCounts(s, t, NextIndex(t, idx, draw));
  }

  lemma StepBegunKeepsCounts(s: State, t: Test, idx: int)
    requires C.InRange(t, idx) && C.DefaultsOk(s.defaults)
    ensures StepBegun(s, t, idx).counts == s.counts
  {
    var s1 := s.(guards := SetFlag(s.guards, t.kind, false).(sweepTimedOut := false));
    SetupIssuedSends(s1, SetupOrder(t.kind)[0]);
  }

  /** A receiver sweep starts from one zero count per channel of its range. */
  lemma ReceiverSweepStartsAtZero(s: State, t: Test, timeout: int)
    requires s.phase == Idle && C.ValidTest(t) && t.sweep && t.kind == C.Receiver && C.DefaultsOk(s.defaults)
    ensures var r := TestStarted(s, t, timeout);
      r.counts == seq(t.high - t.low + 1, _ => 0) && C.Sum(r.counts) == 0
  {
    var g := s.guards.(timedOut := false, mainTimer := if timeout > 0 then Some(t.kind) else None);
    var s0 := Notified(s.(result := None, guards := g), Reset);
    var s1 := s0.(guards := SetFlag(s0.guards, t.kind, false));
    StepBegunKeepsCounts(s1.(counts := seq(t.high - t.low + 1, _ => 0)), t, 0);
    C.SumZeros(t.high - t.low + 1);
  }

  /** A transmitter sweep that finishes after a step returns zero received packets. */
  lemma TransmitterSweepReturnsZero(s: State, t: Test, idx: int, status: EndStatus, draw: real)
    requires C.InRange(t, idx) && CountsOk(t, s.counts) && C.DefaultsOk(s.defaults) && 0.0 <= draw < 1.0
    requires t.sweep && t.kind == C.Transmitter && status.success
    ensures var r := StepEnded(s, t, idx, status, draw);
      r.phase == Idle ==> r.result == Some(C.SweepResult(0, None))
  {
    var ended := Ended(t.kind, t.low + idx, EndedPackets(t.kind, status));
    var s1 := Notified(s.(guards := s.guards.(stepTimer := None)), ended);
    assert StepEnded(s, t, idx, status, draw) == SweepStepEnded(s1, t, idx, draw);
  }

  /**
   * A sweep keeps going while its clock has not run out: after a successful step with
   * timedOut clear, the 'ended' event reaches every listener and the next step begins
   * with a reset on a channel in range.
   */
  lemma SweepContinues(s: State, t: Test, idx: int, status: EndStatus, draw: real)
    requires C.InRange(t, idx) && CountsOk(t, s.counts) && C.DefaultsOk(s.defaults) && 0.0 <= draw < 1.0
    requires t.sweep && status.success && Flag(s.guards, t.kind) && !s.guards.timedOut
    ensures var r := StepEnded(s, t, idx, status, draw);
      && r.phase == AwaitSetup(t, NextIndex(t, idx, draw), 0)
      && t.low <= t.low + r.phase.idx <= t.high
      && r.sent == s.sent + [[0x00, 0x00]]
      && r.deliveries == s.deliveries + FanOut(s.listeners, Ended(t.kind, t.low + idx, EndedPackets(t.kind, status)))
  {
    var ended := Ended(t.kind, t.low + idx, EndedPackets(t.kind, status));
    var counts := if t.kind == C.Receiver then s.counts[idx := s.counts[idx] + status.received] else s.counts;
    var s1 := Notified(s.(guards := s.guards.(stepTimer := None), counts := counts), ended);
    assert StepEnded(s, t, idx, status, draw) == SweepStepEnded(s1, t, idx, draw);
  }

  /**
   * Every end-of-step promise resolves with success, so the "Failed to send ... end
   * event" branches are never taken.
   */
  lemma EndFailureUnreachable(s: State)
    requires Inv(s)
    ensures forall p :: p in s.promises.endResults ==> s.promises.endResults[p].success
    ensures s.result != Some(C.Failure(C.EndTransmitterFailure)) && s.result != Some(C.Failure(C.EndReceiverFailure))
  {
    assert C.EndTransmitterFailure[0] != C.StartTransmitterFailure[0] && C.EndTransmitterFailure[0] != C.StartReceiverFailure[0];
    assert C.EndReceiverFailure[0] != C.StartTransmitterFailure[0] && C.EndReceiverFailure[0] != C.StartReceiverFailure[0];
  }
}
