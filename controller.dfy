/**
 * Class DTM in src/DTM.js: the test controller on top of the transport.
 *
 * The pure helpers (channelToFrequency, reportSuccess, the packet count of endCurrentTest,
 * carrierTestCMD and the sweep index arithmetic) come first. The controller's state is
 * then described twice: as a value of type State with one transition function per event,
 * about which the invariants are proved, and as class Dtm (module DtmObject, dtm.dfy),
 * whose fields are the source's fields and whose event methods are proved to perform
 * exactly those transitions.
 *
 * Events: a test procedure is started; the response to its start command arrives; the
 * response to an End command arrives; the whole-test timer or the per-step sweep timer
 * fires; endTest is called. Each event runs to completion together with the awaits it
 * releases, as the JavaScript event loop runs a task and then its microtasks.
 */
module Controller {
  import opened Basics
  import opened Bits
  import opened Codec

  /** The 40 RF channels of Bluetooth LE. */
  predicate IsChannel(c: int) {
    0 <= c < 40
  }

  /** channelToFrequency: the centre frequency of an RF channel in MHz. */
  function ChannelToFrequency(channel: int): (frequency: int)
    ensures (frequency - 2402) % 2 == 0 && (frequency - 2402) / 2 == channel
  {
    2402 + 2 * channel
  }

  /** DTM_FREQUENCY of a channel's frequency is the channel number in six binary digits. */
  lemma ChannelEncoding(channel: int)
    requires IsChannel(channel)
    ensures FrequencyFits(ChannelToFrequency(channel))
    ensures DtmFrequency(ChannelToFrequency(channel)) == ToBitString(channel, 6)
    ensures |DtmFrequency(ChannelToFrequency(channel))| == 6
    ensures IsBits(DtmFrequency(ChannelToFrequency(channel)))
    ensures BitValue(DtmFrequency(ChannelToFrequency(channel))) == channel
  {
  }

  lemma AndOne(u: nat)
    ensures And(u, 1) == u % 2
  {
    assert Pow2(1) == 2;
    AndLowMask(u, 1);
  }

  /**
   * reportSuccess: a missing response (a timed-out send) or one that is not two bytes
   * long is a failure; otherwise bit 0 of the first byte is the error flag.
   */
  function ReportSuccess(report: Option<seq<Byte>>): (success: bool)
    ensures success <==> report.Some? && |report.value| == 2 && report.value[0] % 2 == 0
  {
    if report.None? || |report.value| != 2 then false
    else AndOne(report.value[0]); And(report.value[0], 0x01) == 0
  }

  lemma PacketCountBits(b0: Byte, b1: Byte)
    ensures ShiftRight(And(b0, 0x80), 7) == if b0 >= 0x80 then 1 else 0
    ensures Or(ShiftLeft(And(b0, 0x3F), 8), b1) == (b0 as int % 64) * 256 + b1 as int
  {
    EventBit(b0);
    CountBits(b0, b1);
  }

  /** `(b0 & 0x80) >> 7` is bit 7 of the byte. */
  lemma EventBit(b0: Byte)
    ensures ShiftRight(And(b0, 0x80), 7) == if b0 >= 0x80 then 1 else 0
  {
    assert Pow2(7) == 128;
    AndSingleBit(b0, 7);
  }

  /** `((b0 & 0x3F) << 8) | b1` is the low six bits of b0 followed by b1. */
  lemma CountBits(b0: Byte, b1: Byte)
    ensures Or(ShiftLeft(And(b0, 0x3F), 8), b1) == (b0 as int % 64) * 256 + b1 as int
  {
    assert Pow2(6) == 64 && Pow2(8) == 256;
    AndLowMask(b0, 6);
    OrShifted(b0 % 64, b1, 8);
  }

  /**
   * The decode in endCurrentTest: bit 7 of the first byte selects the packet report
   * event, whose count is the low six bits of the first byte followed by the second byte;
   * a test status event counts as zero packets.
   */
  function PacketCount(response: seq<Byte>): (received: nat)
    requires |response| == 2
    ensures received < 0x4000
    ensures received == if response[0] >= 0x80 then (response[0] as int % 64) * 256 + response[1] as int else 0
  {
    PacketCountBits(response[0], response[1]);
    var event := ShiftRight(And(response[0], 0x80), 7);
    if event == LePacketReportEvent then Or(ShiftLeft(And(response[0], 0x3F), 8), response[1]) else 0
  }

  /** A packet report event carrying any count below 2^14 decodes to that count. */
  lemma PacketCountRoundTrip(n: nat)
    requires n < 0x4000
    ensures 0x80 + n / 256 < 256
    ensures PacketCount([0x80 + n / 256, n % 256]) == n
  {
    var b0: Byte := 0x80 + n / 256;
    assert b0 % 64 == n / 256;
  }

  /** A test status event always decodes to zero packets. */
  lemma StatusEventCountsNothing(response: seq<Byte>)
    requires |response| == 2 && response[0] < 0x80
    ensures PacketCount(response) == 0
  {
  }

  /**
   * carrierTestCMD: a transmitter command whose length field is `length & 0x3F`, or 0
   * for the vendor-specific packet type.
   */
  function CarrierTestCmd(frequency: int, length: int, bitpattern: nat): (r: seq<Byte>)
    requires FrequencyFits(frequency) && bitpattern < 4
    ensures r == Encode(KindTransmitter, (frequency - 2402) / 2,
                        if bitpattern == PayloadVendor then 0 else length % 64, bitpattern)
  {
    AndInt3F(length);
    var lengthParam := if bitpattern == PayloadVendor then 0 else AndInt(length, 0x3F);
    CreateTransmitterCmd(frequency, lengthParam, bitpattern)
  }

  /** carrierTestStudioCMD: as carrierTestCMD, but the vendor packet type gets length 1. */
  function CarrierTestStudioCmd(frequency: int, length: int, bitpattern: nat): (r: seq<Byte>)
    requires FrequencyFits(frequency) && bitpattern < 4
    ensures r == Encode(KindTransmitter, (frequency - 2402) / 2,
                        if bitpattern == PayloadVendor then 1 else length % 64, bitpattern)
  {
    AndInt3F(length);
    var lengthParam := if bitpattern == PayloadVendor then 1 else AndInt(length, 0x3F);
    CreateTransmitterCmd(frequency, lengthParam, bitpattern)
  }

  /** The two carrier commands differ only for the vendor packet type. */
  lemma CarrierVariantsAgree(frequency: int, length: int, bitpattern: nat)
    requires FrequencyFits(frequency) && bitpattern < 4
    ensures CarrierTestCmd(frequency, length, bitpattern) == CarrierTestStudioCmd(frequency, length, bitpattern)
            <==> bitpattern != PayloadVendor
  {
    if bitpattern == PayloadVendor {
      DecodeEncode(KindTransmitter, (frequency - 2402) / 2, 0, bitpattern);
      DecodeEncode(KindTransmitter, (frequency - 2402) / 2, 1, bitpattern);
    }
  }

  /** For the documented range of -40 to +8 dBm, `dbm & 0x3F` sends a negative value as dbm + 64. */
  lemma TxPowerField(dbm: int)
    requires -40 <= dbm <= 8
    ensures AndInt(dbm, 0x3F) == if dbm < 0 then dbm + 64 else dbm
  {
    AndInt3F(dbm);
  }

  /** `length >> 6` in setupLength: the upper bits of a length below 4096. */
  function LengthBits(length: int): (r: int)
    requires 0 <= length < 4096
    ensures 0 <= r < 64 && r == length / 64
  {
    assert Pow2(6) == 64;
    ShiftRightInt(length, 6)
  }

  /**
   * setupLength sends the upper bits and carrierTestCMD the lower six bits of a length;
   * together they give the length back.
   */
  lemma LengthSplit(length: int)
    requires 0 <= length < 4096
    ensures LengthBits(length) * 64 + AndInt(length, 0x3F) == length
  {
    AndInt3F(length);
  }

  /** The sequential sweep advance `(idx + 1) % (high - low + 1)`. */
  function NextSequential(idx: int, low: int, high: int): (r: int)
    requires 0 <= idx && low <= high
    ensures 0 <= r <= high - low
    ensures idx < high - low ==> r == idx + 1
    ensures idx == high - low ==> r == 0
  {
    (idx + 1) % (high - low + 1)
  }

  /**
   * The random transmitter advance `Math.floor(r * (high - low))` for a draw r in [0, 1):
   * it never reaches the last offset, so channelHigh is never revisited at random.
   */
  function NextRandomTransmitter(draw: real, low: int, high: int): (r: int)
    requires 0.0 <= draw < 1.0 && low <= high
    ensures low < high ==> 0 <= r < high - low
    ensures low == high ==> r == 0
  {
    var span := (high - low) as real;
    assert 0.0 <= draw * span;
    assert low < high ==> draw * span < span;
    (draw * span).Floor
  }

  /**
   * The random receiver advance `Math.ceil(r * (high - low))`: it stays within the range
   * and gives offset 0 only when the draw is exactly 0 or the range is one channel wide.
   */
  function NextRandomReceiver(draw: real, low: int, high: int): (r: int)
    requires 0.0 <= draw < 1.0 && low <= high
    ensures 0 <= r <= high - low
    ensures r == 0 <==> draw == 0.0 || low == high
  {
    var span := (high - low) as real;
    assert 0.0 <= draw * span;
    assert low < high ==> draw * span < span;
    assert low < high && draw > 0.0 ==> draw * span > 0.0;
    -((-(draw * span)).Floor)
  }

  /** `reduce((a, b) => a + b)` over the per-channel counts. */
  function Sum(counts: seq<nat>): nat {
    if counts == [] then 0 else counts[0] + Sum(counts[1..])
  }

  lemma {:induction false} SumUpdate(counts: seq<nat>, i: nat, d: nat)
    requires i < |counts|
    ensures Sum(counts[i := counts[i] + d]) == Sum(counts) + d
    decreases i
  {
    var c' := counts[i := counts[i] + d];
    if i > 0 {
      assert c'[1..] == counts[1..][i - 1 := counts[i] + d];
      SumUpdate(counts[1..], i - 1, d);
    } else {
      assert c'[1..] == counts[1..];
    }
  }

  lemma {:induction false} SumZeros(n: nat)
    ensures Sum(seq(n, _ => 0)) == 0
    decreases n
  {
    if n > 0 {
      assert seq(n, _ => 0)[1..] == seq(n - 1, _ => 0);
      SumZeros(n - 1);
    }
  }

  // ---------------------------------------------------------------------------
  // The controller's state and its transitions
  // ---------------------------------------------------------------------------

  datatype Kind = Transmitter | Receiver

  function Other(k: Kind): Kind {
    if k == Transmitter then Receiver else Transmitter
  }

  /**
   * The arguments of a running test procedure. A single-channel test has low == high;
   * a sweep visits the offsets 0 .. high - low from low.
   */
  datatype Test = Test(kind: Kind, sweep: bool, low: int, high: int, bitpattern: nat, length: int,
                       sweepTime: int, random: bool)

  predicate ValidTest(t: Test) {
    && IsChannel(t.low) && IsChannel(t.high) && t.low <= t.high
    && t.bitpattern < 4
    && (!t.sweep ==> t.low == t.high)
  }

  predicate InRange(t: Test, idx: int) {
    ValidTest(t) && 0 <= idx <= t.high - t.low
  }

  /**
   * Where the running procedure is suspended: at the await of its start command's
   * response, or at the await of the end-of-step promise. That promise is created before
   * the start command is sent, except in the single-channel transmitter test, which
   * creates it after the start command succeeded.
   */
  datatype Phase =
    | Idle
    | AwaitStart(test: Test, idx: int, waiter: Option<nat>)
    | AwaitEnd(test: Test, idx: int, promise: nat)

  /** What onEndEvent resolves its promise with. */
  datatype EndStatus = EndStatus(success: bool, received: nat)

  /** What a test procedure returns. */
  datatype Outcome =
    | Failure(message: string)
    | Status(status: EndStatus)
    | SweepResult(received: nat, perChannel: Option<seq<nat>>)

  /** The stored defaults of the setters. */
  datatype Defaults = Defaults(lengthPayload: int, modulationPayload: int, phyPayload: int,
                               dbmPayload: int, selectedTimer: int)

  /**
   * The four flags, the two armed timeouts (with the kind whose flag their callback
   * reads), and the number of End commands sent since the current step began.
   */
  datatype Guards = Guards(isTransmitting: bool, isReceiving: bool, timedOut: bool, sweepTimedOut: bool,
                           mainTimer: Option<Kind>, stepTimer: Option<Kind>, stepEnds: nat)

  /** The promise whose resolver is installed as onEndEvent, and what each promise resolved with. */
  datatype Promises = Promises(onEndEvent: Option<nat>, endResults: map<nat, EndStatus>, nextPromise: nat)

  /**
   * The controller. `counts` is the receiver sweep's per-channel array, `result` what the
   * last procedure returned, `sent` every command handed to the transport, and
   * `pendingEnds` the End commands whose response has not arrived yet.
   */
  datatype State = State(defaults: Defaults, guards: Guards, promises: Promises, phase: Phase,
                         counts: seq<nat>, result: Option<Outcome>, sent: seq<seq<Byte>>, pendingEnds: nat)

  const StartTransmitterFailure: string := "Could not start transmission."
  const StartReceiverFailure: string := "Could not start receiver."
  const EndTransmitterFailure: string := "Failed to send transmission end event."
  const EndReceiverFailure: string := "Failed to send receive end event."

  function StartFailure(k: Kind): string {
    if k == Transmitter then StartTransmitterFailure else StartReceiverFailure
  }

  function EndFailure(k: Kind): string {
    if k == Transmitter then EndTransmitterFailure else EndReceiverFailure
  }

  /** The flag a callback of kind k reads: isTransmitting or isReceiving. */
  function Flag(g: Guards, k: Kind): bool {
    if k == Transmitter then g.isTransmitting else g.isReceiving
  }

  function SetFlag(g: Guards, k: Kind, b: bool): Guards {
    if k == Transmitter then g.(isTransmitting := b) else g.(isReceiving := b)
  }

  /** The constructor: length 1, standard modulation, LE 1M, 0 dBm, timer 0, all flags false. */
  function Initial(): State {
    State(Defaults(1, StandardModulationIndex, PhyLe1M, 0, 0),
          Guards(false, false, false, false, None, None, 0),
          Promises(None, map[], 0),
          Idle, seq(40, _ => 0), None, [], 0)
  }

  /** endEventDataReceived: a fresh promise whose resolver becomes onEndEvent. */
  function Installed(pr: Promises): Promises {
    pr.(onEndEvent := Some(pr.nextPromise), nextPromise := pr.nextPromise + 1)
  }

  /**
   * The command that starts step idx of a test, as its fields: a transmitter command
   * whose length field is the carrier test's, or a receiver command with length and
   * packet type zero, on channel low + idx. StepCommandBuilt shows that these are the
   * bytes carrierTestCMD and createReceiverCMD build.
   */
  function StepCommand(t: Test, idx: int): seq<Byte>
    requires InRange(t, idx)
  {
    if t.kind == Transmitter then
      Encode(KindTransmitter, t.low + idx, if t.bitpattern == PayloadVendor then 0 else t.length % 64, t.bitpattern)
    else Encode(KindReceiver, t.low + idx, 0, PktDefault)
  }

  lemma StepCommandBuilt(t: Test, idx: int)
    requires InRange(t, idx)
    ensures var frequency := ChannelToFrequency(t.low + idx);
      StepCommand(t, idx) == if t.kind == Transmitter then CarrierTestCmd(frequency, t.length, t.bitpattern)
                             else CreateReceiverCmd(frequency, 0, PktDefault)
  {
    if t.kind == Transmitter {
      TransmitterStepBuilt(t.low + idx, t.length, t.bitpattern);
    } else {
      ReceiverStepBuilt(t.low + idx);
    }
  }

  lemma TransmitterStepBuilt(channel: int, length: int, bitpattern: nat)
    requires IsChannel(channel) && bitpattern < 4
    ensures CarrierTestCmd(ChannelToFrequency(channel), length, bitpattern)
            == Encode(KindTransmitter, channel, if bitpattern == PayloadVendor then 0 else length % 64, bitpattern)
  {
  }

  lemma ReceiverStepBuilt(channel: int)
    requires IsChannel(channel)
    ensures CreateReceiverCmd(ChannelToFrequency(channel), 0, PktDefault) == Encode(KindReceiver, channel, 0, PktDefault)
  {
  }

  /** The bytes createEndCMD builds (the contract of CreateEndCmd). */
  const EndCommand: seq<Byte> := [0xC0, 0x00]

  /** endCurrentTest up to its await: the End command is sent. */
  function WithEnd(s: State): State {
    s.(sent := s.sent + [EndCommand], pendingEnds := s.pendingEnds + 1,
       guards := s.guards.(stepEnds := s.guards.stepEnds + 1))
  }

  /** The procedure clears its whole-test timeout and returns o. */
  function Returned(s: State, o: Outcome): State {
    s.(guards := s.guards.(mainTimer := None), phase := Idle, result := Some(o))
  }

  /**
   * The head of one sweep iteration: clear sweepTimedOut and the kind's flag, create the
   * end-of-step promise, send the step's start command. The loop's two `continue`
   * branches need timedOut, which the loop condition has already excluded.
   */
  function StepBegun(s: State, t: Test, idx: int): (r: State)
    requires InRange(t, idx) && !s.guards.timedOut
    ensures r.phase == AwaitStart(t, idx, Some(s.promises.nextPromise)) && r.promises.onEndEvent == r.phase.waiter
    ensures r.sent == s.sent + [StepCommand(t, idx)] && r.guards.stepEnds == 0 && !Flag(r.guards, t.kind)
    ensures r.defaults == s.defaults && r.counts == s.counts && r.pendingEnds == s.pendingEnds
    ensures r.promises.endResults == s.promises.endResults
  {
    var g := SetFlag(s.guards, t.kind, false).(sweepTimedOut := false, stepEnds := 0);
    s.(guards := g, promises := Installed(s.promises),
       phase := AwaitStart(t, idx, Some(s.promises.nextPromise)),
       sent := s.sent + [StepCommand(t, idx)])
  }

  /** The next sweep offset. */
  function NextIndex(t: Test, idx: int, draw: real): (r: int)
    requires ValidTest(t) && 0 <= idx && 0.0 <= draw < 1.0
    ensures 0 <= r <= t.high - t.low
  {
    if !t.random then NextSequential(idx, t.low, t.high)
    else if t.kind == Transmitter then NextRandomTransmitter(draw, t.low, t.high)
    else NextRandomReceiver(draw, t.low, t.high)
  }

  /** The rest of a successful sweep step: add the count, advance, loop or return. */
  function SweepStepEnded(s: State, t: Test, idx: int, draw: real): State
    requires InRange(t, idx) && |s.counts| == 40 && 0.0 <= draw < 1.0
  {
    var next := NextIndex(t, idx, draw);
    if Flag(s.guards, t.kind) && !s.guards.timedOut then StepBegun(s, t, next)
    else if t.kind == Receiver then Returned(s, SweepResult(Sum(s.counts), Some(s.counts)))
    else Returned(s, SweepResult(0, None))
  }

  /** The procedure's code after its end-of-step promise resolved with status. */
  function StepEnded(s: State, t: Test, idx: int, status: EndStatus, draw: real): (r: State)
    requires InRange(t, idx) && |s.counts| == 40 && 0.0 <= draw < 1.0
    ensures !t.sweep ==> r.phase == Idle && r.result == Some(Status(status))
    ensures t.sweep && !status.success ==> r.phase == Idle && r.result == Some(Failure(EndFailure(t.kind)))
    ensures r.phase == Idle || (t.sweep && status.success && r.phase.AwaitStart? && r.phase.test == t)
    ensures r.defaults == s.defaults && r.pendingEnds == s.pendingEnds
    ensures r.promises.endResults == s.promises.endResults
  {
    if !t.sweep then Returned(s, Status(status))
    else
      var g := s.guards.(stepTimer := None);
      if !status.success then
        var g' := if t.kind == Transmitter then g.(isTransmitting := false) else g;
        Returned(s.(guards := g'), Failure(EndFailure(t.kind)))
      else
        var slot := t.low + idx;
        var counts := if t.kind == Receiver then s.counts[slot := s.counts[slot] + status.received] else s.counts;
        SweepStepEnded(s.(guards := g, counts := counts), t, idx, draw)
  }

  /** `await` on the end-of-step promise p: continue at once if it has already resolved. */
  function EndAwaited(s: State, t: Test, idx: int, p: nat, draw: real): State
    requires InRange(t, idx) && |s.counts| == 40 && 0.0 <= draw < 1.0
  {
    if p in s.promises.endResults then StepEnded(s, t, idx, s.promises.endResults[p], draw)
    else s.(phase := AwaitEnd(t, idx, p))
  }

  /**
   * One of the four test procedures up to its first await. The whole-test timer is
   * armed only for a positive timeout.
   */
  function TestStarted(s: State, t: Test, timeout: int): (r: State)
    requires s.phase == Idle && ValidTest(t)
    ensures r.phase.AwaitStart? && r.phase.test == t && r.phase.idx == 0 && r.result.None?
    ensures r.sent == s.sent + [StepCommand(t, 0)]
    ensures !r.guards.timedOut && (r.guards.mainTimer.Some? <==> timeout > 0)
    ensures r.defaults == s.defaults && r.pendingEnds == s.pendingEnds
  {
    var g := s.guards.(timedOut := false, stepEnds := 0, mainTimer := if timeout > 0 then Some(t.kind) else None);
    var s0 := s.(result := None, guards := g);
    if !t.sweep then SingleStarted(s0, t) else SweepStarted(s0, t)
  }

  function SingleStarted(s: State, t: Test): State
    requires ValidTest(t)
  {
    var s1 := s.(guards := SetFlag(s.guards, t.kind, true).(sweepTimedOut := false), sent := s.sent + [StepCommand(t, 0)]);
    if t.kind == Transmitter then s1.(phase := AwaitStart(t, 0, None))
    else s1.(promises := Installed(s.promises), phase := AwaitStart(t, 0, Some(s.promises.nextPromise)))
  }

  function SweepStarted(s: State, t: Test): State
    requires ValidTest(t) && !s.guards.timedOut
  {
    var s1 := s.(guards := SetFlag(s.guards, t.kind, false));
    var s2 := if t.kind == Receiver then s1.(counts := seq(40, _ => 0)) else s1;
    StepBegun(s2, t, 0)
  }

  /** A response the transport can hand over: nothing after a timeout, or two bytes. */
  predicate Response(resp: Option<seq<Byte>>) {
    resp.Some? ==> |resp.value| == 2
  }

  /** The await of a start command's response completes. */
  function StartAnswered(s: State, resp: Option<seq<Byte>>, draw: real): (r: State)
    requires s.phase.AwaitStart? && InRange(s.phase.test, s.phase.idx)
    requires s.phase.test.sweep || s.phase.test.kind == Receiver ==> s.phase.waiter.Some?
    requires |s.counts| == 40 && 0.0 <= draw < 1.0
    ensures !ReportSuccess(resp) ==>
      && r.phase == Idle && r.result == Some(Failure(StartFailure(s.phase.test.kind)))
      && r.sent == s.sent && r.promises == s.promises && r.pendingEnds == s.pendingEnds
    ensures ReportSuccess(resp) && !s.phase.test.sweep && s.phase.test.kind == Transmitter ==>
      && r.phase == AwaitEnd(s.phase.test, s.phase.idx, s.promises.nextPromise)
      && r.promises.onEndEvent == Some(s.promises.nextPromise) && r.sent == s.sent
    ensures r.defaults == s.defaults
  {
    var t, idx, w := s.phase.test, s.phase.idx, s.phase.waiter;
    if !t.sweep then
      if !ReportSuccess(resp) then Returned(s, Failure(StartFailure(t.kind)))
      else if t.kind == Transmitter then
        s.(promises := Installed(s.promises), phase := AwaitEnd(t, idx, s.promises.nextPromise))
      else EndAwaited(s, t, idx, w.value, draw)
    else
      var g := SetFlag(s.guards, t.kind, true);
      if !ReportSuccess(resp) then
        var g' := if t.kind == Transmitter then g.(isTransmitting := false) else g;
        Returned(s.(guards := g'), Failure(StartFailure(t.kind)))
      else
        var s2 := s.(guards := g.(stepTimer := if t.sweepTime > 0 then Some(t.kind) else None, sweepTimedOut := false));
        var s3 := if s2.guards.timedOut then WithEnd(s2) else s2;
        EndAwaited(s3, t, idx, w.value, draw)
  }

  /**
   * The response to an End command arrives and endCurrentTest continues. A missing
   * response makes `response[0]` throw, so nothing more happens; otherwise the installed
   * waiter, if any, uninstalls itself and resolves with success and the decoded count.
   */
  function EndAnswered(s: State, resp: Option<seq<Byte>>, draw: real): (r: State)
    requires s.pendingEnds > 0 && Response(resp) && |s.counts| == 40 && 0.0 <= draw < 1.0
    requires s.phase.AwaitEnd? ==> InRange(s.phase.test, s.phase.idx)
    ensures r.pendingEnds == s.pendingEnds - 1 && r.defaults == s.defaults
    ensures resp.None? || s.promises.onEndEvent.None? ==> r == s.(pendingEnds := s.pendingEnds - 1)
    ensures resp.Some? && s.promises.onEndEvent.Some? ==>
      r.promises.endResults == s.promises.endResults[s.promises.onEndEvent.value := EndStatus(true, PacketCount(resp.value))]
  {
    var s1 := s.(pendingEnds := s.pendingEnds - 1);
    if resp.None? || s.promises.onEndEvent.None? then s1
    else EndResolved(s1, EndStatus(true, PacketCount(resp.value)), draw)
  }

  /**
   * The installed waiter uninstalls itself and resolves its promise with status; a
   * procedure awaiting that promise continues.
   */
  function EndResolved(s: State, status: EndStatus, draw: real): State
    requires s.promises.onEndEvent.Some? && |s.counts| == 40 && 0.0 <= draw < 1.0
    requires s.phase.AwaitEnd? ==> InRange(s.phase.test, s.phase.idx)
  {
    var p := s.promises.onEndEvent.value;
    var s2 := s.(promises := s.promises.(onEndEvent := None, endResults := s.promises.endResults[p := status]));
    if s.phase.AwaitEnd? && s.phase.promise == p then StepEnded(s2, s.phase.test, s.phase.idx, status, draw)
    else s2
  }

  /** The callback of startTimeoutEvent. */
  function MainTimerFired(s: State): (r: State)
    requires s.guards.mainTimer.Some?
    ensures r.guards.timedOut && r.guards.mainTimer.None? && r.phase == s.phase && r.promises == s.promises
    ensures r.defaults == s.defaults && (r.sent == s.sent || r.sent == s.sent + [EndCommand])
  {
    var g := s.guards.(mainTimer := None, timedOut := true);
    var s1 := s.(guards := g);
    if Flag(g, s.guards.mainTimer.value) && !g.sweepTimedOut then WithEnd(s1) else s1
  }

  /** The callback of startSweepTimeoutEvent. */
  function StepTimerFired(s: State): (r: State)
    requires s.guards.stepTimer.Some?
    ensures r.guards.sweepTimedOut && r.guards.stepTimer.None? && r.phase == s.phase && r.promises == s.promises
    ensures r.defaults == s.defaults && (r.sent == s.sent || r.sent == s.sent + [EndCommand])
  {
    var g := s.guards.(stepTimer := None, sweepTimedOut := true);
    var s1 := s.(guards := g);
    if Flag(g, s.guards.stepTimer.value) && !g.timedOut then WithEnd(s1) else s1
  }

  /** endTest. */
  function EndTestCalled(s: State): (r: State)
    ensures r.guards.timedOut && r.phase == s.phase && r.promises == s.promises && r.defaults == s.defaults
    ensures r.sent == s.sent || r.sent == s.sent + [EndCommand]
    ensures s.guards.timedOut ==> r == s
  {
    if s.guards.timedOut then s
    else
      var g := s.guards.(timedOut := true, mainTimer := None);
      var s1 := s.(guards := g);
      if !g.sweepTimedOut && (g.isTransmitting || g.isReceiving) then WithEnd(s1) else s1
  }

  // ---------------------------------------------------------------------------
  // The setters. Each one stores its argument, or keeps the stored value when the
  // argument is omitted, and sends one command; the response it awaits is handed back to
  // its caller and changes nothing here.
  // ---------------------------------------------------------------------------

  /** A JavaScript default parameter: the argument if given, otherwise the stored value. */
  function OrStored(arg: Option<int>, stored: int): int {
    if arg.Some? then arg.value else stored
  }

  /** setTxPower: stores the power and sends its two's-complement low six bits. */
  function TxPowerSet(s: State, dbm: Option<int>): State {
    var v := OrStored(dbm, s.defaults.dbmPayload);
    s.(defaults := s.defaults.(dbmPayload := v), sent := s.sent + [[0x80 + v % 64, 0x0B]])
  }

  /** selectTimer. */
  function TimerSelected(s: State, timer: Option<int>): State
    requires 0 <= OrStored(timer, s.defaults.selectedTimer) < 64
  {
    var v := OrStored(timer, s.defaults.selectedTimer);
    s.(defaults := s.defaults.(selectedTimer := v), sent := s.sent + [[0x80 + v, 0x0F]])
  }

  /** setupReset. */
  function ResetSent(s: State): State {
    s.(sent := s.sent + [[0x00, 0x00]])
  }

  /** setupLength: the ENABLE_LENGTH parameter is the upper six bits of the length. */
  function LengthSet(s: State, length: Option<int>): State
    requires 0 <= OrStored(length, s.defaults.lengthPayload) < 4096
  {
    var v := OrStored(length, s.defaults.lengthPayload);
    s.(defaults := s.defaults.(lengthPayload := v), sent := s.sent + [[0x01, v / 64 * 4]])
  }

  /** setupPhy. */
  function PhySet(s: State, phy: Option<int>): State
    requires 0 <= OrStored(phy, s.defaults.phyPayload) < 64
  {
    var v := OrStored(phy, s.defaults.phyPayload);
    s.(defaults := s.defaults.(phyPayload := v), sent := s.sent + [[0x02, v * 4]])
  }

  /** setupModulation. */
  function ModulationSet(s: State, modulation: Option<int>): State
    requires 0 <= OrStored(modulation, s.defaults.modulationPayload) < 64
  {
    var v := OrStored(modulation, s.defaults.modulationPayload);
    s.(defaults := s.defaults.(modulationPayload := v), sent := s.sent + [[0x03, v * 4]])
  }

  /** setupReadFeatures. */
  function FeaturesRead(s: State): State {
    s.(sent := s.sent + [[0x04, 0x00]])
  }

  /** setupReadSupportedRxTx. */
  function SupportedRxTxRead(s: State, parameter: int): State
    requires 0 <= parameter < 64
  {
    s.(sent := s.sent + [[0x05, parameter * 4]])
  }

  /** setTxPower sends createTxPowerCMD(dbm & 0x3F), after storing the argument or keeping the stored value. */
  lemma TxPowerCommandSent(s: State, dbm: Option<int>)
    ensures var v := OrStored(dbm, s.defaults.dbmPayload);
      AndInt(v, 0x3F) == v % 64 && TxPowerSet(s, dbm).sent == s.sent + [CreateTxPowerCmd(AndInt(v, 0x3F))]
  {
    var v := OrStored(dbm, s.defaults.dbmPayload);
    AndInt3F(v);
    var cmd: seq<Byte> := [0x80 + v % 64, 0x0B];
    assert TxPowerSet(s, dbm).sent == s.sent + [cmd];
    assert CreateTxPowerCmd(v % 64) == cmd;
  }

  /** selectTimer sends createSelectTimerCMD of the timer, after storing the argument or keeping the stored value. */
  lemma TimerCommandSent(s: State, timer: Option<int>)
    ensures var v := OrStored(timer, s.defaults.selectedTimer);
      0 <= v < 64 ==> TimerSelected(s, timer).sent == s.sent + [CreateSelectTimerCmd(v)]
  {
    var v := OrStored(timer, s.defaults.selectedTimer);
    if 0 <= v < 64 {
      var cmd: seq<Byte> := [0x80 + v, 0x0F];
      assert TimerSelected(s, timer).sent == s.sent + [cmd];
      assert CreateSelectTimerCmd(v) == cmd;
    }
  }

  /**
   * The setup commands: createSetupCMD with control RESET, ENABLE_LENGTH (parameter
   * `length >> 6`), PHY, MODULATION, FEATURES (parameter 0) and TXRX, the default DC field.
   */
  lemma SetupCommands(s: State, length: Option<int>, phy: Option<int>, modulation: Option<int>, parameter: int)
    ensures ResetSent(s).sent == s.sent + [CreateSetupCmd(ControlReset, ParameterDefault, DcDefault)]
    ensures FeaturesRead(s).sent == s.sent + [CreateSetupCmd(ControlFeatures, 0, DcDefault)]
    ensures var v := OrStored(length, s.defaults.lengthPayload);
      0 <= v < 4096 ==> LengthSet(s, length).sent == s.sent + [CreateSetupCmd(ControlEnableLength, LengthBits(v), DcDefault)]
    ensures var v := OrStored(phy, s.defaults.phyPayload);
      0 <= v < 64 ==> PhySet(s, phy).sent == s.sent + [CreateSetupCmd(ControlPhy, v, DcDefault)]
    ensures var v := OrStored(modulation, s.defaults.modulationPayload);
      0 <= v < 64 ==> ModulationSet(s, modulation).sent == s.sent + [CreateSetupCmd(ControlModulation, v, DcDefault)]
    ensures 0 <= parameter < 64 ==> SupportedRxTxRead(s, parameter).sent == s.sent + [CreateSetupCmd(ControlTxRx, parameter, DcDefault)]
  {
    KindValues();
  }

  // ---------------------------------------------------------------------------
  // Invariants
  // ---------------------------------------------------------------------------

  /** Stored defaults that fit their command fields. */
  predicate DefaultsOk(d: Defaults) {
    0 <= d.lengthPayload < 4096 && 0 <= d.modulationPayload < 64 && 0 <= d.phyPayload < 64 && 0 <= d.selectedTimer < 64
  }

  /** The installed waiter's promise is unresolved, and every resolution reports success. */
  predicate PromisesOk(pr: Promises) {
    && (pr.onEndEvent.Some? ==> pr.onEndEvent.value < pr.nextPromise && pr.onEndEvent.value !in pr.endResults)
    && (forall p :: p in pr.endResults ==> p < pr.nextPromise && pr.endResults[p].success)
  }

  /**
   * The guard flags: once a step has sent End, a clock has run out; an armed timer's
   * flag is still clear; and a step sends at most one End unless both activity flags
   * are set.
   */
  predicate GuardsOk(g: Guards) {
    && (g.stepEnds >= 1 ==> g.timedOut || g.sweepTimedOut)
    && (g.mainTimer.Some? ==> !g.timedOut)
    && (g.stepTimer.Some? ==> !g.sweepTimedOut)
    && (g.stepEnds <= 1 || (g.isTransmitting && g.isReceiving))
  }

  /** Only a start command can make a procedure fail. */
  predicate ResultOk(r: Option<Outcome>) {
    r.Some? && r.value.Failure? ==> r.value.message == StartTransmitterFailure || r.value.message == StartReceiverFailure
  }

  predicate Core(s: State) {
    DefaultsOk(s.defaults) && PromisesOk(s.promises) && GuardsOk(s.guards) && ResultOk(s.result) && |s.counts| == 40
  }

  /** What each phase implies about the timers, the waiter and the flags. */
  predicate PhaseOk(s: State) {
    var g, pr := s.guards, s.promises;
    match s.phase
    case Idle => g.mainTimer.None? && g.stepTimer.None?
    case AwaitStart(t, idx, w) =>
      && InRange(t, idx)
      && (g.mainTimer.Some? ==> g.mainTimer.value == t.kind)
      && g.stepTimer.None?
      && (w.Some? <==> t.sweep || t.kind == Receiver)
      && (w.Some? ==> w.value < pr.nextPromise && (pr.onEndEvent == w || (pr.onEndEvent.None? && w.value in pr.endResults)))
      && (t.sweep ==> !Flag(g, t.kind) && !g.sweepTimedOut && (!Flag(g, Other(t.kind)) ==> g.stepEnds == 0))
    case AwaitEnd(t, idx, p) =>
      && InRange(t, idx)
      && (g.mainTimer.Some? ==> g.mainTimer.value == t.kind)
      && (g.stepTimer.Some? ==> t.sweep && g.stepTimer.value == t.kind)
      && pr.onEndEvent == Some(p)
  }

  predicate Inv(s: State) {
    Core(s) && PhaseOk(s)
  }

  /** The setters keep the invariant when the stored values fit their command fields. */
  lemma ConfigurationKeepsInv(s: State, d: Defaults, cmd: seq<Byte>)
    requires Inv(s) && DefaultsOk(d)
    ensures Inv(s.(defaults := d, sent := s.sent + [cmd]))
  {
  }

  lemma InitialInv()
    ensures Inv(Initial())
  {
  }

  lemma ReturnedInv(s: State, o: Outcome)
    requires Core(s) && s.guards.stepTimer.None? && ResultOk(Some(o))
    ensures Inv(Returned(s, o))
  {
  }

  lemma StepBegunInv(s: State, t: Test, idx: int)
    requires Core(s) && InRange(t, idx) && t.sweep && !s.guards.timedOut && s.guards.stepTimer.None?
    requires s.guards.mainTimer.Some? ==> s.guards.mainTimer.value == t.kind
    ensures Inv(StepBegun(s, t, idx))
  {
  }

  lemma SweepStepEndedInv(s: State, t: Test, idx: int, draw: real)
    requires Core(s) && InRange(t, idx) && t.sweep && s.guards.stepTimer.None? && 0.0 <= draw < 1.0
    requires s.guards.mainTimer.Some? ==> s.guards.mainTimer.value == t.kind
    ensures Inv(SweepStepEnded(s, t, idx, draw))
  {
    var next := NextIndex(t, idx, draw);
    if Flag(s.guards, t.kind) && !s.guards.timedOut {
      StepBegunInv(s, t, next);
    } else if t.kind == Receiver {
      ReturnedInv(s, SweepResult(Sum(s.counts), Some(s.counts)));
    } else {
      ReturnedInv(s, SweepResult(0, None));
    }
  }

  lemma StepEndedInv(s: State, t: Test, idx: int, status: EndStatus, draw: real)
    requires Core(s) && InRange(t, idx) && status.success && 0.0 <= draw < 1.0
    requires s.guards.mainTimer.Some? ==> s.guards.mainTimer.value == t.kind
    requires s.guards.stepTimer.Some? ==> t.sweep
    ensures Inv(StepEnded(s, t, idx, status, draw))
  {
    if !t.sweep {
      ReturnedInv(s, Status(status));
    } else {
      var g := s.guards.(stepTimer := None);
      var slot := t.low + idx;
      var counts := if t.kind == Receiver then s.counts[slot := s.counts[slot] + status.received] else s.counts;
      SweepStepEndedInv(s.(guards := g, counts := counts), t, idx, draw);
    }
  }

  lemma EndAwaitedInv(s: State, t: Test, idx: int, p: nat, draw: real)
    requires Core(s) && InRange(t, idx) && 0.0 <= draw < 1.0
    requires s.guards.mainTimer.Some? ==> s.guards.mainTimer.value == t.kind
    requires s.guards.stepTimer.Some? ==> t.sweep && s.guards.stepTimer.value == t.kind
    requires p in s.promises.endResults || s.promises.onEndEvent == Some(p)
    ensures Inv(EndAwaited(s, t, idx, p, draw))
  {
    if p in s.promises.endResults {
      StepEndedInv(s, t, idx, s.promises.endResults[p], draw);
    }
  }

  lemma TestStartedInv(s: State, t: Test, timeout: int)
    requires Inv(s) && s.phase == Idle && ValidTest(t)
    ensures Inv(TestStarted(s, t, timeout))
  {
    var g := s.guards.(timedOut := false, stepEnds := 0, mainTimer := if timeout > 0 then Some(t.kind) else None);
    var s0 := s.(result := None, guards := g);
    assert Core(s0);
    if t.sweep {
      SweepStartedInv(s0, t);
    } else {
      SingleStartedInv(s0, t);
    }
  }

  lemma SingleStartedInv(s: State, t: Test)
    requires Core(s) && ValidTest(t) && !t.sweep && s.guards.stepEnds == 0 && s.guards.stepTimer.None?
    requires s.guards.mainTimer.Some? ==> s.guards.mainTimer.value == t.kind
    ensures Inv(SingleStarted(s, t))
  {
  }

  lemma SweepStartedInv(s: State, t: Test)
    requires Core(s) && ValidTest(t) && t.sweep && !s.guards.timedOut && s.guards.stepEnds == 0 && s.guards.stepTimer.None?
    requires s.guards.mainTimer.Some? ==> s.guards.mainTimer.value == t.kind
    ensures Inv(SweepStarted(s, t))
  {
    var s1 := s.(guards := SetFlag(s.guards, t.kind, false));
    var s2 := if t.kind == Receiver then s1.(counts := seq(40, _ => 0)) else s1;
    StepBegunInv(s2, t, 0);
  }

  lemma StartAnsweredInv(s: State, resp: Option<seq<Byte>>, draw: real)
    requires Inv(s) && s.phase.AwaitStart? && 0.0 <= draw < 1.0
    ensures Inv(StartAnswered(s, resp, draw))
  {
    var t, idx, w := s.phase.test, s.phase.idx, s.phase.waiter;
    if !t.sweep {
      if !ReportSuccess(resp) {
        ReturnedInv(s, Failure(StartFailure(t.kind)));
      } else if t.kind == Receiver {
        EndAwaitedInv(s, t, idx, w.value, draw);
      }
    } else {
      var g := SetFlag(s.guards, t.kind, true);
      if !ReportSuccess(resp) {
        var g' := if t.kind == Transmitter then g.(isTransmitting := false) else g;
        ReturnedInv(s.(guards := g'), Failure(StartFailure(t.kind)));
      } else {
        var s2 := s.(guards := g.(stepTimer := if t.sweepTime > 0 then Some(t.kind) else None, sweepTimedOut := false));
        var s3 := if s2.guards.timedOut then WithEnd(s2) else s2;
        EndAwaitedInv(s3, t, idx, w.value, draw);
      }
    }
  }

  lemma EndAnsweredInv(s: State, resp: Option<seq<Byte>>, draw: real)
    requires Inv(s) && s.pendingEnds > 0 && Response(resp) && 0.0 <= draw < 1.0
    ensures Inv(EndAnswered(s, resp, draw))
  {
    if resp.Some? && s.promises.onEndEvent.Some? {
      var p := s.promises.onEndEvent.value;
      var status := EndStatus(true, PacketCount(resp.value));
      var s2 := s.(pendingEnds := s.pendingEnds - 1,
                   promises := s.promises.(onEndEvent := None, endResults := s.promises.endResults[p := status]));
      assert PromisesOk(s2.promises);
      if s.phase.AwaitEnd? && s.phase.promise == p {
        assert EndAnswered(s, resp, draw) == StepEnded(s2, s.phase.test, s.phase.idx, status, draw);
        StepEndedInv(s2, s.phase.test, s.phase.idx, status, draw);
      } else {
        assert EndAnswered(s, resp, draw) == s2;
        EndUnawaitedInv(s, s2, p);
      }
    }
  }

  /** Resolving a promise nobody awaits yet keeps the phase consistent. */
  lemma EndUnawaitedInv(s: State, s2: State, p: nat)
    requires Inv(s) && s.promises.onEndEvent == Some(p) && !(s.phase.AwaitEnd? && s.phase.promise == p)
    requires s2.guards == s.guards && s2.phase == s.phase && s2.counts == s.counts && s2.result == s.result
    requires s2.defaults == s.defaults && PromisesOk(s2.promises)
    requires s2.promises.onEndEvent.None? && p in s2.promises.endResults
    requires s2.promises.nextPromise == s.promises.nextPromise
    ensures Inv(s2)
  {
  }

  lemma MainTimerFiredInv(s: State)
    requires Inv(s) && s.guards.mainTimer.Some?
    ensures Inv(MainTimerFired(s))
  {
  }

  lemma StepTimerFiredInv(s: State)
    requires Inv(s) && s.guards.stepTimer.Some?
    ensures Inv(StepTimerFired(s))
  {
  }

  lemma EndTestCalledInv(s: State)
    requires Inv(s)
    ensures Inv(EndTestCalled(s))
  {
  }

  // ---------------------------------------------------------------------------
  // Properties of the transitions
  // ---------------------------------------------------------------------------

  /** Whether s2 is s1 with End sent once more. */
  predicate EndSentOnce(s1: State, s2: State) {
    s2.sent == s1.sent + [[0xC0, 0x00]] && s2.pendingEnds == s1.pendingEnds + 1
  }

  /**
   * endTest is idempotent: once timedOut is set it does nothing. Otherwise it sets
   * timedOut, clears the whole-test timer, and sends End exactly when sweepTimedOut is
   * clear and a test is active.
   */
  lemma EndTestIdempotent(s: State)
    ensures s.guards.timedOut ==> EndTestCalled(s) == s
    ensures EndTestCalled(EndTestCalled(s)) == EndTestCalled(s)
    ensures !s.guards.timedOut ==> EndTestCalled(s).guards.timedOut && EndTestCalled(s).guards.mainTimer.None?
    ensures !s.guards.timedOut && !s.guards.sweepTimedOut && (s.guards.isTransmitting || s.guards.isReceiving)
            ==> EndSentOnce(s, EndTestCalled(s))
    ensures s.guards.timedOut || s.guards.sweepTimedOut || !(s.guards.isTransmitting || s.guards.isReceiving)
            ==> EndTestCalled(s).sent == s.sent && EndTestCalled(s).pendingEnds == s.pendingEnds
  {
  }

  /** The whole-test timer sends End exactly when its kind's flag is set and sweepTimedOut is clear. */
  lemma MainTimerGuard(s: State)
    requires s.guards.mainTimer.Some?
    ensures MainTimerFired(s).guards.timedOut && MainTimerFired(s).guards.mainTimer.None?
    ensures Flag(s.guards, s.guards.mainTimer.value) && !s.guards.sweepTimedOut ==> EndSentOnce(s, MainTimerFired(s))
    ensures !Flag(s.guards, s.guards.mainTimer.value) || s.guards.sweepTimedOut ==> MainTimerFired(s).sent == s.sent
  {
  }

  /** The step timer sends End exactly when its kind's flag is set and timedOut is clear. */
  lemma StepTimerGuard(s: State)
    requires s.guards.stepTimer.Some?
    ensures StepTimerFired(s).guards.sweepTimedOut && StepTimerFired(s).guards.stepTimer.None?
    ensures Flag(s.guards, s.guards.stepTimer.value) && !s.guards.timedOut ==> EndSentOnce(s, StepTimerFired(s))
    ensures !Flag(s.guards, s.guards.stepTimer.value) || s.guards.timedOut ==> StepTimerFired(s).sent == s.sent
  {
  }

  /** A timeout of zero or less schedules nothing: "0 disables timeout". */
  lemma TimeoutDisabled(s: State, t: Test, timeout: int)
    requires s.phase == Idle && ValidTest(t)
    ensures TestStarted(s, t, timeout).guards.mainTimer.None? <==> timeout <= 0
  {
  }

  /** Every procedure starts by sending the start command of its first channel. */
  lemma TestStartSends(s: State, t: Test, timeout: int)
    requires s.phase == Idle && ValidTest(t)
    ensures TestStarted(s, t, timeout).sent == s.sent + [StepCommand(t, 0)]
    ensures TestStarted(s, t, timeout).phase == AwaitStart(t, 0, TestStarted(s, t, timeout).phase.waiter)
  {
  }

  /** In every reachable state a step has sent at most one End, unless both activity flags are set. */
  lemma OneEndPerStep(s: State)
    requires Inv(s)
    ensures s.guards.stepEnds <= 1 || (s.guards.isTransmitting && s.guards.isReceiving)
    ensures s.guards.stepEnds >= 1 ==> s.guards.timedOut || s.guards.sweepTimedOut
  {
  }

  /**
   * The end-of-step waiter wakes at most once: an End response resolves exactly the
   * installed promise, if there is one and the response is present, and no promise that
   * had resolved changes.
   */
  lemma EndResolvesOnce(s: State, resp: Option<seq<Byte>>, draw: real)
    requires Inv(s) && s.pendingEnds > 0 && Response(resp) && 0.0 <= draw < 1.0
    ensures var r := EndAnswered(s, resp, draw);
      && (forall p :: p in s.promises.endResults ==>
            p in r.promises.endResults && r.promises.endResults[p] == s.promises.endResults[p])
      && r.promises.endResults.Keys - s.promises.endResults.Keys
         == (if resp.Some? && s.promises.onEndEvent.Some? then {s.promises.onEndEvent.value} else {})
      && (resp.Some? && s.promises.onEndEvent.Some? ==>
            r.promises.endResults[s.promises.onEndEvent.value] == EndStatus(true, PacketCount(resp.value)))
  {
    var r := EndAnswered(s, resp, draw);
    if resp.Some? && s.promises.onEndEvent.Some? {
      var p := s.promises.onEndEvent.value;
      var status := EndStatus(true, PacketCount(resp.value));
      var m := s.promises.endResults[p := status];
      var s2 := s.(pendingEnds := s.pendingEnds - 1,
                   promises := s.promises.(onEndEvent := None, endResults := m));
      if s.phase.AwaitEnd? && s.phase.promise == p {
        assert r == StepEnded(s2, s.phase.test, s.phase.idx, status, draw);
        StepEndedKeepsResults(s2, s.phase.test, s.phase.idx, status, draw);
      } else {
        assert r == s2;
      }
      assert r.promises.endResults == m;
      MapAddKeys(s.promises.endResults, p, status);
    } else {
      assert r.promises.endResults == s.promises.endResults;
    }
  }

  lemma MapAddKeys<K, V>(m: map<K, V>, k: K, v: V)
    requires k !in m
    ensures m[k := v].Keys - m.Keys == {k}
    ensures forall j :: j in m ==> j in m[k := v] && m[k := v][j] == m[j]
  {
  }

  /** What a procedure does after its promise resolved creates promises but resolves none. */
  lemma StepEndedKeepsResults(s: State, t: Test, idx: int, status: EndStatus, draw: real)
    requires InRange(t, idx) && |s.counts| == 40 && 0.0 <= draw < 1.0
    ensures StepEnded(s, t, idx, status, draw).promises.endResults == s.promises.endResults
  {
    if t.sweep && status.success {
      var g := s.guards.(stepTimer := None);
      var slot := t.low + idx;
      var counts := if t.kind == Receiver then s.counts[slot := s.counts[slot] + status.received] else s.counts;
      assert StepEnded(s, t, idx, status, draw) == SweepStepEnded(s.(guards := g, counts := counts), t, idx, draw);
    }
  }

  /**
   * Every end-of-step promise resolves with success, so the "Failed to send ... end
   * event" branches are never taken and a reachable state never holds their result.
   */
  lemma EndFailureUnreachable(s: State)
    requires Inv(s)
    ensures forall p :: p in s.promises.endResults ==> s.promises.endResults[p].success
    ensures s.result != Some(Failure(EndTransmitterFailure)) && s.result != Some(Failure(EndReceiverFailure))
  {
    assert EndTransmitterFailure[0] != StartTransmitterFailure[0] && EndTransmitterFailure[0] != StartReceiverFailure[0];
    assert EndReceiverFailure[0] != StartTransmitterFailure[0] && EndReceiverFailure[0] != StartReceiverFailure[0];
  }

  /**
   * A successful receiver sweep step adds the step's count to slot channelLow + idx of
   * the 40-slot array, so the total grows by exactly that count.
   */
  lemma ReceiverStepCounts(s: State, t: Test, idx: int, status: EndStatus, draw: real)
    requires InRange(t, idx) && |s.counts| == 40 && 0.0 <= draw < 1.0
    requires t.sweep && t.kind == Receiver && status.success
    ensures var r := StepEnded(s, t, idx, status, draw);
      && |r.counts| == 40
      && r.counts == s.counts[t.low + idx := s.counts[t.low + idx] + status.received]
      && Sum(r.counts) == Sum(s.counts) + status.received
      && (r.phase == Idle ==> r.result == Some(SweepResult(Sum(r.counts), Some(r.counts))))
  {
    var slot := t.low + idx;
    var s1 := s.(guards := s.guards.(stepTimer := None), counts := s.counts[slot := s.counts[slot] + status.received]);
    assert StepEnded(s, t, idx, status, draw) == SweepStepEnded(s1, t, idx, draw);
    SumUpdate(s.counts, slot, status.received);
  }

  /** A receiver sweep starts from forty zero counts. */
  lemma ReceiverSweepStartsAtZero(s: State, t: Test, timeout: int)
    requires s.phase == Idle && ValidTest(t) && t.sweep && t.kind == Receiver
    ensures |TestStarted(s, t, timeout).counts| == 40 && Sum(TestStarted(s, t, timeout).counts) == 0
  {
    SumZeros(40);
  }

  /** A transmitter sweep that finishes after a step returns zero received packets. */
  lemma TransmitterSweepReturnsZero(s: State, t: Test, idx: int, status: EndStatus, draw: real)
    requires InRange(t, idx) && |s.counts| == 40 && 0.0 <= draw < 1.0
    requires t.sweep && t.kind == Transmitter && status.success
    ensures var r := StepEnded(s, t, idx, status, draw);
      r.phase == Idle ==> r.result == Some(SweepResult(0, None))
  {
    var s1 := s.(guards := s.guards.(stepTimer := None));
    assert StepEnded(s, t, idx, status, draw) == SweepStepEnded(s1, t, idx, draw);
  }

  /**
   * A sweep keeps going while its clock has not run out: after a successful step with
   * timedOut clear, the next step's start command is sent for a channel in range.
   */
  lemma SweepContinues(s: State, t: Test, idx: int, status: EndStatus, draw: real)
    requires Inv(s.(phase := AwaitEnd(t, idx, 0))) && InRange(t, idx) && 0.0 <= draw < 1.0
    requires t.sweep && status.success && Flag(s.guards, t.kind) && !s.guards.timedOut
    ensures var r := StepEnded(s, t, idx, status, draw);
      && r.phase.AwaitStart? && r.phase.test == t && r.phase.idx == NextIndex(t, idx, draw)
      && t.low <= t.low + r.phase.idx <= t.high
      && r.sent == s.sent + [StepCommand(t, NextIndex(t, idx, draw))]
  {
    var slot := t.low + idx;
    var counts := if t.kind == Receiver then s.counts[slot := s.counts[slot] + status.received] else s.counts;
    var s1 := s.(guards := s.guards.(stepTimer := None), counts := counts);
    assert StepEnded(s, t, idx, status, draw) == SweepStepEnded(s1, t, idx, draw);
  }

  // ---------------------------------------------------------------------------
  // Reachable behaviours worth knowing
  // ---------------------------------------------------------------------------

  /**
   * isReceiving is never cleared when a receiver test ends: here a single-channel
   * receiver test whose start command is refused leaves it set.
   */
  lemma StaleReceivingFlag()
    ensures var rx := Test(Receiver, false, 5, 5, 0, 0, 0, false);
      var s := StartAnswered(TestStarted(Initial(), rx, 0), Some([1, 0]), 0.0);
      Inv(s) && s.phase == Idle && s.result == Some(Failure(StartReceiverFailure)) && s.guards.isReceiving
  {
    var rx := Test(Receiver, false, 5, 5, 0, 0, 0, false);
    InitialInv();
    var s0 := TestStarted(Initial(), rx, 0);
    TestStartedInv(Initial(), rx, 0);
    assert s0.phase == AwaitStart(rx, 0, Some(0)) && s0.guards.isReceiving;
    assert !ReportSuccess(Some([1, 0]));
    StartAnsweredInv(s0, Some([1, 0]), 0.0);
  }

  /**
   * With isReceiving left set, a transmitter sweep starts with that flag still set, and
   * endTest during the first start command sends End because of it (EndTestWhileReceiving);
   * EndDuringStartFails then shows that End taking the start command's answer.
   */
  lemma TransmitterSweepStarted(s: State, tx: Test)
    requires Inv(s) && s.phase == Idle && s.guards.isReceiving
    requires ValidTest(tx) && tx.sweep && tx.kind == Transmitter
    ensures var s2 := TestStarted(s, tx, 0);
      && Inv(s2) && s2.phase == AwaitStart(tx, 0, Some(s.promises.nextPromise))
      && s2.promises.onEndEvent == s2.phase.waiter
      && s2.guards.isReceiving && !s2.guards.timedOut && !s2.guards.sweepTimedOut && s2.guards.stepEnds == 0
      && s2.sent == s.sent + [StepCommand(tx, 0)]
  {
    TestStartedInv(s, tx, 0);
  }

  /** endTest while a start command is outstanding and isReceiving is set sends End once. */
  lemma EndTestWhileReceiving(s: State)
    requires Inv(s) && s.phase.AwaitStart? && s.guards.isReceiving && !s.guards.timedOut && !s.guards.sweepTimedOut
    ensures var s2 := EndTestCalled(s);
      && Inv(s2) && s2.phase == s.phase && s2.promises == s.promises
      && s2.guards.timedOut && s2.guards.stepEnds == s.guards.stepEnds + 1
      && s2.sent == s.sent + [EndCommand]
  {
    EndTestCalledInv(s);
  }

  /**
   * The single-channel transmitter test creates its end-of-step promise only after the
   * start response. When the whole-test timer fires while the start command is still
   * outstanding, End is sent and no promise is there to receive its report;
   * EndDuringStartFails shows how the procedure then ends.
   */
  lemma SingleTransmitterTimesOutEarly(s: State, tx: Test, timeout: int)
    requires Inv(s) && s.phase == Idle && s.pendingEnds == 0 && s.promises.onEndEvent.None?
    requires ValidTest(tx) && !tx.sweep && tx.kind == Transmitter && timeout > 0
    ensures var s1 := MainTimerFired(TestStarted(s, tx, timeout));
      && Inv(s1) && s1.phase == AwaitStart(tx, 0, None) && s1.promises.onEndEvent.None?
      && s1.guards.timedOut && s1.pendingEnds == 1
      && s1.guards.mainTimer.None? && s1.guards.stepTimer.None?
  {
    var s0 := TestStarted(s, tx, timeout);
    TestStartedInv(s, tx, timeout);
    assert s0.phase == AwaitStart(tx, 0, None) && s0.guards.isTransmitting && s0.guards.mainTimer == Some(Transmitter);
    MainTimerFiredInv(s0);
    assert MainTimerFired(s0) == WithEnd(s0.(guards := s0.guards.(mainTimer := None, timedOut := true)));
  }

  /**
   * The transport has one response waiter, and each send replaces it. So when End is
   * sent during the await of a start command (stepEnds counts the End commands sent
   * since that command), the device's answer to the start command resolves the End
   * request, and the start request resolves with `undefined` when its 1000 ms timer
   * fires. The End's endCurrentTest resolves the installed end-of-step promise, if any,
   * with success and the count decoded from the start's answer; the procedure then
   * reports that it could not start, sending nothing more. The End's own answer arrives
   * when no waiter is installed and is dropped.
   */
  lemma EndDuringStartFails(s: State, answer: seq<Byte>, draw: real)
    requires Inv(s) && s.phase.AwaitStart? && s.guards.stepEnds > 0 && s.pendingEnds > 0
    requires |answer| == 2 && 0.0 <= draw < 1.0
    ensures var s1 := EndAnswered(s, Some(answer), draw);
      var s2 := StartAnswered(s1, None, draw);
      && Inv(s2) && s2.phase == Idle && s2.result == Some(Failure(StartFailure(s.phase.test.kind)))
      && s2.sent == s.sent && s2.pendingEnds == s.pendingEnds - 1
      && s2.guards.mainTimer.None? && s2.guards.stepTimer.None?
      && (s.promises.onEndEvent.Some? ==>
            && s2.promises.onEndEvent.None?
            && s2.promises.endResults == s.promises.endResults[s.promises.onEndEvent.value := EndStatus(true, PacketCount(answer))])
  {
    var s1 := EndAnswered(s, Some(answer), draw);
    EndAnsweredInv(s, Some(answer), draw);
    assert s1.phase == s.phase && s1.sent == s.sent;
    StartAnsweredInv(s1, None, draw);
    assert !ReportSuccess(None);
  }
}
