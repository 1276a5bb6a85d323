# nrf-dtm-js: Direct Test Mode driver, modelled in Dafny

nrf-dtm-js drives a Bluetooth LE radio in Direct Test Mode (DTM, Bluetooth Core
Specification Vol 6, Part F). A UART carries 16-bit commands to the device. The device
answers each command with a 2-byte event.

This project models three pieces of the library: the command codec, the serial
transport and the test controller. It models two implementations of each:

- the current sources, src/DTM_transport.js and src/DTM.js;
- the older bundled build, dist/nrf-dtm.js, which differs from src in several ways.

Modules, one per file:

- `Basics` (basics.dfy): `Option` and the `Byte` type.
- `Bits` (bits.dfy): the JavaScript number operations the codec and the controller rely
  on, on mathematical integers:
  - `toString(2)`, `padStart`, `parseInt(…, 2)`;
  - `&`, `|`, `<<`, `>>`, and ToInt32 for negative operands.
- `Codec` (codec.dfy): the src command builders. It builds the same digit string as
  the source, `kind[2] field1[6] field2[6] field3[2]`, runs it through `DTM_CMD_FORMAT`,
  and proves the result equal to the arithmetic layout
  `kind*2^14 + field1*2^8 + field2*2^2 + field3`. `DecodeCommand` is its inverse.
- `Transport` (transport.dfy): class `DtmTransport`. It models:
  - the lazy `waitForOpen` flag;
  - the single waiter `callback`;
  - the one-byte reassembly buffer;
  - the 1000 ms response timer;
  - the requests suspended at `await this.waitForOpen`, oldest first, and those
    suspended on an open that never settles (`stranded`).
- `Controller` (controller.dfy): class DTM of src/DTM.js as a value (`State`), with one
  transition per event and its invariant `Inv`. The events are:
  - a test procedure starts;
  - a start response arrives;
  - an End response arrives;
  - the whole-test timer fires;
  - the per-step sweep timer fires;
  - `endTest` is called;
  - a setter is called.
- `DtmObject` (dtm.dfy): class `Dtm`, whose fields are those of the source class. Each
  event method and setter is proved to perform exactly one `Controller` transition and
  to keep `Valid()`, which is `Controller.Inv` of the object's fields.
- `BundleCodec`, `BundleTransport`, `BundleController`, `BundleObject`
  (the bundle_* files): the same four layers for dist/nrf-dtm.js.

How asynchrony is modelled:

- An `async` procedure is a sequence of states. Its local variables and the point it
  is suspended at are kept in a `phase` field.
- Each event runs to completion together with the `await`s it releases, as a
  JavaScript task runs before its microtasks.
- `Math.random()` becomes a `draw: real` argument with `0 <= draw < 1`.

## Model

| member | source | states |
|---|---|---|
| Bits.PadStart | src/DTM_transport.js:114 | `padStart(n, '0')` never truncates: the length is the larger of `\|s\|` and n, s is a suffix and the added prefix is zeros |
| Bits.PadValue | src/DTM_transport.js:114 | padding a digit string with zeros on the left keeps it a digit string and keeps its value |
| Bits.ToBitString | src/DTM_transport.js:114 | `toBitString(v, width)` is a string of binary digits, at least width long, whose value is v |
| Bits.BinaryValue | src/DTM_transport.js:114 | the digits of `toString(2)` read back by `parseInt(…, 2)` give the number |
| Bits.BinaryWidth | src/DTM_transport.js:114 | `toString(2)` uses at most w digits exactly when the value is below 2^w |
| Bits.ToBitStringFits | src/DTM_transport.js:114 | `toBitString(v, width)` of a value below 2^width has exactly width digits, whose value is v |
| Bits.ToBitStringOverflows | src/DTM_transport.js:114 | a value that does not fit is not masked: the string is longer than width |
| Bits.BitValueConcat | src/DTM_transport.js:108-112 | `parseInt` of a concatenation is the first part shifted by the length of the second, plus the second |
| Bits.BitValueBound | src/DTM_transport.js:108-112 | n binary digits have a value below 2^n |
| Bits.AndLowMask | src/DTM.js:150 | `u & (2^k - 1)` is `u mod 2^k` |
| Bits.AndSingleBit | src/DTM.js:146 | `u & 2^k` is 2^k or 0, depending on bit k of u |
| Bits.OrShifted | src/DTM.js:152 | or-ing a value shifted by k with one below 2^k is their sum |
| Bits.AndInt3F | src/DTM.js:185 | `x & 0x3F` is x modulo 64, for negative x too (two's complement) |
| Codec.EncodeWord | src/DTM_transport.js:108-112 | the two bytes of a command read as a big-endian word are kind*2^14 + f1*2^8 + f2*2^2 + f3 |
| Codec.Encode | src/DTM_transport.js:108-112 | the arithmetic layout of a command: two bytes whose big-endian word is kind*2^14 + f1*2^8 + f2*2^2 + f3 |
| Codec.DecodeCommand | src/DTM_transport.js:108-112 | splits two bytes into fields that fit 2, 6, 6 and 2 bits, from which the bytes recombine as kind*64 + f1 and f2*4 + f3 |
| Codec.CreateCmd | src/DTM_transport.js:199-201 | `createCMD` called with one argument appends the text "undefined" three times, and the command is still `DTM_CMD_FORMAT` of the argument alone |
| Codec.DecodeEncode | src/DTM_transport.js:108-112 | reading a built command's fields back gives the fields it was built from |
| Codec.EncodeDecode | src/DTM_transport.js:108-112 | every two-byte command is the encoding of its decoded fields |
| Codec.CmdFormat | src/DTM_transport.js:108-112 | `DTM_CMD_FORMAT` yields two bytes whose word is the value of the first 16 digits |
| Codec.SuffixIgnored | src/DTM_transport.js:108-112 | digits after the first 16 do not change the command |
| Codec.FormatBytes | src/DTM_transport.js:108-112 | the first byte is the value of the first 8 digits and the second byte that of the next 8 |
| Codec.DtmFrequency | src/DTM_transport.js:70 | `DTM_FREQUENCY(f)` is the 6 digits of `(f - 2402) / 2`, or more digits when that offset is 64 or more |
| Codec.CreateSetupCmd | src/DTM_transport.js:212-223 | the setup command is the layout (0, control, parameter, dc) |
| Codec.CreateEndCmd | src/DTM_transport.js:225-231 | the End command is (3, 0, 0, 0), the bytes 0xC0 0x00 |
| Codec.CreateTransmitterCmd | src/DTM_transport.js:242-253 | the transmitter command is (2, channel, length, packet type) |
| Codec.CreateReceiverCmd | src/DTM_transport.js:264-275 | the receiver command is (1, channel, length, packet type) |
| Codec.CreateTxPowerCmd | src/DTM_transport.js:279-285 | the vendor-specific transmit-power command: 0x80 + dbm, then 0x0B |
| Codec.CreateSelectTimerCmd | src/DTM_transport.js:287-293 | the vendor-specific timer command: 0x80 + value, then 0x0F |
| Codec.FrequencyVectors | src/DTM_transport.js:70 | 2402 MHz is channel 000000 and 2480 MHz is channel 100111 |
| Codec.CmdFormatVector | src/DTM_transport.js:108-112 | "0000111100001111" formats to 0x0F 0x0F |
| Codec.DefaultCommandVectors | src/DTM_transport.js:212-275 | the default reset, transmitter, receiver and End commands are 0x0000, 0x8000, 0x4000 and 0xC000 |
| Transport.ReassembleKeepsFraming | src/DTM_transport.js:134-152 | the buffer never holds more than one byte, and only two-byte responses reach the waiter |
| Transport.Reassemble | src/DTM_transport.js:134-152 | a chunk reaches the waiter only while one is installed and only when it has 1 or 2 bytes; a lone byte empties the buffer when it completes it. Otherwise the buffer is kept, or a first lone byte is stored |
| Transport.ReassembleDrops | src/DTM_transport.js:134-152 | a chunk is dropped when no waiter is installed or when its length is not 1 or 2 |
| Transport.SplitResponseReassembled | src/DTM_transport.js:137-143 | a response that arrives as two single bytes reaches the waiter whole, and the buffer is left empty |
| Transport.StaleByteShiftsResponse | src/DTM_transport.js:134-152 | a byte left behind by a timed-out request is glued to the first byte of the next response. The response's second byte then stays in the buffer if a new waiter is installed, and is dropped otherwise |
| Transport.DtmTransport.constructor | src/DTM_transport.js:122-127 | the port starts closed, with no waiter, no buffer and no request |
| Transport.DtmTransport.SendCmd | src/DTM_transport.js:295-316 | the port is opened only when `waitForOpen` is null. Over an opened port the command is written, the timer armed and the waiter installed. While the open is pending the request joins the end of the queue; over an open that never settles it is stranded. No resolved promise changes, and no stranded request leaves `stranded` |
| Transport.DtmTransport.NewRequest | src/DTM_transport.js:296 | a fresh request, newer than every suspended one, that has written nothing, has no timer and has not resolved |
| Transport.DtmTransport.StartOpen | src/DTM_transport.js:297-299 | `port.open` is called once more and `waitForOpen` holds its pending promise |
| Transport.DtmTransport.Enqueue | src/DTM_transport.js:300 | the request is suspended behind every request already waiting on the pending open |
| Transport.DtmTransport.Strand | src/DTM_transport.js:161-166 | the request waits on a promise that never settles |
| Transport.DtmTransport.Write | src/DTM_transport.js:302-313 | the request's own command is written, its timer armed and its waiter installed |
| Transport.DtmTransport.OnOpenResult | src/DTM_transport.js:161-172 | "already open" and "opening" errors throw inside the open callback: the open stays pending for ever (`Stranded`) and every request waiting on it is stranded, with nothing written. Until a successful close(), later sends are stranded too. Any other result, error or not, resolves the open, and every waiting request then writes its command in the order it was sent; the last one's waiter is the one installed |
| Transport.DtmTransport.ResumeAll | src/DTM_transport.js:300-313 | the waiting requests resume oldest first: their commands are written in that order, each arms its timer, and the waiter left is the newest one's |
| Transport.DtmTransport.ResumeNext | src/DTM_transport.js:300-313 | the oldest waiting request leaves the queue, writes its command, arms its timer and installs its waiter |
| Transport.DtmTransport.OnData | src/DTM_transport.js:134-152 | the buffer and the delivered response are those of `Reassemble`. A delivered response resolves the installed request exactly once and cancels its timer |
| Transport.DtmTransport.Deliver | src/DTM_transport.js:308-313 | the waiter uninstalls itself, cancels its timer and resolves its (unresolved) request with the data |
| Transport.DtmTransport.OnResponseTimeout | src/DTM_transport.js:303-306 | after 1000 ms the waiter is removed and the request resolves with `undefined` |
| Transport.DtmTransport.Close | src/DTM_transport.js:174-188 | a successful close resets `waitForOpen`; a failed one leaves it. Requests already suspended stay suspended |
| Transport.StrandedNeverServed | src/DTM_transport.js:161-166 | a stranded request is never written, has no timer or waiter, and never resolves |
| Transport.CloseThenSendReopens | src/DTM_transport.js:174-188 | after a successful close, the next send calls `port.open` once more and is the only request waiting for it, writing nothing yet |
| Transport.SendsShareOpen | src/DTM_transport.js:295-300 | two sends in a row open the port at most once, and not at all unless it was closed; they get distinct requests |
| Transport.QueuedSendsScenario | src/DTM_transport.js:295-313 | two sends made while the port opens are written in order once it opens; the first answer resolves the second request, and the first keeps its timer |
| Transport.StrandedOpenScenario | src/DTM_transport.js:161-172 | after an "already open" error, the request waiting on that open and a later send are both stranded: nothing is written, nothing resolves and no further open is attempted before a successful close() |
| Transport.StrandedSurvivesReopen | src/DTM_transport.js:161-188 | after a stranded open, a successful close and a new send, the port opens again and only the new command is written; the stranded request stays pending for ever |
| Transport.SplitResponseScenario | src/DTM_transport.js:137-143 | a response in two single bytes resolves its request with the whole response, cancels its timer and leaves no buffer or waiter |
| Transport.OverlappingRequestsScenario | src/DTM_transport.js:295-313 | with two requests outstanding, the one waiter belongs to the second: the first answer resolves the second request, and the first resolves `undefined` when its timer fires |
| Controller.ChannelToFrequency | src/DTM.js:57-59 | the frequency is 2402 + 2*channel, so the offset to 2402 halves back to the channel |
| Controller.ChannelEncoding | src/DTM.js:57-59 | `DTM_FREQUENCY` of a channel's frequency is the channel number in 6 binary digits |
| Controller.ReportSuccess | src/DTM.js:61-69 | success exactly when a two-byte response has bit 0 of its first byte clear |
| Controller.PacketCount | src/DTM.js:146-153 | a packet report event gives the 14-bit count of its two bytes; a status event gives 0 |
| Controller.PacketCountRoundTrip | src/DTM.js:146-153 | a report event built from any count below 2^14 decodes to that count |
| Controller.StatusEventCountsNothing | src/DTM.js:146-153 | a test status event always counts zero packets |
| Controller.CarrierTestCmd | src/DTM.js:160-166 | a transmitter command whose length field is `length & 0x3F`, or 0 for the vendor packet type |
| Controller.CarrierTestStudioCmd | src/DTM.js:168-174 | as carrierTestCMD, with length 1 for the vendor packet type |
| Controller.CarrierVariantsAgree | src/DTM.js:160-174 | the two carrier commands agree except for the vendor packet type |
| Controller.TxPowerField | src/DTM.js:183-189 | from -40 to +8 dBm, `dbm & 0x3F` sends a negative power as dbm + 64 |
| Controller.LengthBits | src/DTM.js:227-237 | `length >> 6` is the upper six bits of a length below 4096 |
| Controller.LengthSplit | src/DTM.js:227-237 | those upper six bits and the lower six given by `& 0x3F` together make up the length |
| Controller.NextSequential | src/DTM.js:449 | the sequential sweep advances by one and wraps from the last offset to 0 |
| Controller.NextRandomTransmitter | src/DTM.js:446-447 | the random transmitter offset is below high - low, so channelHigh is never chosen |
| Controller.NextRandomReceiver | src/DTM.js:597-598 | the random receiver offset is within the range, and it is 0 exactly when the draw is 0 or the range is one channel |
| Controller.SumUpdate | src/DTM.js:604-609 | adding d to one count adds d to the total |
| Controller.StepBegun | src/DTM.js:391-403 | a sweep iteration begins: it awaits the start response of channel low + idx with a fresh end-of-step promise installed, has sent that step's start command, and has cleared its kind's flag; results so far are kept |
| Controller.StepEnded | src/DTM.js:430-454 | after the end-of-step promise: a single test returns its status; a failed sweep step returns the end failure; a successful step either returns or begins the next step of the same test |
| Controller.TestStarted | src/DTM.js:323-356 | every procedure awaits the start response of its first channel with no result yet, having sent that command, cleared timedOut and armed the whole-test timer exactly for a positive timeout |
| Controller.StartAnswered | src/DTM.js:409-428 | a refused or missing start response returns the start failure and sends nothing; an accepted single transmitter test installs its end-of-step promise and awaits it |
| Controller.EndAnswered | src/DTM.js:143-158 | an End response consumes one outstanding End; a missing response or no installed waiter changes nothing else; otherwise the installed promise resolves with success and the decoded count |
| Controller.MainTimerFired | src/DTM.js:96-110 | the whole-test timer sets timedOut and disarms itself, sends End or nothing, and leaves the procedure and its promises alone |
| Controller.StepTimerFired | src/DTM.js:112-126 | the step timer sets sweepTimedOut and disarms itself, sends End or nothing, and leaves the procedure and its promises alone |
| Controller.EndTestCalled | src/DTM.js:617-627 | endTest sets timedOut, sends End or nothing, leaves the procedure alone, and changes nothing when timedOut is already set |
| Controller.StepCommandBuilt | src/DTM.js:401-403 | a step's start command is carrierTestCMD, or createReceiverCMD with length and packet type 0, on channel low + offset |
| Controller.TxPowerCommandSent | src/DTM.js:183-189 | setTxPower sends createTxPowerCMD of the power's low six bits, after storing its argument or reusing the stored value |
| Controller.TimerCommandSent | src/DTM.js:198-203 | selectTimer sends createSelectTimerCMD of the timer, after storing its argument or reusing the stored value |
| Controller.SetupCommands | src/DTM.js:210-311 | the exact setup command each setter sends (reset, length >> 6, PHY, modulation, features, TX/RX parameter) |
| Controller.InitialInv | src/DTM.js:72-86 | the constructor's state satisfies the invariant |
| Controller.ConfigurationKeepsInv | src/DTM.js:183-311 | a setter keeps the invariant when the stored values fit their fields |
| Controller.TestStartedInv | src/DTM.js:323-356 | starting any of the four procedures from idle keeps the invariant |
| Controller.StartAnsweredInv | src/DTM.js:409-428 | the start response keeps the invariant, whether it is accepted, refused or missing |
| Controller.EndAnsweredInv | src/DTM.js:143-158 | an End response keeps the invariant, including when it wakes the procedure's next step |
| Controller.MainTimerFiredInv | src/DTM.js:96-110 | the whole-test timer keeps the invariant |
| Controller.StepTimerFiredInv | src/DTM.js:112-126 | the sweep step timer keeps the invariant |
| Controller.EndTestCalledInv | src/DTM.js:617-627 | endTest keeps the invariant |
| Controller.StepEndedInv | src/DTM.js:430-454 | the end of a step (count, advance, loop or return) keeps the invariant |
| Controller.EndTestIdempotent | src/DTM.js:617-627 | endTest does nothing once timedOut is set, and calling it twice is the same as calling it once. It sends End exactly when no clock has run out and a test is active |
| Controller.MainTimerGuard | src/DTM.js:96-110 | the whole-test timer sends End exactly when its kind's flag is set and sweepTimedOut is clear |
| Controller.StepTimerGuard | src/DTM.js:112-126 | the step timer sends End exactly when its kind's flag is set and timedOut is clear |
| Controller.TimeoutDisabled | src/DTM.js:96-110 | no whole-test timer is armed exactly when the timeout is 0 or less |
| Controller.TestStartSends | src/DTM.js:323-356 | every procedure first sends the start command of its first channel and awaits its response |
| Controller.OneEndPerStep | src/DTM.js:96-126 | a step sends at most one End unless both activity flags are set, and only once a clock has run out |
| Controller.EndResolvesOnce | src/DTM.js:134-158 | an End response resolves exactly the installed promise, with success and the decoded count, and no other promise changes |
| Controller.EndFailureUnreachable | src/DTM.js:430-439 | every end-of-step promise resolves with success, so "Failed to send … end event" is never returned |
| Controller.ReceiverStepCounts | src/DTM.js:582-609 | a receiver sweep step adds its count to slot low + offset of the 40 counts, and the returned total is their sum |
| Controller.ReceiverSweepStartsAtZero | src/DTM.js:532 | a receiver sweep starts from 40 zero counts |
| Controller.TransmitterSweepReturnsZero | src/DTM.js:453-454 | a finished transmitter sweep returns zero received packets |
| Controller.SweepContinues | src/DTM.js:441-451 | after a successful step with time left, the sweep starts the next channel, which is in range |
| Controller.StaleReceivingFlag | src/DTM.js:465-500 | a refused receiver start leaves isReceiving set after its test has ended |
| Controller.TransmitterSweepStarted | src/DTM.js:375-403 | with isReceiving still set, a transmitter sweep's first start command is outstanding while that flag is set |
| Controller.EndTestWhileReceiving | src/DTM.js:617-627 | then endTest sends End because of the stale flag |
| Controller.SingleTransmitterTimesOutEarly | src/DTM.js:323-356 | a single transmitter test whose timer fires before the start response sends End with no promise installed to receive its report |
| Controller.EndDuringStartFails | src/DTM_transport.js:300-313 | with src's single waiter, an End sent while the start command is outstanding receives the start's answer and resolves the installed promise with it; the start then resolves `undefined`, and the test returns the start failure |
| DtmObject.Dtm.constructor | src/DTM.js:72-86 | the object's state is `Initial()`: length 1, standard modulation, LE 1M, 0 dBm, timer 0, all flags clear |
| DtmObject.Dtm.SingleChannelTransmitterTest | src/DTM.js:323-356 | performs `TestStarted` for a one-channel transmitter test, from and into a state satisfying `Valid()` |
| DtmObject.Dtm.SweepTransmitterTest | src/DTM.js:375-403 | performs `TestStarted` for a transmitter sweep over [channelLow, channelHigh], from and into a state satisfying `Valid()` |
| DtmObject.Dtm.SingleChannelReceiverTest | src/DTM.js:465-485 | performs `TestStarted` for a one-channel receiver test, from and into a state satisfying `Valid()` |
| DtmObject.Dtm.SweepReceiverTest | src/DTM.js:518-560 | performs `TestStarted` for a receiver sweep, with a fresh array of 40 zeros, from and into a state satisfying `Valid()` |
| DtmObject.Dtm.OnStartResponse | src/DTM.js:409-428 | performs `StartAnswered` on the object's fields, from and into a state satisfying `Valid()` |
| DtmObject.Dtm.ContinueAfterStart | src/DTM.js:409-428 | the rest of the procedure after its start response performs `StartAnswered` |
| DtmObject.Dtm.OnEndResponse | src/DTM.js:143-158 | performs `EndAnswered` on the object's fields, from and into a state satisfying `Valid()` |
| DtmObject.Dtm.ContinueEndCurrentTest | src/DTM.js:143-158 | the rest of endCurrentTest performs `EndAnswered` |
| DtmObject.Dtm.ResolveAndResume | src/DTM.js:134-141 | the installed waiter resolves its promise, and the procedure awaiting it continues (`EndResolved`) |
| DtmObject.Dtm.OnTimeout | src/DTM.js:96-110 | performs `MainTimerFired`, from and into a state satisfying `Valid()` |
| DtmObject.Dtm.OnSweepTimeout | src/DTM.js:112-126 | performs `StepTimerFired`, from and into a state satisfying `Valid()` |
| DtmObject.Dtm.EndTest | src/DTM.js:617-627 | performs `EndTestCalled`, from and into a state satisfying `Valid()` |
| DtmObject.Dtm.SetTxPower | src/DTM.js:183-189 | performs `TxPowerSet`, from and into a state satisfying `Valid()` |
| DtmObject.Dtm.SelectTimer | src/DTM.js:198-203 | performs `TimerSelected`, from and into a state satisfying `Valid()` |
| DtmObject.Dtm.SetupReset | src/DTM.js:210-218 | performs `ResetSent`, from and into a state satisfying `Valid()` |
| DtmObject.Dtm.SetupLength | src/DTM.js:227-237 | performs `LengthSet`, from and into a state satisfying `Valid()` |
| DtmObject.Dtm.SetupPhy | src/DTM.js:247-256 | performs `PhySet`, from and into a state satisfying `Valid()` |
| DtmObject.Dtm.SetupModulation | src/DTM.js:266-275 | performs `ModulationSet`, from and into a state satisfying `Valid()` |
| DtmObject.Dtm.SetupReadFeatures | src/DTM.js:282-290 | performs `FeaturesRead`, from and into a state satisfying `Valid()` |
| DtmObject.Dtm.SetupReadSupportedRxTx | src/DTM.js:303-311 | performs `SupportedRxTxRead`, from and into a state satisfying `Valid()` |
| DtmObject.TxPowerCommand | src/DTM.js:185-186 | the transmit-power command is 0x80 + (dbm mod 64), then 0x0B |
| DtmObject.SelectTimerCommand | src/DTM.js:200 | the timer command is 0x80 + timer, then 0x0F |
| DtmObject.SetupCommand | src/DTM.js:210-311 | a setup command with the default DC field is the control byte, then parameter*4 |
| BundleCodec.ReceiverLayout | dist/nrf-dtm.js:206-211 | the bundled receiver string is 20 digits long, and its first 16 are the four fields of a command |
| BundleCodec.CreateReceiverCmd | dist/nrf-dtm.js:206-211 | the extra digits are cut off, so the command is 0x40 + channel, then 0x00 |
| BundleCodec.ReceiverCommandsAgree | dist/nrf-dtm.js:206-211 | the bundled receiver command equals src's with length 0 and the default packet type |
| BundleCodec.ReceiverVectors | dist/nrf-dtm.js:206-211 | 2402 MHz gives 0x40 0x00 and 2480 MHz gives 0x67 0x00 |
| BundleTransport.BundleDtmTransport.constructor | dist/nrf-dtm.js:82-85 | no waiter, no buffer, no request |
| BundleTransport.BundleDtmTransport.SendCmd | dist/nrf-dtm.js:232-234 | every command opens the port once more and waits for that open |
| BundleTransport.BundleDtmTransport.OnOpenResult | dist/nrf-dtm.js:145-154 | an "already open" or "opening" error strands the request, which is never written. Otherwise it is written and its waiter replaces any earlier one |
| BundleTransport.BundleDtmTransport.OnData | dist/nrf-dtm.js:113-132 | the same framing as src. A delivered response does not resolve its request: it uninstalls the waiter and closes the port. No request resolves here |
| BundleTransport.BundleDtmTransport.Respond | dist/nrf-dtm.js:236-244 | the waiter uninstalls itself, registers for 'close' with its response and closes the port |
| BundleTransport.BundleDtmTransport.OnClosed | dist/nrf-dtm.js:238-242 | 'close' resolves exactly the requests waiting for it, each with its own response, and no other promise changes |
| BundleTransport.ExchangeScenario | dist/nrf-dtm.js:232-249 | one exchange opens once, writes once, closes once, and resolves with the response only at 'close' |
| BundleTransport.SplitResponseScenario | dist/nrf-dtm.js:116-123 | a response split into two bytes resolves its request whole |
| BundleTransport.UnansweredScenario | dist/nrf-dtm.js:147-149 | a request whose open is refused stays unresolved for good, since there is no response timer |
| BundleController.ReportSuccess | dist/nrf-dtm.js:315-317 | success exactly when bit 0 of the first byte is clear; the length is not checked |
| BundleController.ReportSuccessVariants | dist/nrf-dtm.js:315-317 | agrees with src's reportSuccess on two-byte responses, and is more permissive on other lengths |
| BundleController.FanOut | dist/nrf-dtm.js:345-349 | `callback` calls every listener once, in registration order, with the event |
| BundleController.FanOutAppend | dist/nrf-dtm.js:351-353 | a listener added last is called last |
| BundleController.StepBegun | dist/nrf-dtm.js:555-559 | a sweep iteration begins: it clears sweepTimedOut and its kind's flag and sends the reset that opens the step's setup; results and promises are kept |
| BundleController.SetupAnswered | dist/nrf-dtm.js:559-567 | each setup answer sends the next setup command; after the last, the end-of-step promise is installed and the start command sent |
| BundleController.StepEnded | dist/nrf-dtm.js:589-613 | after the end-of-step promise: a single test returns its status; a failed sweep step returns the end failure; a successful one returns or begins the next step's setup; promises are kept |
| BundleController.SingleStarted | dist/nrf-dtm.js:510-540 | a single test sends its start command and awaits its response, keeping results and deliveries |
| BundleController.SweepStarted | dist/nrf-dtm.js:552-559 | a sweep sends the reset of its first step and awaits its answer, keeping results, deliveries and the whole-test timer |
| BundleController.TestStarted | dist/nrf-dtm.js:542-568 | every procedure first reports 'reset' to every listener, clears timedOut and arms the whole-test timer exactly for a positive timeout; a single test then awaits its start response and a sweep its first reset |
| BundleController.StartAnswered | dist/nrf-dtm.js:568-587 | a refused start returns the start failure and sends and reports nothing; an accepted single transmitter test reports 'started' to every listener and awaits its end-of-step promise |
| BundleController.EndAnswered | dist/nrf-dtm.js:750-765 | an End response consumes one outstanding End; with no waiter, or one already called, nothing else changes; otherwise the promise resolves with success and the decoded count and the resolver stays installed |
| BundleController.MainTimerFired | dist/nrf-dtm.js:419-433 | the whole-test timer sets timedOut and disarms itself, sends End or nothing, and leaves the procedure and its promises alone |
| BundleController.StepTimerFired | dist/nrf-dtm.js:435-449 | the step timer sets sweepTimedOut and disarms itself, sends End or nothing, and leaves the procedure and its promises alone |
| BundleController.EndTestCalled | dist/nrf-dtm.js:767-777 | endTest sets timedOut, sends End or nothing, leaves the procedure alone, and changes nothing when timedOut is already set |
| BundleController.StepCommandBuilt | dist/nrf-dtm.js:465-471 | a step's start command is carrierTestCMD, or the bundled createReceiverCMD, on channel low + offset |
| BundleController.SetupIssuedSends | dist/nrf-dtm.js:355-417 | each setup step of a sweep sends its setter's command with the stored values, and changes nothing else |
| BundleController.InitialInv | dist/nrf-dtm.js:319-337 | the constructor's state satisfies the invariant |
| BundleController.ListenersKeepInv | dist/nrf-dtm.js:345-353 | adding and notifying listeners keeps the invariant |
| BundleController.ConfigurationKeepsInv | dist/nrf-dtm.js:355-508 | a setter keeps the invariant when the stored values fit their fields |
| BundleController.TestStartedInv | dist/nrf-dtm.js:510-734 | starting any of the four procedures from idle keeps the invariant |
| BundleController.SetupAnsweredInv | dist/nrf-dtm.js:559-568 | the answer to a sweep step's setup command keeps the invariant |
| BundleController.StartAnsweredInv | dist/nrf-dtm.js:568-587 | the start response keeps the invariant, whether it is accepted or refused |
| BundleController.EndAnsweredInv | dist/nrf-dtm.js:750-765 | an End response keeps the invariant, also when the promise it would resolve has already resolved |
| BundleController.ResolvedElsewhereInv | dist/nrf-dtm.js:457-463 | resolving the installed promise while the procedure awaits something else keeps the invariant |
| BundleController.StepEndedInv | dist/nrf-dtm.js:589-613 | the end of a step keeps the invariant |
| BundleController.MainTimerFiredInv | dist/nrf-dtm.js:419-433 | the whole-test timer keeps the invariant |
| BundleController.StepTimerFiredInv | dist/nrf-dtm.js:435-449 | the step timer keeps the invariant |
| BundleController.EndTestCalledInv | dist/nrf-dtm.js:767-777 | endTest keeps the invariant |
| BundleController.EndTestIdempotent | dist/nrf-dtm.js:767-777 | endTest does nothing once timedOut is set, and is idempotent. It sends End exactly when no clock has run out and a test is active |
| BundleController.MainTimerGuard | dist/nrf-dtm.js:419-433 | the whole-test timer sends End exactly when its kind's flag is set and sweepTimedOut is clear |
| BundleController.TimeoutDisabled | dist/nrf-dtm.js:419-433 | no whole-test timer is armed exactly when the timeout is 0 or less |
| BundleController.TestStartSends | dist/nrf-dtm.js:542-568 | every procedure first reports 'reset' to every listener. A single test then sends its start command; a sweep sends the first setup command, the reset |
| BundleController.EndEventStaysInstalled | dist/nrf-dtm.js:457-463 | the resolver stays installed after its call: the first End response resolves the promise with the decoded count, and a later one changes no promise |
| BundleController.SetupAnsweredSends | dist/nrf-dtm.js:559-568 | each setup answer sends the next setup command, or, after the last, creates the end-of-step promise and sends the start command |
| BundleController.SetupResponsesSend | dist/nrf-dtm.js:559-568 | once the remaining setup commands are answered, what was sent is those commands in order, then the start command |
| BundleController.SweepStepSends | dist/nrf-dtm.js:559-568 | a whole sweep step sends the setup sequence with the stored values, then the start command, and keeps the defaults |
| BundleController.SetupCommandsEach | dist/nrf-dtm.js:559-564 | the setup sequence has one command per setup step, in order |
| BundleController.TransmitterSetupCommands | dist/nrf-dtm.js:559-564 | a transmitter step sends reset, selectTimer, setTxPower, setupLength, setupModulation, setupPhy, as these exact bytes |
| BundleController.ReceiverSetupCommands | dist/nrf-dtm.js:670-673 | a receiver step sends reset, selectTimer, setupModulation, setupPhy, as these exact bytes |
| BundleController.ReceiverStepCounts | dist/nrf-dtm.js:706-733 | a receiver step adds its count to slot `offset` of the high - low + 1 counts. A finished sweep returns their sum and the array |
| BundleController.ReceiverSweepStartsAtZero | dist/nrf-dtm.js:663 | a receiver sweep starts from one zero count per channel of its range |
| BundleController.TransmitterSweepReturnsZero | dist/nrf-dtm.js:612-613 | a finished transmitter sweep returns zero received packets |
| BundleController.SweepContinues | dist/nrf-dtm.js:599-610 | after a successful step with time left, 'ended' reaches every listener and the next step on an in-range channel begins with a reset |
| BundleController.EndFailureUnreachable | dist/nrf-dtm.js:589-598 | every end-of-step promise resolves with success, so the end-failure message is never returned |
| BundleObject.BundleDtm.constructor | dist/nrf-dtm.js:319-337 | the object's state is `Initial()`, with no listener |
| BundleObject.BundleDtm.AddListener | dist/nrf-dtm.js:351-353 | performs `ListenerAdded`, from and into a state satisfying `Valid()` |
| BundleObject.BundleDtm.Notify | dist/nrf-dtm.js:345-349 | the loop over the listeners appends exactly `FanOut(listeners, e)` to the deliveries |
| BundleObject.BundleDtm.OnSetupResponse | dist/nrf-dtm.js:559-568 | performs `SetupAnswered`, from and into a state satisfying `Valid()` |
| BundleObject.BundleDtm.SingleChannelTransmitterTest | dist/nrf-dtm.js:510-540 | performs `TestStarted` for a one-channel transmitter test, from and into a state satisfying `Valid()` |
| BundleObject.BundleDtm.SweepTransmitterTest | dist/nrf-dtm.js:542-568 | performs `TestStarted` for a transmitter sweep, from and into a state satisfying `Valid()` |
| BundleObject.BundleDtm.SingleChannelReceiverTest | dist/nrf-dtm.js:616-648 | performs `TestStarted` for a one-channel receiver test, from and into a state satisfying `Valid()` |
| BundleObject.BundleDtm.SweepReceiverTest | dist/nrf-dtm.js:652-673 | performs `TestStarted` for a receiver sweep, with a fresh array of high - low + 1 zeros, from and into a state satisfying `Valid()` |
| BundleObject.BundleDtm.TransmitterTest | dist/nrf-dtm.js:736-747 | starts a single-channel test with a 1000 ms timeout exactly when useSingleChannel is set, and otherwise does nothing, from and into a state satisfying `Valid()` |
| BundleObject.BundleDtm.OnStartResponse | dist/nrf-dtm.js:568-587 | performs `StartAnswered`, from and into a state satisfying `Valid()` |
| BundleObject.BundleDtm.OnEndResponse | dist/nrf-dtm.js:750-765 | performs `EndAnswered`, from and into a state satisfying `Valid()` |
| BundleObject.BundleDtm.ContinueEndCurrentTest | dist/nrf-dtm.js:750-765 | the rest of endCurrentTest performs `EndAnswered` |
| BundleObject.BundleDtm.OnTimeout | dist/nrf-dtm.js:419-433 | performs `MainTimerFired`, from and into a state satisfying `Valid()` |
| BundleObject.BundleDtm.OnSweepTimeout | dist/nrf-dtm.js:435-449 | performs `StepTimerFired`, from and into a state satisfying `Valid()` |
| BundleObject.BundleDtm.EndTest | dist/nrf-dtm.js:767-777 | performs `EndTestCalled`, from and into a state satisfying `Valid()` |
| BundleObject.BundleDtm.SetTxPower | dist/nrf-dtm.js:488-494 | performs `TxPowerSet`, from and into a state satisfying `Valid()` |
| BundleObject.BundleDtm.SelectTimer | dist/nrf-dtm.js:503-508 | performs `TimerSelected`, from and into a state satisfying `Valid()` |
| BundleObject.BundleDtm.SetupReset | dist/nrf-dtm.js:355-363 | performs `ResetSent`, from and into a state satisfying `Valid()` |
| BundleObject.BundleDtm.SetupLength | dist/nrf-dtm.js:365-375 | performs `LengthSet`, from and into a state satisfying `Valid()` |
| BundleObject.BundleDtm.SetupPhy | dist/nrf-dtm.js:377-386 | performs `PhySet`, from and into a state satisfying `Valid()` |
| BundleObject.BundleDtm.SetupModulation | dist/nrf-dtm.js:388-397 | performs `ModulationSet`, from and into a state satisfying `Valid()` |
| BundleObject.BundleDtm.SetupReadFeatures | dist/nrf-dtm.js:399-407 | performs `FeaturesRead`, from and into a state satisfying `Valid()` |
| BundleObject.BundleDtm.SetupReadSupportedRxTx | dist/nrf-dtm.js:409-417 | performs `SupportedRxTxRead`, from and into a state satisfying `Valid()` |

## Left out

- The serial port itself is left out: the SerialPort driver, its baud rate and its
  'error' and 'open' handlers. The driver's callbacks are the models' event methods.
- Timers are events: the models record which timer is armed and a method fires it. No
  time passes. The 1000 ms, sweepTime and timeout values decide only whether a timer is
  armed.
- `Math.random()` is the `draw` argument; nothing about its distribution is modelled.
- Logging, `debug`, the `'log'` events and the message string tables are left out; only
  the failure messages a procedure returns are kept.
- The `'update'` events that src's DTM emits through Node's EventEmitter are left out,
  because delivery belongs to that library. The bundled class calls its own listener
  list, and that is modelled (`BundleController.FanOut`).
- Values passed to the builders must fit their fields. This is a precondition and not an
  error path, because the source masks nothing:
  - frequencies on the 2402–2480 MHz grid;
  - bit patterns below 4;
  - lengths below 4096;
  - PHY, modulation, timer and TX/RX parameters below 64.

  An oversized value makes `toBitString` produce a longer string that shifts the other
  fields (`Bits.ToBitStringOverflows` shows that growth).
- Controller.StartAnsweredInv: the procedures are modelled on a transport whose responses
  are `undefined` or two bytes, which is what `Transport.ReassembleKeepsFraming` proves
  src's transport delivers.
- Controller.EndAnswered: a missing End response makes `response[0]` throw in
  endCurrentTest. The model stops the rest of that call, so its waiter is never woken.
- open() in src/DTM_transport.js throws on "Port is already open" and "Port is opening"
  and resolves on every other error, including other failures to open. The model
  follows the code: a thrown error leaves the open pending for ever (`Stranded`), and any
  other error lets a later write go to a port that did not open.
- Transport.DtmTransport.Close: a successful close while the open is still pending is
  not modelled (the requires makes such a close a failed one). The serial port refuses to
  close a port that has not finished opening, so at most one open promise is ever
  pending, and the model keeps one queue of requests waiting on it.
- The controllers are not composed with their transports. Each response event of
  `Controller` and `BundleController` names the request it answers: answers are routed
  per request, not through the transport's one waiter. In src, that waiter belongs to the
  latest send, so an End sent while a start command is outstanding
  receives the start's answer, and the start resolves `undefined` after 1000 ms. That run
  is modelled as `Controller.EndDuringStartFails`, with the transport side shown by
  `Transport.OverlappingRequestsScenario`. In dist, an End sent while another exchange
  holds the port asks for a second open, whose "Port is already open" error strands it
  (`BundleTransport.UnansweredScenario`). The per-request controller does not show that
  stranding.
- Overlapping procedures are not modelled. A test procedure started while another one is
  still suspended would share the flags, timers and waiter with it. Each of the following
  requires an idle controller:
  - `Controller.TestStarted`;
  - `BundleController.TestStarted`;
  - `DtmObject.Dtm.SingleChannelTransmitterTest`, `SweepTransmitterTest`,
    `SingleChannelReceiverTest` and `SweepReceiverTest`;
  - `BundleObject.BundleDtm.SingleChannelTransmitterTest`, `SweepTransmitterTest`,
    `SingleChannelReceiverTest`, `SweepReceiverTest` and `TransmitterTest`.
- A byte left in `dataBuffer` when a request times out is kept and prefixed to the next
  response (`Transport.StaleByteShiftsResponse`). This is modelled as written, not
  corrected.
- The `continue` branches of src's sweeps (`if (this.timedOut) continue`) cannot be
  taken, because every step begins with time left. The model has no such branch, and
  `Controller.StepBegun` requires `!timedOut`.
- The random transmitter sweep never picks channelHigh. The random receiver sweep picks
  offset 0 only for a draw of 0. Both are modelled as written
  (`Controller.NextRandomTransmitter`, `Controller.NextRandomReceiver`).
- BundleTransport.BundleDtmTransport.OnOpenResult: in dist, an error thrown inside the
  `port.open` callback does not reach the request. That promise never settles, which the
  model shows as the set `stranded`.
- BundleController.ReportSuccess: defined only for non-empty responses, because dist's
  transport never hands an empty one over. `response[0]` of an empty one would be
  `undefined`, which JavaScript treats as success.
- The `sweepTimedOut` field is never initialised by either constructor (src/DTM.js:72-86,
  dist/nrf-dtm.js:319-337). The models start it as false, which is how `undefined`
  behaves in every test of it.
- dist/nrf-dtm.js's `transmitterTest` returns the promise of the single-channel test
  without running it to its end here. The model performs that test's start, and
  `started` says whether one was started.
- The command-line tool (bin/dtm.js), the build configuration and the test files are not
  part of this model.
