/**
 * The command codec of src/DTM_transport.js: every 16-bit Direct Test Mode command
 * (Bluetooth Core Specification, Vol 6, Part F, section 3.3) is built as a string of
 * binary digits kind[2] field1[6] field2[6] field3[2], whose first 16 characters are
 * then cut into two bytes. Each builder is proved equal to the arithmetic layout
 * kind*2^14 + field1*2^8 + field2*2^2 + field3.
 */
module Codec {
  import opened Basics
  import opened Bits

  // DTM_CMD: the 2-bit command kinds, as the digit strings the source concatenates.
  const TestSetup: string := "00"
  const ReceiverTest: string := "01"
  const TransmitterTest: string := "10"
  const TestEnd: string := "11"

  // The same kinds as numbers.
  const KindSetup: nat := 0
  const KindReceiver: nat := 1
  const KindTransmitter: nat := 2
  const KindEnd: nat := 3

  // DTM_CONTROL: the 6-bit control field of a setup (or end) command.
  const ControlReset: nat := 0x00
  const ControlEnableLength: nat := 0x01
  const ControlPhy: nat := 0x02
  const ControlModulation: nat := 0x03
  const ControlFeatures: nat := 0x04
  const ControlTxRx: nat := 0x05
  const ControlEnd: nat := 0x00

  // DTM_PARAMETER
  const ParameterDefault: nat := 0x00
  const PhyLe1M: nat := 0x01
  const PhyLe2M: nat := 0x02
  const PhyLeCodedS8: nat := 0x03
  const PhyLeCodedS2: nat := 0x04
  const StandardModulationIndex: nat := 0x00
  const StableModulationIndex: nat := 0x01

  // DTM_PKT: the 2-bit packet type field.
  const PktDefault: nat := 0x00
  const PayloadPrbs9: nat := 0x00
  const Payload11110000: nat := 0x01
  const Payload10101010: nat := 0x02
  const PayloadVendor: nat := 0x03

  // DTM_DC: the 2-bit trailing field of a setup command, kept as digits.
  const DcDefault: string := "00"

  // DTM_EVENT
  const LeTestStatusEvent: nat := 0
  const LePacketReportEvent: nat := 1

  /** What `+` makes of a missing JavaScript argument. */
  const UndefinedText: string := "undefined"

  // ---------------------------------------------------------------------------
  // The arithmetic reference: the command word and its fields.
  // ---------------------------------------------------------------------------

  predicate FieldsFit(kind: nat, f1: nat, f2: nat, f3: nat) {
    kind < 4 && f1 < 64 && f2 < 64 && f3 < 4
  }

  /** The two bytes of the word kind[2] field1[6] field2[6] field3[2], high byte first. */
  function Encode(kind: nat, f1: nat, f2: nat, f3: nat): (c: seq<Byte>)
    requires FieldsFit(kind, f1, f2, f3)
    ensures |c| == 2 && Word(c) == kind * 0x4000 + f1 * 0x100 + f2 * 4 + f3
  {
    [kind * 64 + f1, f2 * 4 + f3]
  }

  /** The 16-bit value of a two-byte command or response, high byte first. */
  function Word(c: seq<Byte>): nat
    requires |c| == 2
  {
    c[0] as int * 256 + c[1] as int
  }

  datatype Fields = Fields(kind: nat, field1: nat, field2: nat, field3: nat)

  /** Splits a two-byte command back into its four fields. */
  function DecodeCommand(c: seq<Byte>): (f: Fields)
    requires |c| == 2
    ensures FieldsFit(f.kind, f.field1, f.field2, f.field3)
    ensures c[0] as int == f.kind * 64 + f.field1 && c[1] as int == f.field2 * 4 + f.field3
  {
    Fields(c[0] / 64, c[0] % 64, c[1] / 4, c[1] % 4)
  }

  /** The byte layout is the arithmetic form kind*2^14 + f1*2^8 + f2*2^2 + f3. */
  lemma EncodeWord(kind: nat, f1: nat, f2: nat, f3: nat)
    requires FieldsFit(kind, f1, f2, f3)
    ensures Word(Encode(kind, f1, f2, f3)) == kind * Pow2(14) + f1 * Pow2(8) + f2 * Pow2(2) + f3
  {
    assert Pow2(2) == 4 && Pow2(8) == 256 && Pow2(14) == 16384;
  }

  /** Decoding an encoded command recovers all four fields. */
  lemma DecodeEncode(kind: nat, f1: nat, f2: nat, f3: nat)
    requires FieldsFit(kind, f1, f2, f3)
    ensures DecodeCommand(Encode(kind, f1, f2, f3)) == Fields(kind, f1, f2, f3)
  {
    DivUnique(kind * 64 + f1, 64, kind, f1);
    DivUnique(f2 * 4 + f3, 4, f2, f3);
  }

  /** Every two-byte command is the encoding of its decoded fields. */
  lemma EncodeDecode(c: seq<Byte>)
    requires |c| == 2
    ensures var f := DecodeCommand(c);
      FieldsFit(f.kind, f.field1, f.field2, f.field3) && Encode(f.kind, f.field1, f.field2, f.field3) == c
  {
  }

  // ---------------------------------------------------------------------------
  // The string-based construction of the source.
  // ---------------------------------------------------------------------------

  /** The first 16 characters are binary digits. */
  predicate Formattable(cmd: string) {
    |cmd| >= 16 && IsBits(cmd[..16])
  }

  /**
   * DTM_CMD_FORMAT: byte 0 is the value of characters 0-7 and byte 1 that of characters
   * 8-15 (`parseInt(_, 2)`, then through a hex string back to a number); the rest of
   * the string is never read.
   */
  function CmdFormat(cmd: string): (r: seq<Byte>)
    requires Formattable(cmd)
    ensures |r| == 2 && Word(r) == BitValue(cmd[..16])
  {
    var hi, lo := cmd[..8], cmd[8..16];
    assert hi == cmd[..16][..8] && lo == cmd[..16][8..];
    assert cmd[..16] == hi + lo;
    BitValueBound(hi);
    BitValueBound(lo);
    BitValueConcat(hi, lo);
    assert Pow2(8) == 256;
    [BitValue(hi), BitValue(lo)]
  }

  /**
   * `createCMD(bits)` as the source calls it: with one argument, so the three missing
   * arguments append the text "undefined" three times.
   */
  function CreateCmd(bits: string): (r: seq<Byte>)
    requires Formattable(bits)
    ensures r == CmdFormat(bits)
  {
    var s := bits + UndefinedText + UndefinedText + UndefinedText;
    assert s == bits + (UndefinedText + UndefinedText + UndefinedText);
    SuffixIgnored(bits, UndefinedText + UndefinedText + UndefinedText);
    CmdFormat(s)
  }

  /** Characters past the 16th never change the command, so the "undefined" suffix is harmless. */
  lemma SuffixIgnored(bits: string, rest: string)
    requires Formattable(bits)
    ensures Formattable(bits + rest) && CmdFormat(bits + rest) == CmdFormat(bits)
  {
    assert (bits + rest)[..16] == bits[..16];
  }

  /** Two bytes' worth of digits followed by anything format to the values of those digits. */
  lemma FormatBytes(hi: string, lo: string, rest: string)
    requires |hi| == 8 && |lo| == 8 && IsBits(hi) && IsBits(lo)
    ensures Formattable(hi + lo + rest)
    ensures CmdFormat(hi + lo + rest) == [BitValue(hi), BitValue(lo)]
  {
    var s := hi + lo + rest;
    assert s[..16] == hi + lo;
    assert s[..8] == hi && s[8..16] == lo;
  }

  /** Four digit strings of widths 2, 6, 6, 2 format to the encoding of their values. */
  lemma Layout(k: string, a: string, b: string, c: string, rest: string)
    requires |k| == 2 && |a| == 6 && |b| == 6 && |c| == 2
    requires IsBits(k) && IsBits(a) && IsBits(b) && IsBits(c)
    ensures Formattable(k + a + b + c + rest)
    ensures FieldsFit(BitValue(k), BitValue(a), BitValue(b), BitValue(c))
    ensures CmdFormat(k + a + b + c + rest) == Encode(BitValue(k), BitValue(a), BitValue(b), BitValue(c))
  {
    BitValueBound(k);
    BitValueBound(a);
    BitValueBound(b);
    BitValueBound(c);
    assert Pow2(2) == 4 && Pow2(6) == 64;
    BitValueConcat(k, a);
    BitValueConcat(b, c);
    var hi, lo := BitValue(k + a), BitValue(b + c);
    assert hi == BitValue(k) * 64 + BitValue(a);
    assert lo == BitValue(b) * 4 + BitValue(c);
    Regroup(k, a, b, c, rest);
    FormatBytes(k + a, b + c, rest);
    EncodeBytes(BitValue(k), BitValue(a), BitValue(b), BitValue(c), hi, lo);
  }

  lemma Regroup(k: string, a: string, b: string, c: string, rest: string)
    ensures k + a + b + c + rest == (k + a) + (b + c) + rest
  {
  }

  lemma EncodeBytes(kind: nat, f1: nat, f2: nat, f3: nat, hi: int, lo: int)
    requires FieldsFit(kind, f1, f2, f3) && hi == kind * 64 + f1 && lo == f2 * 4 + f3
    ensures [hi, lo] == Encode(kind, f1, f2, f3)
  {
  }

  /** The builders' common shape: kind digits, two 6-digit fields, a 2-digit field and the suffix. */
  lemma BuiltCommand(k: string, a: string, b: string, c: string)
    requires |k| == 2 && |a| == 6 && |b| == 6 && |c| == 2
    requires IsBits(k) && IsBits(a) && IsBits(b) && IsBits(c)
    ensures Formattable(k + a + b + c)
    ensures FieldsFit(BitValue(k), BitValue(a), BitValue(b), BitValue(c))
    ensures CreateCmd(k + a + b + c) == Encode(BitValue(k), BitValue(a), BitValue(b), BitValue(c))
  {
    var bits := k + a + b + c;
    var u := UndefinedText + UndefinedText + UndefinedText;
    Layout(k, a, b, c, u);
    assert bits + UndefinedText + UndefinedText + UndefinedText == k + a + b + c + u;
  }

  lemma KindValues()
    ensures IsBits(TestSetup) && BitValue(TestSetup) == KindSetup
    ensures IsBits(ReceiverTest) && BitValue(ReceiverTest) == KindReceiver
    ensures IsBits(TransmitterTest) && BitValue(TransmitterTest) == KindTransmitter
    ensures IsBits(TestEnd) && BitValue(TestEnd) == KindEnd
    ensures IsBits(DcDefault) && BitValue(DcDefault) == 0
  {
    assert TestSetup[..1] == "0" && ReceiverTest[..1] == "0";
    assert TransmitterTest[..1] == "1" && TestEnd[..1] == "1";
  }

  /** A frequency DTM_FREQUENCY can encode: 2402 MHz plus an even offset. */
  predicate FrequencyOnGrid(f: int) {
    f >= 2402 && (f - 2402) % 2 == 0
  }

  predicate FrequencyFits(f: int) {
    FrequencyOnGrid(f) && (f - 2402) / 2 < 64
  }

  /**
   * DTM_FREQUENCY: the 6-digit binary of (f - 2402) / 2. A channel index of 64 or more
   * is not masked and yields a longer string.
   */
  function DtmFrequency(f: int): (r: string)
    requires FrequencyOnGrid(f)
    ensures (f - 2402) / 2 < 64 ==> |r| == 6 && IsBits(r) && BitValue(r) == (f - 2402) / 2
    ensures (f - 2402) / 2 >= 64 ==> |r| > 6
  {
    SixDigits((f - 2402) / 2);
    ToBitString((f - 2402) / 2, 6)
  }

  lemma SixDigits(v: nat)
    ensures v < 64 ==> |ToBitString(v, 6)| == 6 && IsBits(ToBitString(v, 6)) && BitValue(ToBitString(v, 6)) == v
    ensures v >= 64 ==> |ToBitString(v, 6)| > 6
  {
    assert Pow2(6) == 64;
    if v < 64 {
      ToBitStringFits(v, 6);
    } else {
      ToBitStringOverflows(v, 6);
    }
  }

  /** createSetupCMD(control, parameter, dc). */
  function CreateSetupCmd(control: nat, parameter: nat, dc: string): (r: seq<Byte>)
    requires control < 64 && parameter < 64 && |dc| == 2 && IsBits(dc)
    ensures FieldsFit(KindSetup, control, parameter, BitValue(dc))
    ensures r == Encode(KindSetup, control, parameter, BitValue(dc))
    ensures Word(r) == KindSetup * Pow2(14) + control * Pow2(8) + parameter * Pow2(2) + BitValue(dc)
  {
    assert Pow2(6) == 64;
    ToBitStringFits(control, 6);
    ToBitStringFits(parameter, 6);
    KindValues();
    BitValueBound(dc);
    assert Pow2(2) == 4;
    BuiltCommand(TestSetup, ToBitString(control, 6), ToBitString(parameter, 6), dc);
    EncodeWord(KindSetup, control, parameter, BitValue(dc));
    CreateCmd(TestSetup + ToBitString(control, 6) + ToBitString(parameter, 6) + dc)
  }

  /** createEndCMD(): kind End with control END and a zero parameter. */
  function CreateEndCmd(): (r: seq<Byte>)
    ensures r == Encode(KindEnd, ControlEnd, ParameterDefault, 0)
    ensures r == [0xC0, 0x00]
  {
    assert Pow2(6) == 64;
    ToBitStringFits(ControlEnd, 6);
    ToBitStringFits(ParameterDefault, 6);
    KindValues();
    BuiltCommand(TestEnd, ToBitString(ControlEnd, 6), ToBitString(ParameterDefault, 6), DcDefault);
    CreateCmd(TestEnd + ToBitString(ControlEnd, 6) + ToBitString(ParameterDefault, 6) + DcDefault)
  }

  /** createTransmitterCMD(frequency, length, pkt). */
  function CreateTransmitterCmd(frequency: int, length: nat, pkt: nat): (r: seq<Byte>)
    requires FrequencyFits(frequency) && length < 64 && pkt < 4
    ensures FieldsFit(KindTransmitter, (frequency - 2402) / 2, length, pkt)
    ensures r == Encode(KindTransmitter, (frequency - 2402) / 2, length, pkt)
    ensures Word(r) == KindTransmitter * Pow2(14) + (frequency - 2402) / 2 * Pow2(8) + length * Pow2(2) + pkt
  {
    assert Pow2(6) == 64 && Pow2(2) == 4;
    ToBitStringFits(length, 6);
    ToBitStringFits(pkt, 2);
    KindValues();
    BuiltCommand(TransmitterTest, DtmFrequency(frequency), ToBitString(length, 6), ToBitString(pkt, 2));
    EncodeWord(KindTransmitter, (frequency - 2402) / 2, length, pkt);
    CreateCmd(TransmitterTest + DtmFrequency(frequency) + ToBitString(length, 6) + ToBitString(pkt, 2))
  }

  /** createReceiverCMD(frequency, length, pkt). */
  function CreateReceiverCmd(frequency: int, length: nat, pkt: nat): (r: seq<Byte>)
    requires FrequencyFits(frequency) && length < 64 && pkt < 4
    ensures FieldsFit(KindReceiver, (frequency - 2402) / 2, length, pkt)
    ensures r == Encode(KindReceiver, (frequency - 2402) / 2, length, pkt)
    ensures Word(r) == KindReceiver * Pow2(14) + (frequency - 2402) / 2 * Pow2(8) + length * Pow2(2) + pkt
  {
    assert Pow2(6) == 64 && Pow2(2) == 4;
    ToBitStringFits(length, 6);
    ToBitStringFits(pkt, 2);
    KindValues();
    BuiltCommand(ReceiverTest, DtmFrequency(frequency), ToBitString(length, 6), ToBitString(pkt, 2));
    EncodeWord(KindReceiver, (frequency - 2402) / 2, length, pkt);
    CreateCmd(ReceiverTest + DtmFrequency(frequency) + ToBitString(length, 6) + ToBitString(pkt, 2))
  }

  /** createTxPowerCMD(dbm): a transmitter command with length 2 and the vendor packet type. */
  function CreateTxPowerCmd(dbm: nat): (r: seq<Byte>)
    requires dbm < 64
    ensures r == Encode(KindTransmitter, dbm, 2, PayloadVendor)
    ensures r == [0x80 + dbm, 0x0B]
  {
    assert Pow2(6) == 64 && Pow2(2) == 4;
    ToBitStringFits(dbm, 6);
    ToBitStringFits(2, 6);
    ToBitStringFits(PayloadVendor, 2);
    KindValues();
    BuiltCommand(TransmitterTest, ToBitString(dbm, 6), ToBitString(2, 6), ToBitString(PayloadVendor, 2));
    CreateCmd(TransmitterTest + ToBitString(dbm, 6) + ToBitString(2, 6) + ToBitString(PayloadVendor, 2))
  }

  /** createSelectTimerCMD(value): a transmitter command with length 3 and the vendor packet type. */
  function CreateSelectTimerCmd(value: nat): (r: seq<Byte>)
    requires value < 64
    ensures r == Encode(KindTransmitter, value, 3, PayloadVendor)
    ensures r == [0x80 + value, 0x0F]
  {
    assert Pow2(6) == 64 && Pow2(2) == 4;
    ToBitStringFits(value, 6);
    ToBitStringFits(3, 6);
    ToBitStringFits(PayloadVendor, 2);
    KindValues();
    BuiltCommand(TransmitterTest, ToBitString(value, 6), ToBitString(3, 6), ToBitString(PayloadVendor, 2));
    CreateCmd(TransmitterTest + ToBitString(value, 6) + ToBitString(3, 6) + ToBitString(PayloadVendor, 2))
  }

  // ---------------------------------------------------------------------------
  // The expected values the repository's tests state.
  // ---------------------------------------------------------------------------

  lemma FrequencyVectors()
    ensures DtmFrequency(2402) == "000000"
    ensures DtmFrequency(2480) == "100111"
  {
    assert Binary(0) == "0";
    assert Binary(39) == "100111" by {
      assert Binary(1) == "1";
      assert Binary(2) == "10";
      assert Binary(4) == "100";
      assert Binary(9) == "1001";
      assert Binary(19) == "10011";
    }
  }

  lemma CmdFormatVector()
    ensures Formattable("0000111100001111")
    ensures CmdFormat("0000111100001111") == [0x0F, 0x0F]
  {
    var s := "0000111100001111";
    var r := CmdFormat(s);
    assert s[..8] == "00001111" && s[8..16] == "00001111";
    assert BitValue("00001111") == 15 by {
      assert "00001111"[..7] == "0000111";
      assert "0000111"[..6] == "000011";
      assert "000011"[..5] == "00001";
      assert "00001"[..4] == "0000";
      assert "0000"[..3] == "000";
      assert "000"[..2] == "00";
      assert "00"[..1] == "0";
    }
  }

  /** The default commands: setup, transmitter and receiver at 2402 MHz with zero fields, and end. */
  lemma DefaultCommandVectors()
    ensures CreateSetupCmd(ControlReset, ParameterDefault, DcDefault) == [0x00, 0x00]
    ensures CreateTransmitterCmd(2402, 0, PktDefault) == [0x80, 0x00]
    ensures CreateReceiverCmd(2402, 0, PktDefault) == [0x40, 0x00]
    ensures CreateEndCmd() == [0xC0, 0x00]
  {
    KindValues();
  }
}
