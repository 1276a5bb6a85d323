/**
 * The command codec of dist/nrf-dtm.js. Its toBitString, DTM_FREQUENCY, DTM_CMD_FORMAT,
 * createCMD and the builders createSetupCMD, createEndCMD, createTransmitterCMD,
 * createTxPowerCMD and createSelectTimerCMD are the same code as in src/DTM_transport.js,
 * so the functions of module Codec stand for them. Only createReceiverCMD differs: it pads
 * the packet type to six digits instead of two.
 */
module BundleCodec {
  import opened Basics
  import opened Bits
  import opened Codec

  /**
   * The digits createReceiverCMD(frequency) concatenates: the receiver kind, the channel,
   * a zero length field, and the default packet type through `toBitString` with its
   * default width of 6.
   */
  function ReceiverBits(frequency: int): string
    requires FrequencyFits(frequency)
  {
    ReceiverTest + DtmFrequency(frequency) + ToBitString(0, 6) + ToBitString(PktDefault, 6)
  }

  lemma ZeroField()
    ensures ToBitString(0, 6) == "000000"
  {
    assert Binary(0) == "0";
    assert Zeros(5) == "00000";
  }

  lemma SixZeros()
    ensures IsBits("000000") && BitValue("000000") == 0
  {
    BitValueZeros(6);
    assert Zeros(6) == "000000";
  }

  /** The receiver's digits regrouped as the four fields of a command and four trailing zeros. */
  lemma ReceiverDigits(frequency: int)
    requires FrequencyFits(frequency)
    ensures ReceiverBits(frequency) == ReceiverTest + DtmFrequency(frequency) + "000000" + DcDefault + "0000"
  {
    ZeroField();
    assert "000000" == DcDefault + "0000";
  }

  /** The receiver's string is 20 digits long, and its first 16 are the four fields of a command. */
  lemma ReceiverLayout(frequency: int)
    requires FrequencyFits(frequency)
    ensures |ReceiverBits(frequency)| == 20 && Formattable(ReceiverBits(frequency))
    ensures Formattable(ReceiverBits(frequency) + UndefinedText + UndefinedText + UndefinedText)
    ensures CmdFormat(ReceiverBits(frequency) + UndefinedText + UndefinedText + UndefinedText)
            == Encode(KindReceiver, (frequency - 2402) / 2, 0, PktDefault)
  {
    var bits := ReceiverBits(frequency);
    ReceiverDigits(frequency);
    KindValues();
    SixZeros();
    Layout(ReceiverTest, DtmFrequency(frequency), "000000", DcDefault, "0000");
    SuffixIgnored(bits, UndefinedText + UndefinedText + UndefinedText);
    assert bits + UndefinedText + UndefinedText + UndefinedText == bits + (UndefinedText + UndefinedText + UndefinedText);
  }

  /**
   * createReceiverCMD(frequency): because DTM_CMD_FORMAT reads only the first 16 digits,
   * the four extra digits are dropped and the command is [0x40 + channel, 0x00].
   */
  function CreateReceiverCmd(frequency: int): (r: seq<Byte>)
    requires FrequencyFits(frequency)
    ensures r == Encode(KindReceiver, (frequency - 2402) / 2, 0, PktDefault)
    ensures r == [0x40 + (frequency - 2402) / 2, 0x00]
  {
    ReceiverLayout(frequency);
    CreateCmd(ReceiverBits(frequency))
  }

  /** The bundled receiver command is the one src builds with zero length and the default packet type. */
  lemma ReceiverCommandsAgree(frequency: int)
    requires FrequencyFits(frequency)
    ensures CreateReceiverCmd(frequency) == Codec.CreateReceiverCmd(frequency, 0, PktDefault)
  {
  }

  /** The test's default receiver command, and the last channel. */
  lemma ReceiverVectors()
    ensures CreateReceiverCmd(2402) == [0x40, 0x00]
    ensures CreateReceiverCmd(2480) == [0x67, 0x00]
  {
  }
}
