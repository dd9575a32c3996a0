/**
 * The RD-8 System Exclusive envelope: the constants of RD8.h and the
 * header builders and classifiers of BehringerRD8 (RD8.cpp).
 *
 * Every RD-8 message body (the bytes between F0 and F7) starts with the
 * three-byte manufacturer ID 00 20 32 (Behringer), the product ID 30, the
 * device ID, and a (message type, message ID) pair.  Requests add four magic
 * bytes 30 00 00 00 and the firmware version.
 */
module Protocol {

  // ----- RD8.h: message types, message IDs, manufacturer and product -----

  const FirmwareMessage: bv8 := 0x06
  const DataMessage: bv8 := 0x10
  const RequestID: bv8 := 0x01
  const StoredPatternRequest: bv8 := 0x01
  const StoredPatternResponse: bv8 := 0x02
  const StoredSongRequest: bv8 := 0x03
  const StoredSongResponse: bv8 := 0x04
  const LivePatternRequest: bv8 := 0x05
  const LivePatternResponse: bv8 := 0x06
  const LiveSongRequest: bv8 := 0x07
  const LiveSongResponse: bv8 := 0x08
  const GlobalSettingsRequest: bv8 := 0x09
  const GlobalSettingsResponse: bv8 := 0x0A
  const Reply: bv8 := 0x02
  const BehringerID: bv8 := 0x32
  const RD8ID: bv8 := 0x30

  /** The four bytes every RD-8 message starts with. */
  const EnvelopePrefix: seq<bv8> := [0x00, 0x20, BehringerID, RD8ID]

  /** The four magic bytes between a request's header and its firmware version. */
  const RequestMagic: seq<bv8> := [0x30, 0x00, 0x00, 0x00]

  /** Length of the header built by CreateRequestMessage. */
  const RequestHeaderLength: nat := 14

  /** RD8.cpp numberOfSongs / numberOfPatternsPerSong. */
  const NumberOfSongs: int := 16
  const NumberOfPatternsPerSong: int := 16

  datatype MessageID = MessageID(messageType: bv8, messageID: bv8)

  datatype FirmwareVersion = FirmwareVersion(major: bv8, minor: bv8, patch: bv8)

  /**
   * A MIDI message as the driver sees it: a System Exclusive message with its
   * body (the bytes between F0 and F7), or any other MIDI message, whose
   * bytes the driver never looks at.
   */
  datatype MidiMessage = SysEx(body: seq<bv8>) | Other

  /** The System Exclusive body of a message; a non-sysex message has none. */
  function SysExData(m: MidiMessage): (d: seq<bv8>)
    ensures m.Other? ==> d == []
  {
    if m.SysEx? then m.body else []
  }

  // ----- Classifying -----

  /**
   * isOwnSysex: a sysex message of more than three bytes that starts with the
   * Behringer RD-8 prefix; the device ID byte is not checked.
   */
  predicate IsOwnSysex(m: MidiMessage)
    ensures IsOwnSysex(m) <==> m.SysEx? && |m.body| > 3 && m.body[..4] == EnvelopePrefix
  {
    if m.SysEx? && |m.body| > 3 then
      m.body[0] == 0x00 && m.body[1] == 0x20 && m.body[2] == BehringerID && m.body[3] == RD8ID
    else
      false
  }

  /** getMessageID: bytes 5 and 6 of the body, or the pair (0, 0) for a message too short to carry them. */
  function GetMessageID(m: MidiMessage): (id: MessageID)
    ensures IsOwnSysex(m) && |m.body| > 6 ==> m.body[..7] == EnvelopePrefix + [m.body[4], id.messageType, id.messageID]
  {
    var d := SysExData(m);
    if |d| > 6 then MessageID(d[5], d[6]) else MessageID(0, 0)
  }

  /** The device ID at byte 4 plays no part in recognising an RD-8 message. */
  lemma DeviceIDIgnored(body: seq<bv8>, deviceID: bv8)
    requires |body| > 4
    ensures IsOwnSysex(SysEx(body[4 := deviceID])) == IsOwnSysex(SysEx(body))
    ensures GetMessageID(SysEx(body[4 := deviceID])) == GetMessageID(SysEx(body))
  {
  }

  /** A message of six bytes or fewer carries no message ID, so it never matches a real one. */
  lemma ShortMessageHasNoID(m: MidiMessage)
    requires |SysExData(m)| <= 6
    ensures GetMessageID(m) == MessageID(0, 0)
    ensures GetMessageID(m).messageType != DataMessage && GetMessageID(m).messageType != FirmwareMessage
  {
  }

  // ----- Building -----

  /** createSysexMessage: the seven-byte header of every RD-8 message. */
  function CreateSysexMessage(deviceID: bv8, messageType: bv8, messageID: bv8): (r: seq<bv8>)
    ensures |r| == 7 && r[..4] == EnvelopePrefix && r[4] == deviceID
    ensures IsOwnSysex(SysEx(r))
    ensures GetMessageID(SysEx(r)) == MessageID(messageType, messageID)
  {
    [0x00, 0x20, BehringerID, RD8ID, deviceID, messageType, messageID]
  }

  /**
   * createRequestMessage: the seven-byte header for the session's device ID,
   * then the magic bytes 30 00 00 00 and the firmware version.
   */
  function CreateRequestMessage(deviceID: bv8, version: FirmwareVersion, id: MessageID): (r: seq<bv8>)
    ensures |r| == RequestHeaderLength
    ensures r[..7] == CreateSysexMessage(deviceID, id.messageType, id.messageID)
    ensures r[7..11] == RequestMagic
    ensures r[11] == version.major && r[12] == version.minor && r[13] == version.patch
    ensures forall rest :: IsOwnSysex(SysEx(r + rest)) && GetMessageID(SysEx(r + rest)) == id
  {
    var message := CreateSysexMessage(deviceID, id.messageType, id.messageID);
    message + RequestMagic + [version.major, version.minor, version.patch]
  }

  /** deviceDetect: a firmware request addressed to device 0, whatever the channel. */
  function DeviceDetect(channel: int): (r: MidiMessage)
    ensures IsOwnSysex(r) && |SysExData(r)| == 7
    ensures SysExData(r)[4] == 0
    ensures GetMessageID(r) == MessageID(FirmwareMessage, RequestID)
  {
    SysEx(CreateSysexMessage(0, FirmwareMessage, RequestID))
  }

  // ----- Requesting data items -----

  /** A C++ int converted to uint8: the value modulo 256. */
  function ToByte(x: int): bv8
  {
    (x % 256) as bv8
  }

  /** C++ `%` on int: the remainder takes the sign of the dividend. */
  function CRem(a: int, b: int): int
    requires b > 0
  {
    if a >= 0 then a % b else -((-a) % b)
  }

  /** The request data types that requestDataItem and numberOfDataItemsPerType know. */
  predicate IsRequestType(dataTypeID: int)
  {
    dataTypeID == StoredPatternRequest as int || dataTypeID == LivePatternRequest as int
    || dataTypeID == StoredSongRequest as int || dataTypeID == LiveSongRequest as int
    || dataTypeID == GlobalSettingsRequest as int
  }

  /** The item address requestDataItem appends after the request header of each data type. */
  function RequestAddress(itemNo: int, dataTypeID: int): seq<bv8>
  {
    if dataTypeID == StoredPatternRequest as int then [ToByte(itemNo) / 16, ToByte(CRem(itemNo, 16))]
    else if dataTypeID == LivePatternRequest as int then [ToByte(itemNo) / 16]
    else if dataTypeID == StoredSongRequest as int then [ToByte(itemNo)]
    else []
  }

  /**
   * The body requestDataItem sends: the request header for the data type,
   * then the item address.  An unknown type sends an empty body.
   */
  function RequestBody(deviceID: bv8, version: FirmwareVersion, itemNo: int, dataTypeID: int): seq<bv8>
  {
    if IsRequestType(dataTypeID) then
      CreateRequestMessage(deviceID, version, MessageID(DataMessage, dataTypeID as bv8)) + RequestAddress(itemNo, dataTypeID)
    else
      []
  }

  /** requestDataItem: one sysex message; for a known type it is an RD-8 data request for that type. */
  function RequestDataItem(deviceID: bv8, version: FirmwareVersion, itemNo: int, dataTypeID: int): (r: seq<MidiMessage>)
    ensures |r| == 1 && r[0].SysEx?
    ensures IsRequestType(dataTypeID) ==>
      && 0 <= dataTypeID < 256
      && |r[0].body| >= RequestHeaderLength
      && r[0].body[..RequestHeaderLength] == CreateRequestMessage(deviceID, version, MessageID(DataMessage, dataTypeID as bv8))
      && IsOwnSysex(r[0])
      && GetMessageID(r[0]) == MessageID(DataMessage, dataTypeID as bv8)
    ensures !IsRequestType(dataTypeID) ==> r[0].body == []
    ensures |r[0].body| == (if dataTypeID == StoredPatternRequest as int then 16
                            else if dataTypeID == LivePatternRequest as int || dataTypeID == StoredSongRequest as int then 15
                            else if IsRequestType(dataTypeID) then 14
                            else 0)
  {
    [SysEx(RequestBody(deviceID, version, itemNo, dataTypeID))]
  }

  /** numberOfDataItemsPerType: how many items of each request type the device holds. */
  function NumberOfDataItemsPerType(dataTypeID: int): (n: int)
    ensures n > 0 <==> IsRequestType(dataTypeID)
    ensures dataTypeID == StoredPatternRequest as int ==> n == NumberOfSongs * NumberOfPatternsPerSong
    ensures dataTypeID == LivePatternRequest as int ==> n == NumberOfPatternsPerSong
    ensures dataTypeID == StoredSongRequest as int ==> n == NumberOfSongs
    ensures dataTypeID == LiveSongRequest as int || dataTypeID == GlobalSettingsRequest as int ==> n == 1
    ensures !IsRequestType(dataTypeID) ==> n == 0
  {
    match dataTypeID
    case 1 => NumberOfSongs * NumberOfPatternsPerSong
    case 5 => NumberOfPatternsPerSong
    case 3 => NumberOfSongs
    case 7 => 1
    case 9 => 1
    case _ => 0
  }

  /**
   * Every stored pattern the device holds is addressed by a song byte and a
   * pattern byte, both below 16, that together give back the item number.
   */
  lemma StoredPatternAddress(deviceID: bv8, version: FirmwareVersion, itemNo: int)
    requires 0 <= itemNo < NumberOfDataItemsPerType(StoredPatternRequest as int)
    ensures var body := RequestDataItem(deviceID, version, itemNo, StoredPatternRequest as int)[0].body;
      && body[14] < 16 && body[15] < 16
      && body[14] as int * 16 + body[15] as int == itemNo
  {
    var body := RequestBody(deviceID, version, itemNo, StoredPatternRequest as int);
    assert body[14..] == [ToByte(itemNo) / 16, ToByte(CRem(itemNo, 16))];
    ToByteSmall(itemNo);
    DivideBySixteen(ToByte(itemNo));
    ToByteSmall(itemNo % 16);
  }

  lemma ToByteSmall(x: int)
    requires 0 <= x < 256
    ensures ToByte(x) as int == x
  {
    assert x % 256 == x;
  }

  lemma DivideBySixteen(b: bv8)
    ensures (b / 16) as int == b as int / 16
  {
  }

  /** Every stored song the device holds is addressed by its own number. */
  lemma StoredSongAddress(deviceID: bv8, version: FirmwareVersion, itemNo: int)
    requires 0 <= itemNo < NumberOfDataItemsPerType(StoredSongRequest as int)
    ensures RequestDataItem(deviceID, version, itemNo, StoredSongRequest as int)[0].body[14] as int == itemNo
  {
    var body := RequestBody(deviceID, version, itemNo, StoredSongRequest as int);
    assert body[14..] == [ToByte(itemNo)];
    ToByteSmall(itemNo);
  }

  /**
   * A live pattern is addressed by its item number divided by 16, so all
   * sixteen live patterns the device holds are requested with the same message.
   */
  lemma LivePatternsShareRequest(deviceID: bv8, version: FirmwareVersion, i: int, j: int)
    requires 0 <= i < NumberOfDataItemsPerType(LivePatternRequest as int)
    requires 0 <= j < NumberOfDataItemsPerType(LivePatternRequest as int)
    ensures RequestDataItem(deviceID, version, i, LivePatternRequest as int) == RequestDataItem(deviceID, version, j, LivePatternRequest as int)
    ensures RequestDataItem(deviceID, version, i, LivePatternRequest as int)[0].body[RequestHeaderLength] == 0
  {
    ToByteSmall(i);
    ToByteSmall(j);
    DivideBySixteen(ToByte(i));
    DivideBySixteen(ToByte(j));
    assert RequestAddress(i, LivePatternRequest as int) == [0] == RequestAddress(j, LivePatternRequest as int);
  }

  /** Each data kind's response ID is its request ID plus one. */
  lemma ResponseFollowsRequest()
    ensures StoredPatternResponse == StoredPatternRequest + 1
    ensures StoredSongResponse == StoredSongRequest + 1
    ensures LivePatternResponse == LivePatternRequest + 1
    ensures LiveSongResponse == LiveSongRequest + 1
    ensures GlobalSettingsResponse == GlobalSettingsRequest + 1
  {
  }
}
