/**
 * The RD-8 device session (BehringerRD8 in RD8.cpp): the handshake that
 * records the device ID and firmware version, and the settings round trip
 * that reads or changes the MIDI channels.
 *
 * A round trip asks the device for its global settings and registers a
 * handler for the reply; at most one is outstanding at a time.  Messages
 * sent to the device are appended to a log, messages from it arrive as
 * calls of Receive, and each completed channel change counts one call of
 * the caller's onFinished.
 */
module DeviceSession {
  import opened Wrappers
  import opened Protocol
  import opened SysexCodec
  import opened SettingsRegistry
  import opened DataFiles

  /** MidiChannel as the driver uses it: invalid, all channels, or a channel numbered from zero. */
  datatype MidiChannel = InvalidChannel | OmniChannel | ZeroBased(n: int)

  /** The work a settings round trip does once the settings have arrived. */
  datatype Operation =
    | ReadChannels                       // getMidiChannelsFromDevice
    | ChangeInput(target: MidiChannel)   // changeInputChannel
    | ChangeOutput(target: MidiChannel)  // changeOutputChannel

  /** A channel change names a valid channel. */
  predicate ValidOperation(op: Operation)
  {
    (op.ChangeInput? || op.ChangeOutput?) ==> !op.target.InvalidChannel?
  }

  /**
   * The fields of BehringerRD8 the session touches, with the pending
   * operation standing for roundtripHandle_ and its handler.
   */
  datatype Session = Session(
    deviceID: bv8,
    version: FirmwareVersion,
    channel: MidiChannel,
    outputChannel: MidiChannel,
    pending: Option<Operation>,
    sent: seq<MidiMessage>,
    finished: nat)

  predicate ValidSession(s: Session)
  {
    s.pending.Some? ==> ValidOperation(s.pending.value)
  }

  /** A new driver: no round trip pending, invalid channels, nothing sent. */
  function NewSession(): Session
  {
    Session(0, FirmwareVersion(0, 0, 0), InvalidChannel, InvalidChannel, None, [], 0)
  }

  // ----- Starting a round trip -----

  /** The request a round trip sends: global settings, item 0. */
  function SettingsRequest(deviceID: bv8, version: FirmwareVersion): seq<MidiMessage>
  {
    RequestDataItem(deviceID, version, 0, GlobalSettingsRequest as int)
  }

  /**
   * globalSettingsOperation: ignored while another round trip is pending,
   * else register it and send the request.  Either way a round trip is
   * pending afterwards, at most one message has been sent, and nothing else
   * has changed.
   */
  function Start(s: Session, op: Operation): (r: Session)
    requires ValidOperation(op)
    ensures r.pending.Some? && (ValidSession(s) ==> ValidSession(r))
    ensures r.deviceID == s.deviceID && r.version == s.version && r.finished == s.finished
    ensures r.channel == s.channel && r.outputChannel == s.outputChannel
    ensures s.sent <= r.sent && |r.sent| <= |s.sent| + 1
  {
    if s.pending.Some? then s
    else s.(pending := Some(op), sent := s.sent + SettingsRequest(s.deviceID, s.version))
  }

  /** While a round trip is pending, a new one changes nothing and sends nothing. */
  lemma BusyStartIgnored(s: Session, op: Operation)
    requires ValidOperation(op) && s.pending.Some?
    ensures Start(s, op) == s
  {
  }

  /** An idle session registers the operation and sends one settings request carrying its device ID and version. */
  lemma IdleStartRequests(s: Session, op: Operation)
    requires ValidOperation(op) && s.pending.None?
    ensures Start(s, op) == s.(pending := Some(op), sent := Start(s, op).sent)
    ensures |Start(s, op).sent| == |s.sent| + 1 && Start(s, op).sent[..|s.sent|] == s.sent
    ensures var m := Start(s, op).sent[|s.sent|];
      && IsOwnSysex(m) && GetMessageID(m) == MessageID(DataMessage, GlobalSettingsRequest)
      && |SysExData(m)| == RequestHeaderLength && SysExData(m)[4] == s.deviceID
      && SysExData(m)[11] == s.version.major && SysExData(m)[12] == s.version.minor && SysExData(m)[13] == s.version.patch
  {
    var r := SettingsRequest(s.deviceID, s.version);
    assert Start(s, op).sent == s.sent + r;
    assert r[0].body == RequestBody(s.deviceID, s.version, 0, GlobalSettingsRequest as int);
    assert r[0].body == CreateRequestMessage(s.deviceID, s.version, MessageID(DataMessage, GlobalSettingsRequest)) + [];
  }

  /**
   * globalSettingsOperation as it reads when registering a handler leaves
   * roundtripHandle_ nil: the busy test never fires, so every call sends
   * another request.  The session keeps only the newest operation as the
   * pending one; the earlier handler, which stays registered too, is not
   * part of this function.
   */
  function StartAsWritten(s: Session, op: Operation): (r: Session)
    requires ValidOperation(op)
    ensures r.pending == Some(op) && r.sent == s.sent + SettingsRequest(s.deviceID, s.version)
    ensures r == s.(pending := r.pending, sent := r.sent)
  {
    s.(pending := Some(op), sent := s.sent + SettingsRequest(s.deviceID, s.version))
  }

  /**
   * The discrepancy: a second operation started before the first one's reply
   * sends a second settings request when the handle is never armed, while
   * the guarded Start sends one request for both.
   */
  lemma AsWrittenSecondStartSends(s: Session, op1: Operation, op2: Operation)
    requires ValidOperation(op1) && ValidOperation(op2) && s.pending.None?
    ensures var req := SettingsRequest(s.deviceID, s.version);
      StartAsWritten(StartAsWritten(s, op1), op2).sent == s.sent + req + req
    ensures |StartAsWritten(StartAsWritten(s, op1), op2).sent| == |s.sent| + 2
    ensures Start(Start(s, op1), op2).sent == s.sent + SettingsRequest(s.deviceID, s.version)
    ensures Start(Start(s, op1), op2).pending == Some(op1)
  {
    assert |SettingsRequest(s.deviceID, s.version)| == 1;
  }

  // ----- The operations -----

  /**
   * The code a channel change writes: 16 for all channels, else the
   * zero-based channel truncated to a byte, which is the channel itself for
   * 0 to 255.
   */
  function ChannelCode(ch: MidiChannel): (c: bv8)
    requires !ch.InvalidChannel?
    ensures ch.OmniChannel? ==> c == OmniCode
    ensures ch.ZeroBased? && 0 <= ch.n < 256 ==> c as int == ch.n
  {
    if ch.OmniChannel? then OmniCode
    else
      var c := ToByte(ch.n);
      assert 0 <= ch.n < 256 ==> c as int == ch.n by {
        if 0 <= ch.n < 256 {
          ToByteSmall(ch.n);
        }
      }
      c
  }

  /** Channels 1 to 16 are written as 0 to 15, and all channels as 16. */
  lemma ChannelCodes(ch: MidiChannel)
    requires ch.OmniChannel? || (ch.ZeroBased? && 0 <= ch.n < 16)
    ensures ChannelCode(ch) <= OmniCode
    ensures ChannelCode(ch) == OmniCode <==> ch.OmniChannel?
    ensures ch.ZeroBased? ==> ChannelCode(ch) as int == ch.n
  {
    if ch.ZeroBased? {
      ToByteSmall(ch.n);
    }
  }

  /**
   * getMidiChannelsFromDevice's handling of the settings: the receive
   * channel from byte 7, where code 16 is omni and 17 keeps the channel, and
   * the transmit channel from byte 8, where 16 is omni.
   */
  function ReadBack(s: Session, bytes: seq<bv8>): (r: Session)
    requires |bytes| > TxChannelOffset
    ensures r == s.(channel := r.channel, outputChannel := r.outputChannel)
    ensures !r.outputChannel.InvalidChannel? && (bytes[RxChannelOffset] != 17 ==> !r.channel.InvalidChannel?)
    ensures r.outputChannel.OmniChannel? <==> bytes[TxChannelOffset] == OmniCode
    ensures bytes[RxChannelOffset] == 17 ==> r.channel == s.channel
    ensures bytes[RxChannelOffset] == OmniCode ==> r.channel == OmniChannel
    ensures bytes[RxChannelOffset] != OmniCode && bytes[RxChannelOffset] != 17 ==> r.channel == ZeroBased(bytes[RxChannelOffset] as int)
    ensures bytes[TxChannelOffset] != OmniCode ==> r.outputChannel == ZeroBased(bytes[TxChannelOffset] as int)
  {
    var rx := bytes[RxChannelOffset];
    var tx := bytes[TxChannelOffset];
    s.(channel := if rx == OmniCode then OmniChannel else if rx == 17 then s.channel else ZeroBased(rx as int),
       outputChannel := if tx == OmniCode then OmniChannel else ZeroBased(tx as int))
  }

  /** The byte a channel change writes: 7 for the input channel, 8 for the output channel. */
  function ChangedOffset(op: Operation): nat
  {
    if op.ChangeInput? then RxChannelOffset else TxChannelOffset
  }

  /**
   * changeInputChannel and changeOutputChannel's handling of the settings:
   * write the channel code, which succeeds for codes 0 to 16; only then keep
   * the new channel, send the whole settings back and count one onFinished.
   */
  function ChangeBack(s: Session, op: Operation, bytes: seq<bv8>): (r: Session)
    requires (op.ChangeInput? || op.ChangeOutput?) && ValidOperation(op) && |bytes| > TxChannelOffset
    ensures ChannelCode(op.target) > OmniCode ==> r == s
    ensures r.pending == s.pending && r.deviceID == s.deviceID && r.version == s.version
    ensures op.ChangeInput? ==> r.outputChannel == s.outputChannel
    ensures op.ChangeOutput? ==> r.channel == s.channel
    ensures ChannelCode(op.target) <= OmniCode ==>
      && s.sent <= r.sent && |r.sent| == |s.sent| + 1 && r.finished == s.finished + 1
      && (if op.ChangeInput? then r.channel else r.outputChannel) == op.target
  {
    var code := ChannelCode(op.target);
    if code > OmniCode then s
    else
      var kept := if op.ChangeInput? then s.(channel := op.target) else s.(outputChannel := op.target);
      kept.(sent := s.sent + [SettingsMessage(s.deviceID, s.version, bytes[ChangedOffset(op) := code])], finished := s.finished + 1)
  }

  /** The operation run on decoded settings; settings too short to hold the channel bytes are not modelled and change nothing. */
  function Apply(s: Session, op: Operation, bytes: seq<bv8>): (r: Session)
    requires ValidOperation(op)
    ensures r.pending == s.pending && r.deviceID == s.deviceID && r.version == s.version
    ensures s.sent <= r.sent && |r.sent| <= |s.sent| + 1 && s.finished <= r.finished <= s.finished + 1
  {
    if |bytes| <= TxChannelOffset then s
    else if op.ReadChannels? then ReadBack(s, bytes)
    else ChangeBack(s, op, bytes)
  }

  // ----- Receiving -----

  /**
   * The handler of a pending round trip, given one incoming message: a
   * settings dump runs the operation on its unpacked bytes and ends the
   * round trip; anything else, or any message while nothing is pending, is
   * ignored.
   */
  function Receive(s: Session, m: MidiMessage): (r: Session)
    requires ValidSession(s)
    ensures ValidSession(r)
    ensures r == s || (s.pending.Some? && r.pending.None? && s.sent <= r.sent && |r.sent| <= |s.sent| + 1 && r.finished <= s.finished + 1)
  {
    if s.pending.None? || !IsDataFile(m, GlobalSettingsRequest as int) then s
    else Apply(s.(pending := None), s.pending.value, Unescape(SettingsPayload(m)))
  }

  /** The session after a sequence of incoming messages. */
  function Run(s: Session, ms: seq<MidiMessage>): Session
    requires ValidSession(s)
    decreases |ms|
  {
    if ms == [] then s else Run(Receive(s, ms[0]), ms[1..])
  }

  /** A message that is not a settings dump leaves the session as it is. */
  lemma OtherMessagesIgnored(s: Session, m: MidiMessage)
    requires ValidSession(s) && !IsDataFile(m, GlobalSettingsRequest as int)
    ensures Receive(s, m) == s
  {
  }

  /** A settings dump ends a pending round trip, whether or not the operation succeeds. */
  lemma DumpEndsRoundTrip(s: Session, m: MidiMessage)
    requires ValidSession(s) && s.pending.Some? && IsDataFile(m, GlobalSettingsRequest as int)
    ensures Receive(s, m).pending.None?
  {
  }

  /**
   * A settings dump arriving while a round trip is pending runs its
   * operation on the unpacked settings.  Reading the channels takes RX from
   * byte 7 (16 is omni, 17 keeps the channel) and TX from byte 8 (16 is
   * omni), sending nothing; a change to a code from 0 to 16 sets the target
   * channel, sends the settings with that byte replaced and counts one
   * onFinished.  Settings too short for the channel bytes only end the round
   * trip.
   */
  lemma DumpRunsOperation(s: Session, op: Operation, m: MidiMessage)
    requires ValidSession(s) && s.pending == Some(op) && IsDataFile(m, GlobalSettingsRequest as int)
    ensures var bytes := Unescape(SettingsPayload(m));
      var r := Receive(s, m);
      && r.pending.None? && r.deviceID == s.deviceID && r.version == s.version
      && (|bytes| <= TxChannelOffset ==> r == s.(pending := None))
      && (|bytes| > TxChannelOffset && op.ReadChannels? ==>
            && r.sent == s.sent && r.finished == s.finished
            && (bytes[RxChannelOffset] == OmniCode ==> r.channel == OmniChannel)
            && (bytes[RxChannelOffset] == 17 ==> r.channel == s.channel)
            && (bytes[RxChannelOffset] != OmniCode && bytes[RxChannelOffset] != 17 ==> r.channel == ZeroBased(bytes[RxChannelOffset] as int))
            && (bytes[TxChannelOffset] == OmniCode ==> r.outputChannel == OmniChannel)
            && (bytes[TxChannelOffset] != OmniCode ==> r.outputChannel == ZeroBased(bytes[TxChannelOffset] as int)))
      && (|bytes| > TxChannelOffset && !op.ReadChannels? && ChannelCode(op.target) <= OmniCode ==>
            && r.finished == s.finished + 1 && |r.sent| == |s.sent| + 1 && s.sent <= r.sent
            && (if op.ChangeInput? then r.channel else r.outputChannel) == op.target
            && Unescape(SettingsPayload(r.sent[|s.sent|])) == bytes[ChangedOffset(op) := ChannelCode(op.target)])
      && (|bytes| > TxChannelOffset && !op.ReadChannels? && ChannelCode(op.target) > OmniCode ==> r == s.(pending := None))
  {
    var bytes := Unescape(SettingsPayload(m));
    if |bytes| > TxChannelOffset && !op.ReadChannels? && ChannelCode(op.target) <= OmniCode {
      ChangeSendsSettings(s.(pending := None), op, bytes);
    }
  }

  /**
   * However many messages arrive, a round trip runs its operation at most
   * once: at most one onFinished and at most one message sent, and nothing
   * at all when no round trip was pending.
   */
  lemma {:induction false} AtMostOnce(s: Session, ms: seq<MidiMessage>)
    requires ValidSession(s)
    ensures s.pending.None? ==> Run(s, ms) == s
    ensures Run(s, ms).finished <= s.finished + 1
    ensures s.sent <= Run(s, ms).sent && |Run(s, ms).sent| <= |s.sent| + 1
    decreases |ms|
  {
    if ms != [] {
      var s1 := Receive(s, ms[0]);
      AtMostOnce(s1, ms[1..]);
    }
  }

  /** A change sends a settings dump that unpacks to the received settings with the channel byte replaced by the channel code. */
  lemma ChangeSendsSettings(s: Session, op: Operation, bytes: seq<bv8>)
    requires (op.ChangeInput? || op.ChangeOutput?) && ValidOperation(op) && |bytes| > TxChannelOffset
    requires ChannelCode(op.target) <= OmniCode
    ensures var r := ChangeBack(s, op, bytes);
      && |r.sent| == |s.sent| + 1
      && IsDataFile(r.sent[|s.sent|], GlobalSettingsRequest as int)
      && Unescape(SettingsPayload(r.sent[|s.sent|])) == bytes[ChangedOffset(op) := ChannelCode(op.target)]
  {
    var changed := bytes[ChangedOffset(op) := ChannelCode(op.target)];
    SettingsWriteBack(s.deviceID, s.version, changed);
    assert ChangeBack(s, op, bytes).sent == s.sent + [SettingsMessage(s.deviceID, s.version, changed)];
  }

  /**
   * Changing the input channel to omni or to channels 1 to 16 and reading
   * the sent settings back, into any session, gives that channel.
   */
  lemma ChangeThenReadBack(s: Session, target: MidiChannel, bytes: seq<bv8>)
    requires target.OmniChannel? || (target.ZeroBased? && 0 <= target.n < 16)
    requires |bytes| > TxChannelOffset
    ensures var changed := ChangeBack(s, ChangeInput(target), bytes);
      && changed.channel == target
      && |changed.sent| == |s.sent| + 1
      && var sentBytes := Unescape(SettingsPayload(changed.sent[|s.sent|]));
      && |sentBytes| == |bytes|
      && forall t: Session :: ReadBack(t, sentBytes).channel == target
  {
    ChannelCodes(target);
    ChangeSendsSettings(s, ChangeInput(target), bytes);
  }

  /**
   * Changing the output channel to omni or to channels 1 to 16 and reading
   * the sent settings back, into any session, gives that channel.
   */
  lemma ChangeOutputThenReadBack(s: Session, target: MidiChannel, bytes: seq<bv8>)
    requires target.OmniChannel? || (target.ZeroBased? && 0 <= target.n < 16)
    requires |bytes| > TxChannelOffset
    ensures var changed := ChangeBack(s, ChangeOutput(target), bytes);
      && changed.outputChannel == target
      && |changed.sent| == |s.sent| + 1
      && var sentBytes := Unescape(SettingsPayload(changed.sent[|s.sent|]));
      && |sentBytes| == |bytes|
      && forall t: Session :: ReadBack(t, sentBytes).outputChannel == target
  {
    ChannelCodes(target);
    ChangeSendsSettings(s, ChangeOutput(target), bytes);
  }

  // ----- The handshake -----

  /** The reply channelIfValidDeviceResponse accepts: an RD-8 firmware reply of more than 13 bytes. */
  predicate IsDeviceReply(m: MidiMessage)
  {
    IsOwnSysex(m) && GetMessageID(m) == MessageID(FirmwareMessage, Reply) && |SysExData(m)| > 13
  }

  /**
   * channelIfValidDeviceResponse: on a reply, keep the device ID (byte 4)
   * and the version (bytes 11 to 13), start reading the channels, and
   * answer with the device ID as a channel; otherwise answer invalid.
   */
  function Handshake(s: Session, m: MidiMessage): (r: (Session, MidiChannel))
    requires ValidSession(s)
    ensures ValidSession(r.0) && s.sent <= r.0.sent && r.0.finished == s.finished
    ensures r.0.channel == s.channel && r.0.outputChannel == s.outputChannel
    ensures r.1.InvalidChannel? <==> !IsDeviceReply(m)
  {
    if IsDeviceReply(m) then
      var d := SysExData(m);
      var recorded := s.(deviceID := d[4], version := FirmwareVersion(d[11], d[12], d[13]));
      (Start(recorded, ReadChannels), ZeroBased(d[4] as int))
    else
      (s, InvalidChannel)
  }

  /** Any message but a device reply changes nothing and is answered with the invalid channel. */
  lemma HandshakeIgnoresOthers(s: Session, m: MidiMessage)
    requires ValidSession(s) && !IsDeviceReply(m)
    ensures Handshake(s, m) == (s, InvalidChannel)
  {
  }

  /**
   * A device reply sets device ID and version from its bytes, answers a
   * channel from 0 to 255, and, when idle, sends a settings request that
   * already carries the new device ID and version.
   */
  lemma HandshakeRecords(s: Session, m: MidiMessage)
    requires ValidSession(s) && IsDeviceReply(m)
    ensures var (r, ch) := Handshake(s, m);
      && r.deviceID == m.body[4]
      && r.version == FirmwareVersion(m.body[11], m.body[12], m.body[13])
      && ch.ZeroBased? && 0 <= ch.n < 256 && ch.n == m.body[4] as int
      && (s.pending.None? ==> r.pending == Some(ReadChannels) && r.sent == s.sent + SettingsRequest(m.body[4], r.version))
      && (s.pending.Some? ==> r.pending == s.pending && r.sent == s.sent)
  {
  }

  /** The two peekSetting calls of getMidiChannelsFromDevice: the bytes at offsets 7 and 8. */
  method PeekChannels(settings: GlobalSettingsFile) returns (rxChannel: bv8, txChannel: bv8)
    requires settings.data.Length > TxChannelOffset
    ensures rxChannel == settings.data[RxChannelOffset] && txChannel == settings.data[TxChannelOffset]
  {
    ChannelPeek(settings.data[..]);
    rxChannel := settings.PeekSetting(RxChannelName);
    txChannel := settings.PeekSetting(TxChannelName);
  }

  /**
   * The pokeSetting and dataToSysex calls of changeInputChannel (input) or
   * changeOutputChannel: codes 0 to 16 are written to byte 7 or 8 and the
   * changed settings are packed into a settings dump; larger codes are
   * refused and change nothing.
   */
  method WriteChannel(settings: GlobalSettingsFile, input: bool, code: bv8, deviceID: bv8, version: FirmwareVersion)
    returns (success: bool, updatedMessage: seq<MidiMessage>)
    requires settings.data.Length > TxChannelOffset
    modifies settings.data
    ensures success <==> code <= OmniCode
    ensures var offset := if input then RxChannelOffset else TxChannelOffset;
      && settings.data[..] == (if success then old(settings.data[..])[offset := code] else old(settings.data[..]))
      && (success ==> updatedMessage == [SettingsMessage(deviceID, version, old(settings.data[..])[offset := code])])
  {
    ChannelPokeBytes(settings.data[..], code);
    success := settings.PokeSetting(if input then RxChannelName else TxChannelName, code);
    if success {
      updatedMessage := settings.DataToSysex(deviceID, version);
    } else {
      updatedMessage := [];
    }
  }

  // ----- The driver -----

  /** BehringerRD8, restricted to the session fields. */
  class BehringerRD8 {
    var deviceID: bv8
    var version: FirmwareVersion
    var channel: MidiChannel
    var outputChannel: MidiChannel
    var pending: Option<Operation>
    var sent: seq<MidiMessage>
    var finished: nat

    function State(): Session
      reads this
    {
      Session(deviceID, version, channel, outputChannel, pending, sent, finished)
    }

    predicate Valid()
      reads this
    {
      ValidSession(State())
    }

    /** A new driver. */
    constructor()
      ensures State() == NewSession() && Valid()
    {
      deviceID := 0;
      version := FirmwareVersion(0, 0, 0);
      channel := InvalidChannel;
      outputChannel := InvalidChannel;
      pending := None;
      sent := [];
      finished := 0;
    }

    /** globalSettingsOperation. */
    method GlobalSettingsOperation(op: Operation)
      requires Valid() && ValidOperation(op)
      modifies this
      ensures Valid() && State() == Start(old(State()), op)
    {
      if pending.Some? {
        // Another round trip is still active.
        return;
      }
      pending := Some(op);
      var request := RequestItem(0, GlobalSettingsRequest as int);
      sent := sent + request;
    }

    /** createRequestMessage, for the device ID and firmware version this driver has recorded. */
    method RequestMessage(id: MessageID) returns (message: seq<bv8>)
      ensures message == CreateRequestMessage(deviceID, version, id)
    {
      message := CreateSysexMessage(deviceID, id.messageType, id.messageID);
      var data := RequestMagic + [version.major, version.minor, version.patch];
      message := message + data;
    }

    /** requestDataItem, for the device ID and firmware version this driver has recorded. */
    method RequestItem(itemNo: int, dataTypeID: int) returns (r: seq<MidiMessage>)
      ensures r == RequestDataItem(deviceID, version, itemNo, dataTypeID)
    {
      var message: seq<bv8> := [];
      if dataTypeID == StoredPatternRequest as int {
        message := RequestMessage(MessageID(DataMessage, StoredPatternRequest));
        message := message + [ToByte(itemNo) / 16];
        message := message + [ToByte(CRem(itemNo, 16))];
        assert message == RequestBody(deviceID, version, itemNo, dataTypeID);
      } else if dataTypeID == LivePatternRequest as int {
        message := RequestMessage(MessageID(DataMessage, LivePatternRequest));
        message := message + [ToByte(itemNo) / 16];
        assert message == RequestBody(deviceID, version, itemNo, dataTypeID);
      } else if dataTypeID == StoredSongRequest as int {
        message := RequestMessage(MessageID(DataMessage, StoredSongRequest));
        message := message + [ToByte(itemNo)];
        assert message == RequestBody(deviceID, version, itemNo, dataTypeID);
      } else if dataTypeID == LiveSongRequest as int {
        message := RequestMessage(MessageID(DataMessage, LiveSongRequest));
        assert message == RequestBody(deviceID, version, itemNo, dataTypeID);
      } else if dataTypeID == GlobalSettingsRequest as int {
        message := RequestMessage(MessageID(DataMessage, GlobalSettingsRequest));
        assert message == RequestBody(deviceID, version, itemNo, dataTypeID);
      } else {
        assert message == RequestBody(deviceID, version, itemNo, dataTypeID);
      }
      r := [SysEx(message)];
    }

    /** getMidiChannelsFromDevice. */
    method GetMidiChannelsFromDevice()
      requires Valid()
      modifies this
      ensures Valid() && State() == Start(old(State()), ReadChannels)
    {
      GlobalSettingsOperation(ReadChannels);
    }

    /** changeInputChannel. */
    method ChangeInputChannel(target: MidiChannel)
      requires Valid() && !target.InvalidChannel?
      modifies this
      ensures Valid() && State() == Start(old(State()), ChangeInput(target))
    {
      GlobalSettingsOperation(ChangeInput(target));
    }

    /** changeOutputChannel. */
    method ChangeOutputChannel(target: MidiChannel)
      requires Valid() && !target.InvalidChannel?
      modifies this
      ensures Valid() && State() == Start(old(State()), ChangeOutput(target))
    {
      GlobalSettingsOperation(ChangeOutput(target));
    }

    /** channelIfValidDeviceResponse. */
    method ChannelIfValidDeviceResponse(m: MidiMessage) returns (ch: MidiChannel)
      requires Valid()
      modifies this
      ensures Valid() && (State(), ch) == Handshake(old(State()), m)
    {
      if IsOwnSysex(m) {
        var messageID := GetMessageID(m);
        if messageID.messageType == FirmwareMessage && messageID.messageID == Reply {
          if |SysExData(m)| > 13 {
            deviceID := SysExData(m)[4];
            version := FirmwareVersion(SysExData(m)[11], SysExData(m)[12], SysExData(m)[13]);
            GetMidiChannelsFromDevice();
            return ZeroBased(deviceID as int);
          }
        }
      }
      return InvalidChannel;
    }

    /** The handler globalSettingsOperation registers, called with one incoming message. */
    method HandleMessage(m: MidiMessage)
      requires Valid()
      modifies this
      ensures Valid() && State() == Receive(old(State()), m)
    {
      if pending.None? {
        // No handler is registered.
        return;
      }
      if IsDataFile(m, GlobalSettingsRequest as int) {
        var op := pending.value;
        var settings := new GlobalSettingsFile();
        FirstDumpIs(GlobalSettings, [m], 0);
        var ok := settings.DataFromSysex([m]);
        if ok {
          RunOperation(op, settings);
        }
        pending := None;
      }
    }

    /** The operation of a round trip, run on the settings just decoded. */
    method RunOperation(op: Operation, settings: GlobalSettingsFile)
      requires ValidOperation(op)
      modifies this, settings.data
      ensures State() == Apply(old(State()), op, old(settings.data[..]))
    {
      if settings.data.Length <= TxChannelOffset {
        // Settings too short for the channel bytes are outside the model.
        return;
      }
      if op.ReadChannels? {
        ReadChannelsFrom(settings);
      } else {
        ChangeChannelIn(op, settings);
      }
    }

    /** The operation getMidiChannelsFromDevice passes to globalSettingsOperation. */
    method ReadChannelsFrom(settings: GlobalSettingsFile)
      requires settings.data.Length > TxChannelOffset
      modifies this
      ensures State() == ReadBack(old(State()), settings.data[..])
    {
      var rxChannel, txChannel := PeekChannels(settings);
      if rxChannel == 16 {
        channel := OmniChannel;
      } else if rxChannel == 17 {
        // Left as it is.
      } else {
        channel := ZeroBased(rxChannel as int);
      }
      if txChannel == 16 {
        outputChannel := OmniChannel;
      } else {
        outputChannel := ZeroBased(txChannel as int);
      }
    }

    /** The operation changeInputChannel or changeOutputChannel passes to globalSettingsOperation. */
    method ChangeChannelIn(op: Operation, settings: GlobalSettingsFile)
      requires (op.ChangeInput? || op.ChangeOutput?) && ValidOperation(op)
      requires settings.data.Length > TxChannelOffset
      modifies this, settings.data
      ensures State() == ChangeBack(old(State()), op, old(settings.data[..]))
    {
      ghost var bytes := settings.data[..];
      var code: bv8 := if op.target.OmniChannel? then 16 else ToByte(op.target.n);
      var success, updatedMessage := WriteChannel(settings, op.ChangeInput?, code, deviceID, version);
      assert code == ChannelCode(op.target);
      if success {
        Commit(op, updatedMessage);
      }
    }

    /** A successful channel change: keep the new channel, send the settings, call onFinished. */
    method Commit(op: Operation, updatedMessage: seq<MidiMessage>)
      requires op.ChangeInput? || op.ChangeOutput?
      modifies this
      ensures State() == (if op.ChangeInput? then old(State()).(channel := op.target) else old(State()).(outputChannel := op.target))
        .(sent := old(sent) + updatedMessage, finished := old(finished) + 1)
    {
      if op.ChangeInput? {
        channel := op.target;
      } else {
        outputChannel := op.target;
      }
      sent := sent + updatedMessage;
      finished := finished + 1;
    }
  }
}
