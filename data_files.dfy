/**
 * The RD-8 data files (RD8DataFile and its variants in RD8Pattern.cpp):
 * which sysex dumps each variant recognises, how it takes its bytes and
 * header fields from a list of messages, and how it writes them back.
 *
 * Pattern and song files keep their bytes as the hosting library's
 * setDataFromSysex leaves them; that routine is not part of this model and
 * is passed in as the function `fill`.  The settings file unpacks its bytes
 * itself and keeps them in an array that pokeSetting writes in place.
 */
module DataFiles {
  import opened Wrappers
  import opened Protocol
  import opened SysexCodec
  import opened SettingsRegistry

  /** The five RD8DataFile variants. */
  datatype DumpKind = StoredPattern | LivePattern | StoredSong | LiveSong | GlobalSettings

  /**
   * The midiFileType_ each variant is constructed with: its response ID,
   * except that the live song is constructed with the live pattern's.
   */
  function FileType(k: DumpKind): bv8
  {
    match k
    case StoredPattern => StoredPatternResponse
    case LivePattern => LivePatternResponse
    case StoredSong => StoredSongResponse
    case LiveSong => LivePatternResponse
    case GlobalSettings => GlobalSettingsResponse
  }

  /** The request ID (dataTypeID) a variant answers. */
  function RequestType(k: DumpKind): bv8
  {
    match k
    case StoredPattern => StoredPatternRequest
    case LivePattern => LivePatternRequest
    case StoredSong => StoredSongRequest
    case LiveSong => LiveSongRequest
    case GlobalSettings => GlobalSettingsRequest
  }

  /** Every variant but the live song expects the response to its own request. */
  lemma FileTypeIsResponse(k: DumpKind)
    ensures k != LiveSong ==> FileType(k) == RequestType(k) + 1
    ensures k == LiveSong ==> FileType(k) == LiveSongRequest - 1 && FileType(k) != LiveSongResponse
  {
  }

  // ----- Recognising a dump -----

  /**
   * RD8DataFile::isDataDump: an RD-8 sysex message of the data type carrying
   * this variant's file type, which comes down to the RD-8 prefix, more than
   * six bytes, type 0x10 and the file type.
   */
  predicate IsDataDump(k: DumpKind, m: MidiMessage)
    ensures IsDataDump(k, m) <==>
      && m.SysEx? && |m.body| > 6
      && m.body[0] == 0x00 && m.body[1] == 0x20 && m.body[2] == 0x32 && m.body[3] == 0x30
      && m.body[5] == 0x10 && m.body[6] == FileType(k)
  {
    IsOwnSysex(m) && GetMessageID(m) == MessageID(DataMessage, FileType(k))
  }

  /** A firmware message (such as the reply to device detection) is never a data dump. */
  lemma FirmwareIsNoDump(k: DumpKind, m: MidiMessage)
    requires GetMessageID(m).messageType == FirmwareMessage
    ensures !IsDataDump(k, m)
  {
  }

  /** Only the live pattern and the live song share a file type: a dump belongs to one variant otherwise. */
  lemma DumpKindsDistinct(a: DumpKind, b: DumpKind, m: MidiMessage)
    requires IsDataDump(a, m) && IsDataDump(b, m)
    ensures a == b || (a in {LivePattern, LiveSong} && b in {LivePattern, LiveSong})
  {
  }

  /** The variant isDataFile constructs for a request ID, if any. */
  function KindOfRequest(dataTypeID: int): (r: Option<DumpKind>)
    ensures r.Some? <==> IsRequestType(dataTypeID)
    ensures r.Some? ==> RequestType(r.value) as int == dataTypeID
  {
    if dataTypeID == StoredPatternRequest as int then Some(StoredPattern)
    else if dataTypeID == LivePatternRequest as int then Some(LivePattern)
    else if dataTypeID == StoredSongRequest as int then Some(StoredSong)
    else if dataTypeID == LiveSongRequest as int then Some(LiveSong)
    else if dataTypeID == GlobalSettingsRequest as int then Some(GlobalSettings)
    else None
  }

  /**
   * BehringerRD8::isDataFile: the dump test of the variant for this request
   * ID; an unknown request ID recognises nothing.
   */
  predicate IsDataFile(m: MidiMessage, dataTypeID: int)
    ensures IsDataFile(m, dataTypeID) ==>
      && IsRequestType(dataTypeID)
      && IsOwnSysex(m)
      && GetMessageID(m) == MessageID(DataMessage, FileType(KindOfRequest(dataTypeID).value))
  {
    match KindOfRequest(dataTypeID)
    case None => false
    case Some(k) => IsDataDump(k, m)
  }

  /**
   * For every request but the live song's, isDataFile accepts exactly the
   * RD-8 data messages whose ID is the request ID plus one.
   */
  lemma DataFileAnswersRequest(m: MidiMessage, dataTypeID: int)
    requires IsRequestType(dataTypeID) && dataTypeID != LiveSongRequest as int
    ensures IsDataFile(m, dataTypeID) <==> IsOwnSysex(m) && GetMessageID(m) == MessageID(DataMessage, (dataTypeID + 1) as bv8)
  {
    var k := KindOfRequest(dataTypeID).value;
    FileTypeIsResponse(k);
  }

  /** A live song request is answered by the live pattern's dumps, not by 0x08. */
  lemma LiveSongAcceptsLivePatterns(m: MidiMessage)
    ensures IsDataFile(m, LiveSongRequest as int) == IsDataFile(m, LivePatternRequest as int)
    ensures GetMessageID(m).messageID == LiveSongResponse ==> !IsDataFile(m, LiveSongRequest as int)
  {
  }

  // ----- Choosing the message a variant reads -----

  /** The number of body bytes a variant reads from its dump: bytes 14 and 15 (song, pattern) or byte 14 (song). */
  function HeaderEnd(k: DumpKind): nat
  {
    match k
    case StoredPattern => 16
    case StoredSong => 15
    case _ => 0
  }

  /** A message a variant's dataFromSysex takes: one of its dumps, long enough for its header fields. */
  predicate Qualifies(k: DumpKind, m: MidiMessage)
  {
    IsDataDump(k, m) && |SysExData(m)| >= HeaderEnd(k)
  }

  /** The first message, from index `from` on, that the variant takes. */
  function FirstDumpFrom(k: DumpKind, messages: seq<MidiMessage>, from: nat): (r: Option<nat>)
    ensures r.Some? ==> from <= r.value < |messages| && Qualifies(k, messages[r.value])
    ensures forall j :: from <= j < |messages| && (r.None? || j < r.value) ==> !Qualifies(k, messages[j])
    decreases |messages| - from
  {
    if from >= |messages| then None
    else if Qualifies(k, messages[from]) then Some(from)
    else FirstDumpFrom(k, messages, from + 1)
  }

  /** The message dataFromSysex takes for every variant but the live song: the first that qualifies. */
  function FirstDump(k: DumpKind, messages: seq<MidiMessage>): Option<nat>
  {
    FirstDumpFrom(k, messages, 0)
  }

  /** The first qualifying message is the one at index i when it qualifies and none before it does. */
  lemma FirstDumpIs(k: DumpKind, messages: seq<MidiMessage>, i: nat)
    requires i < |messages| && Qualifies(k, messages[i])
    requires forall j :: 0 <= j < i ==> !Qualifies(k, messages[j])
    ensures FirstDump(k, messages) == Some(i)
  {
  }

  /** Messages after the first qualifying one do not change the choice. */
  lemma {:induction false} FirstDumpIgnoresLater(k: DumpKind, messages: seq<MidiMessage>, more: seq<MidiMessage>, from: nat)
    requires FirstDumpFrom(k, messages, from).Some?
    ensures FirstDumpFrom(k, messages + more, from) == FirstDumpFrom(k, messages, from)
    decreases |messages| - from
  {
    if !Qualifies(k, messages[from]) {
      FirstDumpIgnoresLater(k, messages, more, from + 1);
    }
  }

  /** The last dump of the variant among the first `to` messages: the one the live song is left with. */
  function LastDumpBefore(k: DumpKind, messages: seq<MidiMessage>, to: nat): (r: Option<nat>)
    requires to <= |messages|
    ensures r.Some? ==> r.value < to && IsDataDump(k, messages[r.value])
    ensures forall j :: 0 <= j < to && (r.None? || r.value < j) ==> !IsDataDump(k, messages[j])
  {
    if to == 0 then None
    else if IsDataDump(k, messages[to - 1]) then Some(to - 1)
    else LastDumpBefore(k, messages, to - 1)
  }

  /** The last dump of the variant in the whole list. */
  function LastDump(k: DumpKind, messages: seq<MidiMessage>): Option<nat>
  {
    LastDumpBefore(k, messages, |messages|)
  }

  /** A one-message list whose message a variant takes yields that message, first and last. */
  lemma RawWriteBackReadsBack(k: DumpKind, data: seq<bv8>)
    requires Qualifies(k, SysEx(data))
    ensures FirstDump(k, [SysEx(data)]) == Some(0)
    ensures LastDump(k, [SysEx(data)]) == Some(0)
  {
  }

  // ----- Pattern and song files -----

  /**
   * RD8StoredPattern, RD8LivePattern, RD8StoredSong and RD8LiveSong: the
   * bytes of the file and the header fields of the stored variants (a
   * stored pattern keeps song and pattern number, a stored song its song
   * number, the live variants neither).
   */
  class SequencerFile {
    const kind: DumpKind
    var data: seq<bv8>
    var songNo: bv8
    var patternNo: bv8

    /** A file of one of the four pattern and song variants, with no bytes yet. */
    constructor(kind: DumpKind)
      requires kind != GlobalSettings
      ensures this.kind == kind && data == [] && songNo == 0 && patternNo == 0
    {
      this.kind := kind;
      data := [];
      songNo := 0;
      patternNo := 0;
    }

    /**
     * dataFromSysex.  The stored and live pattern and the stored song take
     * the first qualifying message, set their header fields from bytes 14
     * and 15, and report whether they found one.  The live song fills
     * itself from every dump in turn, so it is left with the last, and
     * always reports false.
     */
    method DataFromSysex(messages: seq<MidiMessage>, fill: MidiMessage -> seq<bv8>) returns (ok: bool)
      modifies this
      ensures kind != LiveSong ==> ok == FirstDump(kind, messages).Some?
      ensures kind != LiveSong && ok ==>
        var m := messages[FirstDump(kind, messages).value];
        && data == fill(m)
        && songNo == (if kind == StoredPattern || kind == StoredSong then SysExData(m)[14] else old(songNo))
        && patternNo == (if kind == StoredPattern then SysExData(m)[15] else old(patternNo))
      ensures kind != LiveSong && !ok ==> data == old(data) && songNo == old(songNo) && patternNo == old(patternNo)
      ensures kind == LiveSong ==> !ok && songNo == old(songNo) && patternNo == old(patternNo)
      ensures kind == LiveSong ==> data == match LastDump(kind, messages) case Some(i) => fill(messages[i]) case None => old(data)
    {
      if kind == LiveSong {
        for i := 0 to |messages|
          invariant songNo == old(songNo) && patternNo == old(patternNo)
          invariant data == match LastDumpBefore(kind, messages, i) case Some(j) => fill(messages[j]) case None => old(data)
        {
          if IsDataDump(kind, messages[i]) {
            data := fill(messages[i]);
          }
        }
        return false;
      }
      for i := 0 to |messages|
        invariant forall j :: 0 <= j < i ==> !Qualifies(kind, messages[j])
      {
        var message := messages[i];
        if IsDataDump(kind, message) {
          if kind == StoredPattern {
            if |SysExData(message)| > 15 {
              songNo := SysExData(message)[14];
              patternNo := SysExData(message)[15];
              data := fill(message);
              FirstDumpIs(kind, messages, i);
              return true;
            }
          } else if kind == StoredSong {
            if |SysExData(message)| > 14 {
              songNo := SysExData(message)[14];
              data := fill(message);
              FirstDumpIs(kind, messages, i);
              return true;
            }
          } else {
            data := fill(message);
            FirstDumpIs(kind, messages, i);
            return true;
          }
        }
      }
      return false;
    }

    /** dataToSysex of the pattern and song variants: one sysex message holding the file's bytes, with no header. */
    function DataToSysex(): (r: seq<MidiMessage>)
      reads this
      ensures |r| == 1 && r[0].SysEx? && SysExData(r[0]) == data
    {
      [SysEx(data)]
    }

    /**
     * Writing the file back and reading the message in again, with the bytes
     * taken as they arrive: when the file's bytes are a dump its variant
     * takes, they come back unchanged, a stored pattern or song takes its
     * header fields from them, and every variant but the live song reports
     * success.
     */
    method ReadWriteBack() returns (ok: bool)
      requires Qualifies(kind, SysEx(data))
      modifies this
      ensures data == old(data)
      ensures ok <==> kind != LiveSong
      ensures kind == StoredPattern || kind == StoredSong ==> songNo == data[14]
      ensures kind == StoredPattern ==> patternNo == data[15]
      ensures kind != StoredPattern ==> patternNo == old(patternNo)
      ensures kind != StoredPattern && kind != StoredSong ==> songNo == old(songNo)
    {
      var messages := DataToSysex();
      RawWriteBackReadsBack(kind, data);
      ok := DataFromSysex(messages, m => SysExData(m));
    }
  }

  // ----- The settings file -----

  /** One entry of globalSettings_: a table row and, when the bytes reach its offset, the byte found there. */
  datatype SettingValue = SettingValue(setting: Setting, value: Option<bv8>)

  /** The packed settings bytes of a dump: its body from byte 14 on, or nothing for a shorter body. */
  function SettingsPayload(m: MidiMessage): seq<bv8>
  {
    var body := SysExData(m);
    body[Min(RequestHeaderLength, |body|)..]
  }

  /** The entries rebuilt from the unpacked bytes: one per table row, in table order. */
  predicate ListsTable(settings: seq<SettingValue>, bytes: seq<bv8>)
  {
    && |settings| == |Table()|
    && forall i :: 0 <= i < |settings| ==>
      && settings[i].setting == Table()[i]
      && (settings[i].value.Some? <==> Table()[i].offset < |bytes|)
      && (settings[i].value.Some? ==> settings[i].value.value == bytes[Table()[i].offset])
  }

  /**
   * The settings write-back message: the request header with the settings
   * response ID, then the packed bytes, so it is a settings dump whose
   * payload is those packed bytes.
   */
  function SettingsMessage(deviceID: bv8, version: FirmwareVersion, bytes: seq<bv8>): (m: MidiMessage)
    ensures IsDataDump(GlobalSettings, m)
    ensures SettingsPayload(m) == Escape(bytes)
    ensures |SysExData(m)| >= RequestHeaderLength
    ensures SysExData(m)[..RequestHeaderLength] == CreateRequestMessage(deviceID, version, MessageID(DataMessage, GlobalSettingsResponse))
  {
    var header := CreateRequestMessage(deviceID, version, MessageID(DataMessage, GlobalSettingsResponse));
    assert (header + Escape(bytes))[RequestHeaderLength..] == Escape(bytes);
    SysEx(header + Escape(bytes))
  }

  /** The write-back message answers a settings request, and its payload unpacks to the bytes that were written. */
  lemma SettingsWriteBack(deviceID: bv8, version: FirmwareVersion, bytes: seq<bv8>)
    ensures IsDataFile(SettingsMessage(deviceID, version, bytes), GlobalSettingsRequest as int)
    ensures FirstDump(GlobalSettings, [SettingsMessage(deviceID, version, bytes)]) == Some(0)
    ensures Unescape(SettingsPayload(SettingsMessage(deviceID, version, bytes))) == bytes
  {
    UnescapeEscape(bytes);
  }

  /**
   * RD8GlobalSettings: the unpacked settings bytes, which pokeSetting
   * changes in place, and the entry list built when a dump is read.
   */
  class GlobalSettingsFile {
    var data: array<bv8>
    var settings: seq<SettingValue>

    /** A settings file with no bytes and no entries. */
    constructor()
      ensures data.Length == 0 && settings == []
    {
      data := new bv8[0];
      settings := [];
    }

    /**
     * dataFromSysex: from the first settings dump, unpack the bytes after
     * the 14-byte header and rebuild the entry list; report whether a dump
     * was found.
     */
    method DataFromSysex(messages: seq<MidiMessage>) returns (ok: bool)
      modifies this
      ensures ok == FirstDump(GlobalSettings, messages).Some?
      ensures ok ==> fresh(data) && data[..] == Unescape(SettingsPayload(messages[FirstDump(GlobalSettings, messages).value]))
      ensures ok ==> ListsTable(settings, data[..])
      ensures !ok ==> data == old(data) && settings == old(settings)
    {
      for i := 0 to |messages|
        invariant forall j :: 0 <= j < i ==> !Qualifies(GlobalSettings, messages[j])
        invariant data == old(data) && settings == old(settings)
      {
        var message := messages[i];
        if IsDataDump(GlobalSettings, message) {
          var rawData := CopyPayload(SysExData(message));
          var unpacked := UnescapeSysex(rawData);
          data := new bv8[|unpacked|](j requires 0 <= j < |unpacked| => unpacked[j]);
          assert data[..] == unpacked;
          RebuildSettings();
          FirstDumpIs(GlobalSettings, messages, i);
          return true;
        }
      }
      return false;
    }

    /** The loop that rebuilds globalSettings_, one entry per table row. */
    method RebuildSettings()
      modifies this`settings
      ensures ListsTable(settings, data[..])
    {
      settings := [];
      for r := 0 to |Table()|
        invariant |settings| == r
        invariant forall i :: 0 <= i < r ==>
          && settings[i].setting == Table()[i]
          && (settings[i].value.Some? <==> Table()[i].offset < data.Length)
          && (settings[i].value.Some? ==> settings[i].value.value == data[Table()[i].offset])
      {
        var setting := Table()[r];
        var value := if setting.offset < data.Length then Some(data[setting.offset]) else None;
        settings := settings + [SettingValue(setting, value)];
      }
    }

    /** dataToSysex of the settings file; the round trip back to the bytes is part of its promise. */
    method DataToSysex(deviceID: bv8, version: FirmwareVersion) returns (r: seq<MidiMessage>)
      ensures r == [SettingsMessage(deviceID, version, data[..])]
      ensures FirstDump(GlobalSettings, r) == Some(0)
      ensures Unescape(SettingsPayload(r[0])) == data[..]
    {
      var message := CreateRequestMessage(deviceID, version, MessageID(DataMessage, GlobalSettingsResponse));
      var escapedData := EscapeSysex(data[..]);
      r := [SysEx(message + escapedData)];
      SettingsWriteBack(deviceID, version, data[..]);
    }

    /** peekSetting: the byte at the first row with this name, or 0xFF when no row has it. */
    method PeekSetting(name: string) returns (r: bv8)
      requires PeekInRange(Table(), data[..], name)
      ensures r == Peek(Table(), data[..], name)
    {
      r := PeekScan(Table(), name);
    }

    /** The loop of peekSetting, over the rows of a table in order. */
    method PeekScan(table: seq<Setting>, name: string) returns (r: bv8)
      requires PeekInRange(table, data[..], name)
      ensures r == Peek(table, data[..], name)
    {
      for i := 0 to |table|
        invariant forall j :: 0 <= j < i ==> table[j].name != name
      {
        if table[i].name == name {
          FindSettingIs(table, name, i);
          return data[table[i].offset];
        }
      }
      return 0xFF;
    }

    /**
     * pokeSetting: write the value at the first row with this name whose
     * range holds it and report true; report false and change nothing when
     * there is no such row.
     */
    method PokeSetting(name: string, v: bv8) returns (ok: bool)
      requires PokeInRange(Table(), data[..], name, v)
      modifies data
      ensures ok == Poke(Table(), old(data[..]), name, v).Some?
      ensures data[..] == if ok then Poke(Table(), old(data[..]), name, v).value else old(data[..])
    {
      ok := PokeScan(Table(), name, v);
    }

    /** The loop of pokeSetting, over the rows of a table in order. */
    method PokeScan(table: seq<Setting>, name: string, v: bv8) returns (ok: bool)
      requires PokeInRange(table, data[..], name, v)
      modifies data
      ensures ok == Poke(table, old(data[..]), name, v).Some?
      ensures data[..] == if ok then Poke(table, old(data[..]), name, v).value else old(data[..])
    {
      for i := 0 to |table|
        invariant forall j :: 0 <= j < i ==> !Accepts(table, j, name, v)
      {
        var setting := table[i];
        if setting.name == name {
          if MinValue(setting.kind) <= v as int <= MaxValue(setting.kind) {
            PokeIndexIs(table, name, v, i);
            data[setting.offset] := v;
            return true;
          }
        }
      }
      return false;
    }
  }

  /** The loop of dataFromSysex that copies the body from byte 14 on. */
  method CopyPayload(body: seq<bv8>) returns (rawData: seq<bv8>)
    ensures rawData == SettingsPayload(SysEx(body))
  {
    rawData := [];
    var i := RequestHeaderLength;
    while i < |body|
      invariant RequestHeaderLength <= i && (i <= |body| || i == RequestHeaderLength)
      invariant rawData == body[Min(RequestHeaderLength, |body|) .. Min(i, |body|)]
    {
      rawData := rawData + [body[i]];
      i := i + 1;
    }
  }
}
