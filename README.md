# RD-8 sysex protocol model

A Dafny model of the System Exclusive layer of the MidiKraft driver for the
Behringer RD-8 drum machine (`BehringerRD8`, `RD8DataFile` and its variants).
It covers:

- the 7-bit packing that every payload goes through (`escapeSysex`,
  `unescapeSysex`);
- the message envelope: the `00 20 32 30` prefix, the device ID, the
  (message type, message ID) pair, and the 14-byte request header carrying the
  magic bytes `30 00 00 00` and the firmware version;
- the five data-file variants (stored/live pattern, stored/live song, global
  settings): which dumps each recognises, which message it reads, and what it
  writes back;
- the pattern decoder (`getPattern`): 12 tracks of 64 step bytes and the
  pattern parameters of an 889-byte pattern;
- the global settings table with `peekSetting` and `pokeSetting`;
- the device session: the handshake that records device ID and firmware
  version, and the settings round trip that reads or changes the MIDI
  channels, at most one at a time as long as the library's handler
  registration arms the round-trip handle.

Modules, one file each:

- `SysexCodec` (`sysex_codec.dfy`). Escape and Unescape are reference
  definitions, group by group. EscapeSysex and UnescapeSysex are the
  index-driven loops, proved equal to them.
- `Protocol` (`protocol.dfy`): the constants of RD8.h and the header builders
  and classifiers.
- `PatternDecoder` (`pattern_decoder.dfy`): the layout of RD8Pattern.h and
  `getPattern`.
- `SettingsRegistry` (`settings_registry.dfy`): the settings table and the
  peek/poke specification over byte sequences.
- `DataFiles` (`data_files.dfy`):
  - `SequencerFile` is a class for the pattern and song variants, with the
    `songNo`/`patternNo` fields.
  - `GlobalSettingsFile` is a class holding the unpacked settings in an array
    that `pokeSetting` writes in place.
- `DeviceSession` (`device_session.dfy`):
  - The `Session` value and its transition functions (`Start`, `Receive`,
    `Handshake`) are the specification.
  - The class `BehringerRD8` implements it, and its methods are proved against
    those functions.

Sending is modelled as appending to a log of messages (`sent`). An incoming
MIDI message is a call of `HandleMessage` (or of the function `Receive`), and
`onFinished` is a counter (`finished`).

## Model

| member | source | states |
|---|---|---|
| SysexCodec.Escape | RD8Pattern.cpp:42-65 | reference packing: chunks of up to seven bytes, each led by the mask of their top bits and followed by their low seven bits (no contract; see UnescapeEscape, EscapeLength, EscapeWellFormed) |
| SysexCodec.Unescape | RD8Pattern.cpp:25-40 | reference unpacking: chunks of up to eight bytes, the first the mask whose bit i goes back into bit 7 of byte i (no contract; see UnescapeEscape, EscapeUnescape, UnescapeLength) |
| SysexCodec.UnescapeSysex | RD8Pattern.cpp:25-40 | the loop computes exactly Unescape of its input |
| SysexCodec.UnpackGroup | RD8Pattern.cpp:30-37 | one outer iteration yields the up-to-seven bytes after the mask, each with mask bit i put into bit 7, and advances the index by 8 |
| SysexCodec.EscapeSysex | RD8Pattern.cpp:42-65 | the loop computes exactly Escape of its input |
| SysexCodec.PackGroup | RD8Pattern.cpp:47-62 | one outer iteration appends the mask of up to seven input bytes, then those bytes with bit 7 cleared, and advances the index by 7 |
| SysexCodec.UnescapeEscape | RD8Pattern.cpp:25-65 | unpacking undoes packing for every byte sequence |
| SysexCodec.EscapeUnescape | RD8Pattern.cpp:25-65 | packing undoes unpacking for every well-formed packed stream |
| SysexCodec.EscapeLength | RD8Pattern.cpp:42-65 | packing n bytes gives n + ceil(n/7) bytes |
| SysexCodec.UnescapeLength | RD8Pattern.cpp:25-40 | unpacking n bytes gives n - ceil(n/8) bytes, so a short last chunk yields only the bytes present |
| SysexCodec.EscapeWellFormed | RD8Pattern.cpp:42-65 | packed output is a run of groups, each one mask byte and one to seven data bytes, and every byte is below 0x80 |
| SysexCodec.WellFormedIsSevenBit | RD8Pattern.cpp:55-56 | every byte of a well-formed packed stream is below 0x80 |
| SysexCodec.MaskBit | RD8Pattern.cpp:56 | bit i of the mask is bit 7 of the i-th byte of the group, and zero past the group |
| SysexCodec.MaskBound | RD8Pattern.cpp:52-59 | the mask of n bytes is below 2^n |
| SysexCodec.UnmaskOfPacked | RD8Pattern.cpp:34 | unmasking a packed group restores the group |
| SysexCodec.PackOfUnmasked | RD8Pattern.cpp:55-56 | repacking an unmasked group restores its mask and its 7-bit bytes |
| Protocol.IsOwnSysex | RD8.cpp:49-59 | holds iff the message is sysex, longer than three bytes, and starts 00 20 32 30; the device ID byte is not looked at |
| Protocol.GetMessageID | RD8.cpp:72-80 | for an RD-8 message of more than six bytes, prefix, device ID and the two ID bytes make up the first seven bytes, so bytes 5 and 6 are the ID |
| Protocol.DeviceIDIgnored | RD8.cpp:56 | the device ID byte changes neither isOwnSysex nor the message ID |
| Protocol.ShortMessageHasNoID | RD8.cpp:72-80 | a body of six bytes or fewer has message ID (0, 0), which is neither a data nor a firmware type |
| Protocol.CreateSysexMessage | RD8.cpp:61-63 | seven bytes: the prefix, the device ID, then type and ID; recognised as own sysex with that ID |
| Protocol.CreateRequestMessage | RD8.cpp:65-70 | 14 bytes: the sysex header, the magic bytes 30 00 00 00, then major, minor and patch; any continuation keeps the ID |
| Protocol.DeviceDetect | RD8.cpp:11-15 | a 7-byte firmware request to device 0, whatever the channel |
| Protocol.RequestDataItem | RD8.cpp:92-120 | one sysex message: the request header of the type, then two address bytes for a stored pattern, one for a live pattern or stored song and none otherwise; an unknown type gives an empty body |
| Protocol.NumberOfDataItemsPerType | RD8.cpp:122-134 | 256, 16 and 16 for stored pattern, live pattern and stored song, 1 for live song and global settings, 0 for any other ID |
| Protocol.StoredPatternAddress | RD8.cpp:96-100 | every stored-pattern item has song and pattern bytes below 16 that recombine to the item number |
| Protocol.StoredSongAddress | RD8.cpp:105-108 | every stored-song item is sent as its own number |
| Protocol.LivePatternsShareRequest | RD8.cpp:101-104 | all 16 live-pattern items the device announces send the same request, and its address byte (byte 14) is 0 |
| Protocol.ResponseFollowsRequest | RD8.h:16-25 | each response ID is its request ID plus one |
| PatternDecoder.StepData.IsOn | RD8Pattern.cpp:400-403 | (no contract; a step is on when its on/off flag is; see DecodeStep) |
| PatternDecoder.TrackNames | RD8Pattern.cpp:410-415 | (no contract; the twelve names in step-byte track order; see NumberOfTracks) |
| PatternDecoder.NumberOfTracks | RD8Pattern.cpp:405-408 | the number of tracks equals the number of track names |
| PatternDecoder.DecodeStep | RD8Pattern.cpp:369-375 | the repeat count is at most 3, and a step is on iff bit 0 is set |
| PatternDecoder.DecodeEncode | RD8Pattern.h:109-115 | decoding the byte a step stands for gives the step back |
| PatternDecoder.EncodeDecode | RD8Pattern.h:109-115 | re-encoding a decoded byte keeps exactly the bits the decoder reads |
| PatternDecoder.DecodeStepIgnoresUnusedBits | RD8Pattern.cpp:369-375 | two bytes decode alike iff they agree outside bits 1 and 7 |
| PatternDecoder.StepMasksDisjoint | RD8Pattern.h:109-115 | the five step masks are pairwise disjoint and leave bits 1 and 7 unused |
| PatternDecoder.TrackLayout | RD8Pattern.h:73-85 | the 12 tracks lie in bytes 2 to 769 and no two steps share a byte |
| PatternDecoder.ParameterLayout | RD8Pattern.h:86-104 | the parameters lie after the track and random bytes, in order, below 889 |
| PatternDecoder.DecodeTrack | RD8Pattern.cpp:368-377 | the 64 steps of track t, step s decoded from byte 2 + 64t + s |
| PatternDecoder.DecodePattern | RD8Pattern.cpp:353-398 | a pattern exactly when the size is 889 and bytes 0 and 1 are 00 08; then 12 tracks of 64 steps, step (t, s) decoded from byte 2 + 64t + s, filter steps from bytes 811 to 874, and tempo, swing, probability, flam level, filter mode and step size copied from their bytes while filter enable, filter automation, polymeter and auto-advance are those bytes being non-zero |
| PatternDecoder.GetPattern | RD8Pattern.cpp:353-398 | the nested loops compute DecodePattern |
| PatternDecoder.GetTrack | RD8Pattern.cpp:368-377 | the inner loop computes the 64 steps of one track |
| SettingsRegistry.Row | RD8Pattern.cpp:297-351 | row i of the settings definition: its byte offset, name, group and value range (no contract; its facts are the lemmas below) |
| SettingsRegistry.Table | RD8Pattern.cpp:297-351 | the 48 rows in definition order, without the two commented-out rows (no contract; see OffsetOfRow, OffsetsDistinct, ChannelRows) |
| SettingsRegistry.FindSettingFrom | RD8Pattern.cpp:273-277 | the result is the first row with the name, and None means no row has it |
| SettingsRegistry.PokeIndexFrom | RD8Pattern.cpp:260-266 | the result is the first row with the name whose range holds the value, and None means no such row |
| SettingsRegistry.FindSettingIs | RD8Pattern.cpp:273-277 | a read finds row k when k has the name and no earlier row does |
| SettingsRegistry.PokeIndexIs | RD8Pattern.cpp:260-266 | a write goes to row k when k accepts and no earlier row does |
| SettingsRegistry.Peek | RD8Pattern.cpp:271-280 | the byte at the first row with the name; 0xFF for an unknown name |
| SettingsRegistry.Poke | RD8Pattern.cpp:258-269 | None iff no row accepts name and value; otherwise the bytes with only the byte of the first accepting row replaced |
| SettingsRegistry.PeekAfterPoke | RD8Pattern.cpp:258-280 | when a write and a read of a name pick the same row, reading back a successful write gives the written value |
| SettingsRegistry.ChannelRows | RD8Pattern.cpp:303-304 | the MIDI RX and TX channel rows are rows 3 and 4, at offsets 7 and 8 |
| SettingsRegistry.ChannelNamesUnique | RD8Pattern.cpp:297-351 | no other row carries either channel name |
| SettingsRegistry.ChannelPoke | RD8Pattern.cpp:294-295 | a channel write succeeds exactly for the codes 0 to 16 |
| SettingsRegistry.ChannelPeek | RD8Pattern.cpp:271-280 | reading a channel setting yields byte 7 (RX) or byte 8 (TX) |
| SettingsRegistry.ChannelPokeBytes | RD8Pattern.cpp:258-269 | a channel write puts codes 0 to 16 at byte 7 or 8 and refuses the rest |
| SettingsRegistry.DeviceIDRange | RD8Pattern.cpp:300 | the device ID is at offset 4 and a write to it succeeds exactly for 0 to 15 |
| SettingsRegistry.DeviceIDOnlyAtZero | RD8Pattern.cpp:297-351 | only row 0 is named Device ID |
| SettingsRegistry.LastLoadedSongUnknown | RD8Pattern.cpp:298 | the commented-out rows are absent, so reading them gives 0xFF |
| SettingsRegistry.NotLastLoadedSong | RD8Pattern.cpp:297-351 | no row is named Last Loaded Song |
| SettingsRegistry.OffsetsInRange | RD8Pattern.cpp:297-351 | every row's byte lies in 4 to 114 |
| SettingsRegistry.OffsetOfRow | RD8Pattern.cpp:300-347 | rows 0 to 43 sit at offsets 4 to 47, rows 44 to 47 at 111 to 114 |
| SettingsRegistry.NamesDistinct | RD8Pattern.cpp:297-351 | no two rows of the table share a name |
| SettingsRegistry.TablePeekAfterPoke | RD8Pattern.cpp:258-280 | on the RD-8 table, reading back a successful write gives the written value, with no premise about rows |
| SettingsRegistry.OffsetsDistinct | RD8Pattern.cpp:297-351 | offsets strictly increase down the table, so no two rows share a byte |
| DataFiles.FileType | RD8Pattern.cpp:67 | (no contract; the file type each variant is constructed with, also at lines 107, 140, 178 and 210; see FileTypeIsResponse) |
| DataFiles.HeaderEnd | RD8Pattern.cpp:155 | (no contract; a stored song needs more than 14 body bytes, a stored pattern more than 15, as at line 82; see Qualifies) |
| DataFiles.Qualifies | RD8Pattern.cpp:80-82 | (no contract; a dump of the variant long enough for the header fields it reads; see FirstDumpFrom) |
| DataFiles.FileTypeIsResponse | RD8Pattern.cpp:178 | every variant expects its own response ID except the live song, which expects the live pattern's |
| DataFiles.IsDataDump | RD8Pattern.cpp:14-23 | holds iff bytes 0 to 3 are 00 20 32 30, there are more than six bytes, byte 5 is 0x10 and byte 6 is the variant's file type |
| DataFiles.FirmwareIsNoDump | RD8.h:13-14 | a firmware message is never a data dump |
| DataFiles.DumpKindsDistinct | RD8Pattern.cpp:14-23 | a dump belongs to a single variant, except that live pattern and live song share one |
| DataFiles.KindOfRequest | RD8.cpp:136-163 | a variant exactly for the five request IDs, and it answers that ID |
| DataFiles.DataFileAnswersRequest | RD8.cpp:136-163 | except for the live song, isDataFile holds iff the message is an RD-8 data message with the request ID plus one |
| DataFiles.LiveSongAcceptsLivePatterns | RD8.cpp:151-154 | a live song request accepts what a live pattern request does, and never a 0x08 response |
| DataFiles.IsDataFile | RD8.cpp:136-163 | a message is accepted only for one of the five request IDs, and then it is an RD-8 data message carrying that variant's file type; an unknown ID accepts nothing |
| DataFiles.FirstDumpFrom | RD8Pattern.cpp:79-95 | the first message that is a dump of the variant and long enough for its header fields |
| DataFiles.FirstDumpIs | RD8Pattern.cpp:79-95 | the chosen message is the one at i when i qualifies and none before it does |
| DataFiles.FirstDumpIgnoresLater | RD8Pattern.cpp:79-95 | messages after the first qualifying one do not change the choice |
| DataFiles.LastDumpBefore | RD8Pattern.cpp:190-199 | the last dump of the variant among the first messages |
| DataFiles.SequencerFile.constructor | RD8Pattern.h:118-161 | a pattern or song file starts with no bytes and zero header fields |
| DataFiles.SequencerFile.DataFromSysex | RD8Pattern.cpp:76-201 | except for the live song, reports whether a qualifying dump exists and takes the bytes of the first one; a stored pattern also sets songNo from byte 14 and patternNo from byte 15, a stored song sets songNo from byte 14; without a dump nothing changes; the live song keeps the bytes of the last dump and reports false |
| DataFiles.SequencerFile.DataToSysex | RD8Pattern.cpp:98-207 | one sysex message whose body is exactly the file's bytes |
| DataFiles.SequencerFile.ReadWriteBack | RD8Pattern.cpp:76-207 | reading in what the file writes back, bytes taken as they arrive, keeps the bytes; a stored pattern takes songNo and patternNo from bytes 14 and 15, a stored song songNo from byte 14; every variant but the live song reports success |
| DataFiles.SettingsMessage | RD8Pattern.cpp:245-251 | the write-back message is a settings dump whose first 14 bytes are the settings-response header with the device ID and version, and whose payload from byte 14 on is the packed bytes |
| DataFiles.SettingsWriteBack | RD8Pattern.cpp:245-251 | the write-back message answers a settings request, is the first dump of a one-message list, and its payload unpacks to the bytes written |
| DataFiles.GlobalSettingsFile.constructor | RD8Pattern.cpp:210-212 | a settings file starts with no bytes and no entries |
| DataFiles.GlobalSettingsFile.DataFromSysex | RD8Pattern.cpp:219-243 | reports whether a settings dump exists; then the bytes are the unpacked body from byte 14 of the first one and the entries list the table; otherwise nothing changes |
| DataFiles.GlobalSettingsFile.RebuildSettings | RD8Pattern.cpp:230-238 | one entry per table row, in table order, holding a value exactly when the row's offset is inside the bytes |
| DataFiles.GlobalSettingsFile.DataToSysex | RD8Pattern.cpp:245-251 | the settings dump of the current bytes, which reads back to those bytes |
| DataFiles.GlobalSettingsFile.PeekSetting | RD8Pattern.cpp:271-280 | the result is Peek over the current bytes |
| DataFiles.GlobalSettingsFile.PeekScan | RD8Pattern.cpp:273-279 | the scan returns Peek over any table |
| DataFiles.GlobalSettingsFile.PokeSetting | RD8Pattern.cpp:258-269 | success iff Poke succeeds, and the new bytes are Poke's result, or unchanged on failure |
| DataFiles.GlobalSettingsFile.PokeScan | RD8Pattern.cpp:260-268 | the scan writes as Poke does over any table |
| DataFiles.CopyPayload | RD8Pattern.cpp:225-228 | the copied bytes are the body from byte 14 on |
| DeviceSession.Start | RD8.cpp:248-268 | afterwards a round trip is pending, at most one message has been sent, and device, version, channels and finished count are unchanged |
| DeviceSession.BusyStartIgnored | RD8.cpp:250-254 | while a round trip is pending, a new one changes nothing and sends nothing |
| DeviceSession.StartAsWritten | RD8.cpp:248-268 | globalSettingsOperation when the handle is never armed: every call registers the operation and sends one more settings request |
| DeviceSession.AsWrittenSecondStartSends | RD8.cpp:248-268 | two starts on an idle session send two settings requests as written, one with the busy guard, which keeps the first operation |
| DeviceSession.IdleStartRequests | RD8.cpp:248-268 | an idle session registers the operation and sends one settings request carrying its device ID and version |
| DeviceSession.ChannelCode | RD8.cpp:274-279 | omni writes 16, and a zero-based channel from 0 to 255 writes itself |
| DeviceSession.ChannelCodes | RD8.cpp:274-279 | omni is written as 16 and channels 1 to 16 as 0 to 15 |
| DeviceSession.ReadBack | RD8.cpp:227-244 | only the two channels change; RX code 16 is omni, 17 keeps the channel, any other RX code is that zero-based channel; TX 16 is omni and any other TX code is that zero-based channel |
| DeviceSession.ChangeBack | RD8.cpp:272-289 | a code above 16 changes nothing; otherwise the targeted channel becomes the target, the other channel stays, one message is sent and one onFinished counted; pending, device and version never change |
| DeviceSession.Apply | RD8.cpp:259-261 | running an operation keeps the pending state, device ID and version, and sends and finishes at most once |
| DeviceSession.Receive | RD8.cpp:256-265 | a message either changes nothing or ends the pending round trip with at most one message sent and one onFinished |
| DeviceSession.OtherMessagesIgnored | RD8.cpp:257 | a message that is not a settings dump is ignored |
| DeviceSession.DumpEndsRoundTrip | RD8.cpp:257-264 | a settings dump ends the round trip whether or not decoding succeeded |
| DeviceSession.DumpRunsOperation | RD8.cpp:256-263 | a settings dump arriving while a round trip is pending runs its operation: reading sets both channels from bytes 7 and 8 and sends nothing; a change to a code from 0 to 16 sets the target channel, sends settings that unpack to the received ones with that byte replaced, and counts one onFinished; a refused code or settings shorter than nine bytes only end the round trip |
| DeviceSession.AtMostOnce | RD8.cpp:248-268 | over any sequence of messages the operation runs at most once, and not at all when nothing is pending |
| DeviceSession.ChangeSendsSettings | RD8.cpp:281-288 | a successful change sends a settings dump that unpacks to the received bytes with the channel byte replaced by the code |
| DeviceSession.ChangeThenReadBack | RD8.cpp:225-290 | after changing the input channel to omni or 1 to 16, reading the sent settings back into any session gives that channel |
| DeviceSession.ChangeOutputThenReadBack | RD8.cpp:312-332 | after changing the output channel to omni or 1 to 16, reading the sent settings back into any session gives that output channel |
| DeviceSession.Handshake | RD8.cpp:22-37 | the answer is invalid iff the message is no device reply; channels and finished count stay, nothing sent is lost, and the session stays valid |
| DeviceSession.HandshakeIgnoresOthers | RD8.cpp:22-37 | anything but a device reply leaves the session unchanged and answers the invalid channel |
| DeviceSession.HandshakeRecords | RD8.cpp:22-37 | a reply sets device ID from byte 4 and version from bytes 11 to 13, answers channel byte 4, and, when idle, starts the channel read with the new values |
| DeviceSession.PeekChannels | RD8.cpp:227-238 | the two peeks yield bytes 7 and 8 of the settings |
| DeviceSession.WriteChannel | RD8.cpp:274-285 | success iff the code is at most 16; then byte 7 or 8 is replaced and the settings dump of the new bytes is produced; otherwise nothing changes |
| DeviceSession.BehringerRD8.constructor | RD8.h:95-101 | a new driver has no pending round trip and invalid channels |
| DeviceSession.BehringerRD8.GlobalSettingsOperation | RD8.cpp:248-268 | the new state is Start of the old one |
| DeviceSession.BehringerRD8.RequestMessage | RD8.cpp:65-70 | builds CreateRequestMessage for the recorded device ID and version |
| DeviceSession.BehringerRD8.RequestItem | RD8.cpp:92-120 | builds RequestDataItem for the recorded device ID and version |
| DeviceSession.BehringerRD8.GetMidiChannelsFromDevice | RD8.cpp:225-246 | starts a channel-reading round trip |
| DeviceSession.BehringerRD8.ChangeInputChannel | RD8.cpp:270-290 | starts an input-channel change |
| DeviceSession.BehringerRD8.ChangeOutputChannel | RD8.cpp:312-332 | starts an output-channel change |
| DeviceSession.BehringerRD8.ChannelIfValidDeviceResponse | RD8.cpp:22-37 | the new state and the answer are Handshake of the old state and the message |
| DeviceSession.BehringerRD8.HandleMessage | RD8.cpp:256-265 | the new state is Receive of the old state and the message |
| DeviceSession.BehringerRD8.RunOperation | RD8.cpp:259-261 | the new state is Apply of the operation to the decoded bytes |
| DeviceSession.BehringerRD8.ReadChannelsFrom | RD8.cpp:226-245 | RX 16 becomes omni, RX 17 keeps the channel, any other RX code is that zero-based channel; TX 16 is omni, any other TX code is that channel |
| DeviceSession.BehringerRD8.ChangeChannelIn | RD8.cpp:272-289 | the new state is ChangeBack: on success the new channel, the resent settings and one onFinished; on failure no change |
| DeviceSession.BehringerRD8.Commit | RD8.cpp:281-288 | keeps the new channel, appends the update message and counts one onFinished |

## Left out

- DeviceSession.Start: assumes that `MidiController::addMessageHandler`
  arms `roundtripHandle_` when it registers the handler, so a second start
  while a round trip is pending is ignored. That library code is not part of
  this model. Nothing in the driver's own files sets the handle to a non-nil
  value. If the library leaves it nil, the busy test never fires: every start
  sends another request and registers another handler, and neither the busy
  case nor the at-most-once property holds.
  `StartAsWritten` models that reading, and the first row of "## Findings"
  shows what it does.
- DeviceSession.BehringerRD8.GlobalSettingsOperation: rests on the same
  assumption about `addMessageHandler`.
- DeviceSession.BusyStartIgnored: holds only under that assumption.
- DeviceSession.AtMostOnce: holds only under that assumption.
- DataFiles.SequencerFile: one class stands for the four pattern and song
  variants, and every kind has both `songNo` and `patternNo`. In the driver
  only the stored pattern has both and the stored song has only `songNo`; the
  live variants have neither. Apart from the constructor's zero, the model
  never sets a field that the kind does not have, and nothing reads it.
- MIDI transport is not modelled: `MidiController`, enabling input, handler
  registration and removal, and sending. Sent messages are appended to `sent`.
  The registered handler is the pending operation, and an arriving message is
  a call of `HandleMessage`.
- `loadData` is not modelled. It writes files to disk and stores results for
  the host application. `activePattern` and `properties` only return what it
  stored.
- `DataFile::setDataFromSysex`, `data()`, `at` and `setAt` are not part of this
  model.
  - Pattern and song files take their bytes from a given function `fill`.
  - The settings file stores its unpacked bytes directly.
- `MidiHelpers`, `TypedNamedValue` and the host's `MidiChannel` are not part of
  this model.
  - Enum settings are assumed to accept their smallest through largest listed
    code.
  - On/off settings are assumed to accept 0 and 1.
  - The base-class input channel of a new driver is taken as invalid, like the
    output channel.
- SettingsRegistry.Peek: requires the named row's byte to lie inside the
  settings data. Reading past the end is library behaviour that is not part
  of this model.
- SettingsRegistry.Poke: requires the same of the row that accepts the value,
  for the same reason.
- DeviceSession.Apply: a settings reply that unpacks to fewer than nine bytes
  ends the round trip without touching the channels. The out-of-range
  `peekSetting`/`pokeSetting` the driver would then make is not modelled.
- DeviceSession.BehringerRD8.ChangeInputChannel: requires a valid target
  channel, because `toZeroBasedInt` of the invalid channel is library code that
  is not part of this model. A zero-based channel is truncated to a byte, as
  the `uint8` parameter of `pokeSetting` does.
- DeviceSession.BehringerRD8.ChangeOutputChannel: requires a valid target
  channel, for the same reason.
- `deviceID_` and `version_` are not initialised by the driver's constructor.
  The model starts them at 0. The same goes for `songNo` and `patternNo` of a
  new pattern or song file.
- PatternDecoder.GetPattern: checks the size before reading bytes 0 and 1. The
  driver reads them first through `at`, whose out-of-range behaviour is not
  part of this model. The result is the same for every input that has both
  bytes.
- The `jassert` debug checks are not modelled. Each function returns what the
  code returns after them: 0xFF for an unknown `peekSetting` name, and no
  change on RX code 17.
- The `name()` strings, `getName`, and the constant capability queries are not
  modelled. `setMidiControl` and `setLocalControl` are left out because they
  only throw.
- `PatternData::track` returns one track of the decoded pattern as it is. It is
  not modelled separately.
- The plugin factory files are not modelled: they hold no protocol logic.
- Song payloads are opaque bytes.
- `getMessageID` returns (0, 0) for a short message, and the model follows
  this code.

## Findings

| source | as written | input that shows it | evidently intended | confidence | as-written member | corrected member |
|---|---|---|---|---|---|---|
| RD8.cpp:248-268 | `roundtripHandle_` starts nil (RD8.h:101) and nothing in the driver's files sets it, so the busy test at line 250 cannot fire unless `addMessageHandler` writes the handle | the handshake reply arrives, then `changeInputChannel` is called before the settings dump of a running `getMidiChannelsFromDevice` has come back: a second settings request goes out and a second handler is registered | a start while a round trip is pending is ignored, as the comment at line 251 says | medium, not executed; depends on whether the library's `addMessageHandler` assigns the handle it is given | DeviceSession.AsWrittenSecondStartSends | DeviceSession.BusyStartIgnored |
