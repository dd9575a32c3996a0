/**
 * The global settings table of the RD-8 (RD8GlobalSettings'
 * kGlobalSettingsDefinition) and the lookups pokeSetting and peekSetting
 * make in it, stated over the unpacked settings bytes.
 *
 * Each row names one byte of the unpacked settings data and the values it
 * may hold: an explicit range, an on/off flag (taken as 0..1), or a list of
 * labelled codes (taken as smallest code..largest code).
 */
module SettingsRegistry {
  import opened Wrappers

  datatype Label = Label(code: int, text: string)

  datatype Kind =
    | Toggle
    | Range(lo: int, hi: int)
    | Choice(options: seq<Label>)

  datatype Setting = Setting(offset: nat, name: string, group: string, kind: Kind)

  /** The smallest value a setting accepts. */
  function MinValue(k: Kind): int
  {
    match k
    case Toggle => 0
    case Range(lo, _) => lo
    case Choice(options) => if options == [] then 0 else options[0].code
  }

  /** The largest value a setting accepts. */
  function MaxValue(k: Kind): int
  {
    match k
    case Toggle => 1
    case Range(_, hi) => hi
    case Choice(options) => if options == [] then 0 else options[|options| - 1].code
  }

  /** Song, Global or Pattern: where a parameter is taken from. */
  const PreferenceLookup: seq<Label> := [Label(0, "Song"), Label(1, "Global"), Label(2, "Pattern")]

  /** Channels 1 to 16 as codes 0 to 15, and code 16 for all channels. */
  const MidiChannelLookup: seq<Label> := [
    Label(0, "1"), Label(1, "2"), Label(2, "3"), Label(3, "4"), Label(4, "5"), Label(5, "6"),
    Label(6, "7"), Label(7, "8"), Label(8, "9"), Label(9, "10"), Label(10, "11"), Label(11, "12"),
    Label(12, "13"), Label(13, "14"), Label(14, "15"), Label(15, "16"), Label(16, "All (omni)")]

  /** The code the MIDI channel settings use for all channels. */
  const OmniCode: bv8 := 16

  const RxChannelName: string := "MIDI RX Channel"
  const TxChannelName: string := "MIDI TX Channel"

  /** The bytes of the MIDI receive and transmit channels in the unpacked settings. */
  const RxChannelOffset: nat := 7
  const TxChannelOffset: nat := 8

  /** kGlobalSettingsDefinition, row by row. */
  function Row(i: nat): Setting
  {
    if i == 0 then Setting(4, "Device ID", "General", Range(0, 15))
    else if i == 1 then Setting(5, "Clock Source", "General", Choice([Label(0, "Internal"), Label(1, "MIDI"), Label(2, "USB"), Label(3, "Trigger")]))
    else if i == 2 then Setting(6, "Analog Clock Mode", "General", Choice([Label(0, "1 PPQ"), Label(1, "2 PPQ"), Label(2, "4 PPQ"), Label(3, "24 PPQ"), Label(4, "48 PPQ")]))
    else if i == 3 then Setting(7, "MIDI RX Channel", "MIDI", Choice(MidiChannelLookup))
    else if i == 4 then Setting(8, "MIDI TX Channel", "MIDI", Choice(MidiChannelLookup))
    else if i == 5 then Setting(9, "MIDI to USB through", "MIDI", Toggle)
    else if i == 6 then Setting(10, "MIDI soft through", "MIDI", Toggle)
    else if i == 7 then Setting(11, "USB RX Channel", "MIDI", Choice(MidiChannelLookup))
    else if i == 8 then Setting(12, "USB TX Channel", "MIDI", Choice(MidiChannelLookup))
    else if i == 9 then Setting(13, "USB to MIDI through", "MIDI", Toggle)
    else if i == 10 then Setting(14, "Bass Drum MIDI Note", "Note mapping", Range(0, 128))
    else if i == 11 then Setting(15, "Snare Drum MIDI Note", "Note mapping", Range(0, 128))
    else if i == 12 then Setting(16, "Low Tom MIDI Note", "Note mapping", Range(0, 128))
    else if i == 13 then Setting(17, "Mid Tom MIDI Note", "Note mapping", Range(0, 128))
    else if i == 14 then Setting(18, "High Tom MIDI Note", "Note mapping", Range(0, 128))
    else if i == 15 then Setting(19, "Rim Shot MIDI Note", "Note mapping", Range(0, 128))
    else if i == 16 then Setting(20, "Hand Clap MIDI Note", "Note mapping", Range(0, 128))
    else if i == 17 then Setting(21, "Cow Bell MIDI Note", "Note mapping", Range(0, 128))
    else if i == 18 then Setting(22, "Cymbal MIDI Note", "Note mapping", Range(0, 128))
    else if i == 19 then Setting(23, "Open Hat MIDI Note", "Note mapping", Range(0, 128))
    else if i == 20 then Setting(24, "Closed Hat MIDI Note", "Note mapping", Range(0, 128))
    else if i == 21 then Setting(25, "Song Chain Mode", "Song mode", Toggle)
    else if i == 22 then Setting(26, "Tempo Preference", "Preferences", Choice(PreferenceLookup))
    else if i == 23 then Setting(27, "Swing Preference", "Preferences", Choice(PreferenceLookup))
    else if i == 24 then Setting(28, "Probability Preference", "Preferences", Choice(PreferenceLookup))
    else if i == 25 then Setting(29, "Flam Preference", "Preferences", Choice(PreferenceLookup))
    else if i == 26 then Setting(30, "Filter Mode Preference", "Preferences", Choice(PreferenceLookup))
    else if i == 27 then Setting(31, "Filter Enable Preference", "Preferences", Choice(PreferenceLookup))
    else if i == 28 then Setting(32, "Filter Automation Preference", "Preferences", Choice(PreferenceLookup))
    else if i == 29 then Setting(33, "Polymeter Preference", "Preferences", Choice(PreferenceLookup))
    else if i == 30 then Setting(34, "Step Size Preference", "Preferences", Choice(PreferenceLookup))
    else if i == 31 then Setting(35, "Auto Advance Preference", "Preferences", Choice([Label(0, "Song"), Label(1, "Global")]))
    else if i == 32 then Setting(36, "Auto Scroll Preference", "Preferences", Choice([Label(1, "Global"), Label(2, "Pattern")]))
    else if i == 33 then Setting(37, "FX Bus Preference", "Preferences", Choice(PreferenceLookup))
    else if i == 34 then Setting(38, "Mute Preference", "Preferences", Choice(PreferenceLookup))
    else if i == 35 then Setting(39, "Solo Preference", "Preferences", Choice(PreferenceLookup))
    else if i == 36 then Setting(40, "Global Tempo", "GlobalSettings", Range(20, 240))
    else if i == 37 then Setting(41, "Global Swing", "GlobalSettings", Range(50, 75))
    else if i == 38 then Setting(42, "Global Probability", "GlobalSettings", Range(0, 100))
    else if i == 39 then Setting(43, "Global Flam", "GlobalSettings", Range(0, 24))
    else if i == 40 then Setting(44, "Global Filter Mode", "GlobalSettings", Toggle)
    else if i == 41 then Setting(45, "Global Filter Enable", "GlobalSettings", Toggle)
    else if i == 42 then Setting(46, "Global Filter Automation", "GlobalSettings", Toggle)
    else if i == 43 then Setting(47, "Global Filter Steps", "GlobalSettings", Range(0, 255))
    else if i == 44 then Setting(47 + 64, "Global Polymeter", "GlobalSettings", Toggle)
    else if i == 45 then Setting(47 + 64 + 1, "Global Step Size", "GlobalSettings", Toggle)
    else if i == 46 then Setting(47 + 64 + 2, "Global Auto-Advance", "GlobalSettings", Toggle)
    else Setting(47 + 64 + 3, "Global Auto-Scroll", "GlobalSettings", Toggle)
  }

  const RowCount: nat := 48

  function Table(): seq<Setting>
  {
    seq(RowCount, i requires 0 <= i < RowCount => Row(i))
  }

  // ----- Lookups, over any table scanned row by row -----

  /** Whether row i is one pokeSetting writes for this name and value: the name matches and the value is in range. */
  predicate Accepts(table: seq<Setting>, i: nat, name: string, v: bv8)
    requires i < |table|
  {
    table[i].name == name && MinValue(table[i].kind) <= v as int <= MaxValue(table[i].kind)
  }

  /** The first row, from row `from` on, with this name. */
  function FindSettingFrom(table: seq<Setting>, name: string, from: nat): (r: Option<nat>)
    ensures r.Some? ==> from <= r.value < |table| && table[r.value].name == name
    ensures forall j :: from <= j < |table| && (r.None? || j < r.value) ==> table[j].name != name
    decreases |table| - from
  {
    if from >= |table| then None
    else if table[from].name == name then Some(from)
    else FindSettingFrom(table, name, from + 1)
  }

  /** The row peekSetting reads: the first with this name. */
  function FindSetting(table: seq<Setting>, name: string): Option<nat>
  {
    FindSettingFrom(table, name, 0)
  }

  /** The first row, from row `from` on, that accepts this name and value. */
  function PokeIndexFrom(table: seq<Setting>, name: string, v: bv8, from: nat): (r: Option<nat>)
    ensures r.Some? ==> from <= r.value < |table| && Accepts(table, r.value, name, v)
    ensures forall j :: from <= j < |table| && (r.None? || j < r.value) ==> !Accepts(table, j, name, v)
    decreases |table| - from
  {
    if from >= |table| then None
    else if Accepts(table, from, name, v) then Some(from)
    else PokeIndexFrom(table, name, v, from + 1)
  }

  /** The row pokeSetting writes: the first that has this name and a range holding the value. */
  function PokeIndex(table: seq<Setting>, name: string, v: bv8): Option<nat>
  {
    PokeIndexFrom(table, name, v, 0)
  }

  /** A read finds row k when row k has the name and no earlier row has it. */
  lemma FindSettingIs(table: seq<Setting>, name: string, k: nat)
    requires k < |table| && table[k].name == name
    requires forall j :: 0 <= j < k ==> table[j].name != name
    ensures FindSetting(table, name) == Some(k)
  {
  }

  /** A write goes to row k when row k accepts the value and no earlier row does. */
  lemma PokeIndexIs(table: seq<Setting>, name: string, v: bv8, k: nat)
    requires k < |table| && Accepts(table, k, name, v)
    requires forall j :: 0 <= j < k ==> !Accepts(table, j, name, v)
    ensures PokeIndex(table, name, v) == Some(k)
  {
  }

  /** The settings bytes hold the byte that a read of this name touches. */
  predicate PeekInRange(table: seq<Setting>, data: seq<bv8>, name: string)
  {
    FindSetting(table, name).Some? ==> table[FindSetting(table, name).value].offset < |data|
  }

  /** The settings bytes hold the byte that a write of this name and value touches. */
  predicate PokeInRange(table: seq<Setting>, data: seq<bv8>, name: string, v: bv8)
  {
    PokeIndex(table, name, v).Some? ==> table[PokeIndex(table, name, v).value].offset < |data|
  }

  /** peekSetting over the settings bytes: the byte of the first row with that name, 0xFF for an unknown name. */
  function Peek(table: seq<Setting>, data: seq<bv8>, name: string): (r: bv8)
    requires PeekInRange(table, data, name)
    ensures (forall i :: 0 <= i < |table| ==> table[i].name != name) ==> r == 0xFF
    ensures forall i :: 0 <= i < |table| && table[i].name == name && (forall j :: 0 <= j < i ==> table[j].name != name) ==>
      table[i].offset < |data| && r == data[table[i].offset]
  {
    match FindSetting(table, name)
    case None => 0xFF
    case Some(i) => data[table[i].offset]
  }

  /**
   * pokeSetting over the settings bytes: the bytes with the value written at
   * the first row that accepts it, or None (and nothing written) when no row does.
   */
  function Poke(table: seq<Setting>, data: seq<bv8>, name: string, v: bv8): (r: Option<seq<bv8>>)
    requires PokeInRange(table, data, name, v)
    ensures r.None? <==> forall i :: 0 <= i < |table| ==> !Accepts(table, i, name, v)
    ensures forall i :: 0 <= i < |table| && Accepts(table, i, name, v) && (forall j :: 0 <= j < i ==> !Accepts(table, j, name, v)) ==>
      table[i].offset < |data| && r == Some(data[table[i].offset := v])
  {
    match PokeIndex(table, name, v)
    case None => None
    case Some(i) => Some(data[table[i].offset := v])
  }

  /** A successful write followed by a read of the same name gives the written value back. */
  lemma PeekAfterPoke(table: seq<Setting>, data: seq<bv8>, name: string, v: bv8)
    requires PokeInRange(table, data, name, v) && Poke(table, data, name, v).Some?
    requires FindSetting(table, name) == PokeIndex(table, name, v)
    ensures PeekInRange(table, Poke(table, data, name, v).value, name)
    ensures Peek(table, Poke(table, data, name, v).value, name) == v
  {
  }

  // ----- Facts about the RD-8 table -----

  /** The MIDI receive and transmit channels sit at offsets 7 and 8, and are the first rows with their names. */
  lemma ChannelRows()
    ensures FindSetting(Table(), RxChannelName) == Some(3) && Table()[3].offset == 7
    ensures FindSetting(Table(), TxChannelName) == Some(4) && Table()[4].offset == 8
  {
    assert Table()[0].name != RxChannelName && Table()[1].name != RxChannelName && Table()[2].name != RxChannelName;
    assert Table()[3].name == RxChannelName;
    FindSettingIs(Table(), RxChannelName, 3);
    assert Table()[0].name != TxChannelName && Table()[1].name != TxChannelName && Table()[2].name != TxChannelName;
    assert Table()[3].name != TxChannelName && Table()[4].name == TxChannelName;
    FindSettingIs(Table(), TxChannelName, 4);
  }

  /** Only row 3 is named for the MIDI receive channel and only row 4 for the transmit channel. */
  lemma ChannelNamesUnique(i: nat)
    requires i < |Table()|
    ensures Table()[i].name == RxChannelName ==> i == 3
    ensures Table()[i].name == TxChannelName ==> i == 4
  {
  }

  /** A channel write succeeds, at row 3 or 4, exactly for the codes 0 to 16. */
  lemma ChannelPoke(v: bv8)
    ensures PokeIndex(Table(), RxChannelName, v) == if v <= OmniCode then Some(3) else None
    ensures PokeIndex(Table(), TxChannelName, v) == if v <= OmniCode then Some(4) else None
  {
    ChannelRows();
    assert MaxValue(Table()[3].kind) == 16 && MaxValue(Table()[4].kind) == 16;
    if v <= OmniCode {
      PokeIndexIs(Table(), RxChannelName, v, 3);
      PokeIndexIs(Table(), TxChannelName, v, 4);
    } else {
      forall j | 0 <= j < |Table()|
        ensures !Accepts(Table(), j, RxChannelName, v) && !Accepts(Table(), j, TxChannelName, v)
      {
        ChannelNamesUnique(j);
      }
    }
  }

  /** A read of a MIDI channel setting is the byte at offset 7 (receive) or 8 (transmit). */
  lemma ChannelPeek(data: seq<bv8>)
    requires |data| > TxChannelOffset
    ensures PeekInRange(Table(), data, RxChannelName) && Peek(Table(), data, RxChannelName) == data[RxChannelOffset]
    ensures PeekInRange(Table(), data, TxChannelName) && Peek(Table(), data, TxChannelName) == data[TxChannelOffset]
  {
    ChannelRows();
  }

  /** A write of a MIDI channel setting puts codes 0 to 16 at offset 7 or 8 and refuses every other code. */
  lemma ChannelPokeBytes(data: seq<bv8>, v: bv8)
    requires |data| > TxChannelOffset
    ensures PokeInRange(Table(), data, RxChannelName, v)
    ensures Poke(Table(), data, RxChannelName, v) == if v <= OmniCode then Some(data[RxChannelOffset := v]) else None
    ensures PokeInRange(Table(), data, TxChannelName, v)
    ensures Poke(Table(), data, TxChannelName, v) == if v <= OmniCode then Some(data[TxChannelOffset := v]) else None
  {
    ChannelRows();
    ChannelPoke(v);
  }

  /** The device ID is row 0, at offset 4, and a write to it succeeds exactly for 0 to 15. */
  lemma DeviceIDRange(v: bv8)
    ensures Table()[0].offset == 4
    ensures PokeIndex(Table(), "Device ID", v) == if v <= 15 then Some(0) else None
  {
    if v <= 15 {
      PokeIndexIs(Table(), "Device ID", v, 0);
    } else {
      forall j | 0 <= j < |Table()|
        ensures !Accepts(Table(), j, "Device ID", v)
      {
        DeviceIDOnlyAtZero(j);
      }
    }
  }

  /** Only row 0 is named for the device ID. */
  lemma DeviceIDOnlyAtZero(i: nat)
    requires i < |Table()|
    ensures Table()[i].name == "Device ID" ==> i == 0
  {
  }

  /** The commented-out rows are not in the table: a read of "Last Loaded Song" yields 0xFF. */
  lemma LastLoadedSongUnknown(data: seq<bv8>)
    ensures PeekInRange(Table(), data, "Last Loaded Song")
    ensures Peek(Table(), data, "Last Loaded Song") == 0xFF
  {
    forall j | 0 <= j < |Table()|
      ensures Table()[j].name != "Last Loaded Song"
    {
      NotLastLoadedSong(j);
    }
  }

  lemma NotLastLoadedSong(i: nat)
    requires i < |Table()|
    ensures Table()[i].name != "Last Loaded Song"
  {
  }

  /** Every row's byte lies between offset 4 and offset 114. */
  lemma OffsetsInRange(i: nat)
    requires i < |Table()|
    ensures 4 <= Table()[i].offset <= 47 + 64 + 3
  {
  }

  /** Rows 0 to 43 cover offsets 4 to 47 one by one, and rows 44 to 47 the offsets from 111 on. */
  lemma OffsetOfRow(i: nat)
    requires i < |Table()|
    ensures Table()[i].offset == if i < 44 then i + 4 else i + 67
  {
  }

  /** No two rows share a byte, so a write through one row never changes what another row reads. */
  lemma OffsetsDistinct(i: nat, j: nat)
    requires i < j < |Table()|
    ensures Table()[i].offset < Table()[j].offset
  {
    OffsetOfRow(i);
    OffsetOfRow(j);
  }

  /**
   * The row a name belongs to, told apart by its length and a few of its
   * letters; RowCount for a length no row has.  Only a proof device: that
   * it recovers every row's index shows that no two rows share a name.
   */
  ghost function RowOfName(name: string): nat
  {
    if |name| == 9 then 0
    else if |name| == 11 then 39
    else if |name| == 12 then (if name[7] == 'o' then 1
      else if name[7] == 'T' then 36
      else 37)
    else if |name| == 14 then (if name[4] == 'R' then 7
      else 8)
    else if |name| == 15 then (if name[2] == 'D' then (if name[5] == 'R' then 3
        else 4)
      else if name[2] == 'n' then 21
      else if name[2] == 'a' then 25
      else if name[2] == 't' then 34
      else 35)
    else if |name| == 16 then (if name[0] == 'C' then 18
      else if name[0] == 'T' then 22
      else if name[0] == 'S' then 23
      else (if name[7] == 'P' then 44
        else 45))
    else if |name| == 17 then (if name[1] == 'n' then 2
      else if name[1] == 'I' then 6
      else if name[1] == 'o' then 12
      else if name[1] == 'i' then 13
      else 33)
    else if |name| == 18 then (if name[7] == 'm' then 14
      else if name[7] == 't' then (if name[0] == 'R' then 15
        else 19)
      else if name[7] == 'l' then 17
      else if name[7] == 'P' then 38
      else if name[7] == 'F' then 40
      else 47)
    else if |name| == 19 then (if name[7] == ' ' then 5
      else if name[7] == 'M' then 9
      else if name[7] == 'u' then 10
      else if name[7] == 'a' then 16
      else if name[7] == 'F' then 43
      else 46)
    else if |name| == 20 then (if name[3] == 'r' then 11
      else if name[3] == 's' then 20
      else if name[3] == 'y' then 29
      else if name[3] == 'p' then 30
      else 41)
    else if |name| == 22 then (if name[0] == 'P' then 24
      else if name[0] == 'F' then 26
      else 32)
    else if |name| == 23 then 31
    else if |name| == 24 then (if name[0] == 'F' then 27
      else 42)
    else if |name| == 28 then 28
    else RowCount
  }

  /** Every row's name leads back to that row. */
  lemma RowOfNameOfRow(i: nat)
    requires i < RowCount
    ensures RowOfName(Row(i).name) == i
  {
    if i < 8 { RowOfNameRows0To7(i); }
    else if i < 16 { RowOfNameRows8To15(i); }
    else if i < 24 { RowOfNameRows16To23(i); }
    else if i < 32 { RowOfNameRows24To31(i); }
    else if i < 40 { RowOfNameRows32To39(i); }
    else if i < 48 { RowOfNameRows40To47(i); }
  }

  lemma RowOfNameRows0To7(i: nat)
    requires 0 <= i <= 7
    ensures RowOfName(Row(i).name) == i
  {
  }

  lemma RowOfNameRows8To15(i: nat)
    requires 8 <= i <= 15
    ensures RowOfName(Row(i).name) == i
  {
  }

  lemma RowOfNameRows16To23(i: nat)
    requires 16 <= i <= 23
    ensures RowOfName(Row(i).name) == i
  {
  }

  lemma RowOfNameRows24To31(i: nat)
    requires 24 <= i <= 31
    ensures RowOfName(Row(i).name) == i
  {
  }

  lemma RowOfNameRows32To39(i: nat)
    requires 32 <= i <= 39
    ensures RowOfName(Row(i).name) == i
  {
  }

  lemma RowOfNameRows40To47(i: nat)
    requires 40 <= i <= 47
    ensures RowOfName(Row(i).name) == i
  {
  }

  /** No two rows of the table share a name. */
  lemma NamesDistinct(i: nat, j: nat)
    requires i < |Table()| && j < |Table()| && Table()[i].name == Table()[j].name
    ensures i == j
  {
    RowOfNameOfRow(i);
    RowOfNameOfRow(j);
  }

  /** On the RD-8 table a read finds the row a write goes to, so a successful write reads back. */
  lemma TablePeekAfterPoke(data: seq<bv8>, name: string, v: bv8)
    requires PokeInRange(Table(), data, name, v) && Poke(Table(), data, name, v).Some?
    ensures PeekInRange(Table(), Poke(Table(), data, name, v).value, name)
    ensures Peek(Table(), Poke(Table(), data, name, v).value, name) == v
  {
    var k := PokeIndex(Table(), name, v).value;
    var f := FindSetting(Table(), name).value;
    NamesDistinct(f, k);
    PeekAfterPoke(Table(), data, name, v);
  }
}
