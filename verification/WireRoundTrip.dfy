/** Printing canonical slots and reading them back. */
module WireRoundTrip {
  import opened Common
  import opened Text
  import opened Alerts
  import opened Wire

  // ---------------------------------------------------------------- canonical alerts

  /** A field that `_safe_word` passes unchanged, or a missing one. */
  predicate Safe(value: Option<string>, limit: nat) {
    SafeWord(value, limit) == value
  }

  /** An alert each of whose fields is what its own wire text decodes to. */
  predicate Canonical(a: Alert, slot: nat, decimals: Decimals) {
    && a.bandRecognised == IsBand(a.band)
    && (a.bandRecognised || Safe(Some(a.band), 16)) && Upper(a.band) == a.band
    && a.strength.Some? && 1 <= a.strength.value <= 8
    && Safe(a.field5Raw, 12)
    && a.frequency == (if a.bandRecognised && HasFrequency(a.band) then ReadFloat(a.field5Raw, decimals) else None)
    && a.laserGunId == (if a.bandRecognised && a.band == "LASER" then ReadInt(a.field5Raw) else None)
    && Safe(a.directionRaw, 4) && Upper(Or(a.directionRaw)) == Or(a.directionRaw)
    && a.direction == (if IsDirection(Or(a.directionRaw)) then Some(Or(a.directionRaw)[0]) else None)
    && Safe(a.muteCode, 4) && Safe(a.alertIdRaw, 8) && Safe(a.receiveModeRaw, 8)
    && a.slot == slot && a.fieldCount == (if a.receiveModeRaw.Some? then 9 else 8)
  }

  function OrInt(value: Option<int>): string {
    match value
    case None => ""
    case Some(n) => IntText(n)
  }

  function Fields(a: Alert): (r: seq<string>)
    ensures |r| == if a.receiveModeRaw.Some? then 9 else 8
  {
    ["1", Or(a.alertIdRaw), a.band, OrInt(a.strength), OrInt(a.signal), Or(a.field5Raw), Or(a.directionRaw),
      Or(a.muteCode)]
    + (if a.receiveModeRaw.Some? then [a.receiveModeRaw.value] else [])
  }

  function Print(a: Alert): string {
    Join(Fields(a), ',')
  }

  function PrintSlot(s: Slot): string {
    if s.Active? then Print(s.alert) else "0"
  }

  function PrintAll(slots: seq<Slot>): (r: seq<string>)
    ensures |r| == |slots|
  {
    if |slots| == 0 then [] else PrintAll(slots[..|slots| - 1]) + [PrintSlot(slots[|slots| - 1])]
  }

  predicate CanonicalSlot(s: Slot, index: nat, decimals: Decimals) {
    match s
    case Empty(k) => k == index
    case Active(k, a) => k == index && Canonical(a, index, decimals)
    case Unreadable(_) => false
  }

  ghost predicate CanonicalSlots(slots: seq<Slot>, decimals: Decimals) {
    forall k: nat {:trigger CanonicalSlot(slots[k], k, decimals)} :: k < |slots| ==>
      CanonicalSlot(slots[k], k, decimals)
  }

  // ---------------------------------------------------------------- clean fields

  predicate IsPlain(c: char) {
    !IsSpace(c) && !IsNul(c)
  }

  /** A field that survives splitting and stripping. */
  ghost predicate Clean(s: string) {
    && Free(s, ',') && Free(s, '&')
    && (|s| > 0 ==> IsPlain(s[0]) && IsPlain(s[|s| - 1]))
  }

  lemma {:induction false} CleanStrips(s: string)
    requires Clean(s)
    ensures Strip(s) == s
  {
    TrimmedStays(s, IsSpace);
  }

  lemma {:induction false} SafeIsClean(value: Option<string>, limit: nat)
    requires Safe(value, limit)
    ensures Clean(Or(value)) && (value.Some? ==> |value.value| > 0)
  {
    if value.Some? {
      var s := value.value;
      StripTrims(s);
      assert IsWord(s);
    }
  }

  lemma {:induction false} BandIsClean(band: string)
    requires IsBand(band)
    ensures Clean(band) && |band| > 0
  {
    assert band == "X" || band == "K" || band == "KA" || band == "LASER" || band == "MRCD" || band == "MRCT"
        || band == "RT3" || band == "RT4" || band == "K POP" || band == "KA POP";
  }

  lemma {:induction false} IntIsClean(value: Option<int>)
    ensures Clean(OrInt(value)) && (value.Some? ==> |OrInt(value)| > 0)
  {
    if value.Some? {
      IntRoundTrip(value.value);
    }
  }

  lemma {:induction false} CanonicalBandIsClean(a: Alert, slot: nat, decimals: Decimals)
    requires Canonical(a, slot, decimals)
    ensures Clean(a.band) && |a.band| > 0
  {
    if a.bandRecognised {
      BandIsClean(a.band);
    } else {
      SafeIsClean(Some(a.band), 16);
    }
  }

  lemma {:induction false} FieldsAreClean(a: Alert, slot: nat, decimals: Decimals, k: nat)
    requires Canonical(a, slot, decimals) && k < |Fields(a)|
    ensures Clean(Fields(a)[k])
  {
    CanonicalBandIsClean(a, slot, decimals);
    SafeIsClean(a.alertIdRaw, 8);
    SafeIsClean(a.field5Raw, 12);
    SafeIsClean(a.directionRaw, 4);
    SafeIsClean(a.muteCode, 4);
    SafeIsClean(a.receiveModeRaw, 8);
    IntIsClean(a.strength);
    IntIsClean(a.signal);
  }

  lemma {:induction false} SplitsBack(a: Alert, slot: nat, decimals: Decimals)
    requires Canonical(a, slot, decimals)
    ensures Split(Print(a), ',') == Fields(a)
  {
    forall k | 0 <= k < |Fields(a)| ensures Free(Fields(a)[k], ',') {
      FieldsAreClean(a, slot, decimals, k);
    }
    SplitUndoesJoin(Fields(a), ',');
  }

  /** A clean field reads back as itself. */
  lemma {:induction false} AtReads(parts: seq<string>, k: nat)
    requires k < |parts| && Clean(parts[k])
    ensures At(parts, k) == if |parts[k]| == 0 then None else Some(parts[k])
  {
    CleanStrips(parts[k]);
  }

  lemma {:induction false} OptionReads(a: Alert, slot: nat, decimals: Decimals, k: nat, value: Option<string>,
                                       limit: nat)
    requires Canonical(a, slot, decimals) && k < |Fields(a)| && Fields(a)[k] == Or(value) && Safe(value, limit)
    ensures At(Fields(a), k) == value
  {
    FieldsAreClean(a, slot, decimals, k);
    AtReads(Fields(a), k);
    SafeIsClean(value, limit);
  }

  lemma {:induction false} IntReads(a: Alert, slot: nat, decimals: Decimals, k: nat, value: Option<int>)
    requires Canonical(a, slot, decimals) && k < |Fields(a)| && Fields(a)[k] == OrInt(value)
    ensures ReadInt(At(Fields(a), k)) == value
  {
    FieldsAreClean(a, slot, decimals, k);
    AtReads(Fields(a), k);
    if value.Some? {
      IntRoundTrip(value.value);
    }
  }

  lemma {:induction false} BandReads(a: Alert, slot: nat, decimals: Decimals)
    requires Canonical(a, slot, decimals)
    ensures Upper(Strip(Or(At(Fields(a), 2)))) == a.band
  {
    CanonicalBandIsClean(a, slot, decimals);
    assert Fields(a)[2] == a.band;
    AtReads(Fields(a), 2);
    CleanStrips(a.band);
  }

  lemma {:induction false} DirectionReads(a: Alert, slot: nat, decimals: Decimals)
    requires Canonical(a, slot, decimals)
    ensures Upper(Strip(Or(At(Fields(a), 6)))) == Or(a.directionRaw)
    ensures SafeWord(Some(Or(a.directionRaw)), 4) == a.directionRaw
  {
    FieldsAreClean(a, slot, decimals, 6);
    AtReads(Fields(a), 6);
    CleanStrips(Or(a.directionRaw));
  }

  lemma {:induction false} MarkerReads(a: Alert, slot: nat, decimals: Decimals)
    requires Canonical(a, slot, decimals)
    ensures At(Fields(a), 0) == Some("1")
  {
    FieldsAreClean(a, slot, decimals, 0);
    AtReads(Fields(a), 0);
  }

  lemma {:induction false} ModeReads(a: Alert, slot: nat, decimals: Decimals)
    requires Canonical(a, slot, decimals)
    ensures At(Fields(a), 8) == a.receiveModeRaw
  {
    if a.receiveModeRaw.Some? {
      OptionReads(a, slot, decimals, 8, a.receiveModeRaw, 8);
    }
  }

  lemma {:induction false} DetectionReads(a: Alert, slot: nat, decimals: Decimals)
    requires Canonical(a, slot, decimals) && SafeWord(Some(Or(a.directionRaw)), 4) == a.directionRaw
    ensures Detection(a.alertIdRaw, a.band, a.strength, a.signal, a.field5Raw, Or(a.directionRaw), a.muteCode,
                      a.receiveModeRaw, slot, a.fieldCount, decimals) == Some(a)
  {
  }

  lemma {:induction false} WordsRead(a: Alert, slot: nat, decimals: Decimals)
    requires Canonical(a, slot, decimals)
    ensures At(Fields(a), 1) == a.alertIdRaw && At(Fields(a), 5) == a.field5Raw && At(Fields(a), 7) == a.muteCode
  {
    var f := Fields(a);
    assert f[1] == Or(a.alertIdRaw) && f[5] == Or(a.field5Raw) && f[7] == Or(a.muteCode);
    OptionReads(a, slot, decimals, 1, a.alertIdRaw, 8);
    OptionReads(a, slot, decimals, 5, a.field5Raw, 12);
    OptionReads(a, slot, decimals, 7, a.muteCode, 4);
  }

  lemma {:induction false} NumbersRead(a: Alert, slot: nat, decimals: Decimals)
    requires Canonical(a, slot, decimals)
    ensures ReadInt(At(Fields(a), 3)) == a.strength && ReadInt(At(Fields(a), 4)) == a.signal
  {
    var f := Fields(a);
    assert f[3] == OrInt(a.strength) && f[4] == OrInt(a.signal);
    IntReads(a, slot, decimals, 3, a.strength);
    IntReads(a, slot, decimals, 4, a.signal);
  }

  lemma {:induction false} FieldsMakeAlert(segment: string, f: seq<string>, a: Alert, slot: nat, decimals: Decimals,
                                           band: string, direction: string)
    requires Split(segment, ',') == f && 8 <= |f| == a.fieldCount && At(f, 0) == Some("1")
    requires At(f, 1) == a.alertIdRaw && At(f, 5) == a.field5Raw && At(f, 7) == a.muteCode
             && At(f, 8) == a.receiveModeRaw
    requires ReadInt(At(f, 3)) == a.strength && ReadInt(At(f, 4)) == a.signal
    requires Upper(Strip(Or(At(f, 2)))) == band && Upper(Strip(Or(At(f, 6)))) == direction
    requires Detection(a.alertIdRaw, band, a.strength, a.signal, a.field5Raw, direction, a.muteCode, a.receiveModeRaw,
                       slot, a.fieldCount, decimals) == Some(a)
    ensures ParseSlot(segment, slot, decimals) == Some(a)
  {
  }

  /** A printed canonical alert parses back to itself. */
  lemma {:induction false} SlotRoundTrip(a: Alert, slot: nat, decimals: Decimals)
    requires Canonical(a, slot, decimals)
    ensures ParseSlot(Print(a), slot, decimals) == Some(a)
  {
    SplitsBack(a, slot, decimals);
    MarkerReads(a, slot, decimals);
    WordsRead(a, slot, decimals);
    NumbersRead(a, slot, decimals);
    BandReads(a, slot, decimals);
    DirectionReads(a, slot, decimals);
    ModeReads(a, slot, decimals);
    DetectionReads(a, slot, decimals);
    FieldsMakeAlert(Print(a), Fields(a), a, slot, decimals, a.band, Or(a.directionRaw));
  }

  // ---------------------------------------------------------------- whole payloads

  lemma {:induction false} JoinFirst(parts: seq<string>, sep: char)
    requires |parts| >= 1 && |parts[0]| > 0
    ensures |Join(parts, sep)| > 0 && Join(parts, sep)[0] == parts[0][0]
  {
    if |parts| <= 1 {
    } else {
      JoinFirst(parts[..|parts| - 1], sep);
    }
  }

  lemma {:induction false} JoinLast(parts: seq<string>, sep: char)
    requires |parts| >= 1 && (|parts| == 1 ==> |parts[0]| > 0)
    ensures var joined, last := Join(parts, sep), parts[|parts| - 1];
            |joined| > 0 && joined[|joined| - 1] == if |last| > 0 then last[|last| - 1] else sep
  {
  }

  lemma {:induction false} JoinFree(parts: seq<string>, sep: char, c: char)
    requires |parts| >= 1 && AllFree(parts, c) && sep != c
    ensures Free(Join(parts, sep), c)
  {
    if |parts| <= 1 {
    } else {
      JoinFree(parts[..|parts| - 1], sep, c);
    }
  }

  /** A segment that survives being joined, split and stripped. */
  ghost predicate Segment(s: string) {
    |s| > 0 && IsPlain(s[0]) && IsPlain(s[|s| - 1]) && Free(s, '&')
  }

  lemma {:induction false} PrintIsFree(a: Alert, slot: nat, decimals: Decimals)
    requires Canonical(a, slot, decimals)
    ensures Free(Print(a), '&')
  {
    var f := Fields(a);
    forall k | 0 <= k < |f| ensures Free(f[k], '&') {
      FieldsAreClean(a, slot, decimals, k);
    }
    JoinFree(f, ',', '&');
  }

  lemma {:induction false} PrintIsASegment(a: Alert, slot: nat, decimals: Decimals)
    requires Canonical(a, slot, decimals)
    ensures Segment(Print(a)) && Print(a)[0] == '1'
  {
    var f := Fields(a);
    PrintIsFree(a, slot, decimals);
    JoinFirst(f, ',');
    JoinLast(f, ',');
    FieldsAreClean(a, slot, decimals, |f| - 1);
  }

  lemma {:induction false} SegmentStrips(s: string)
    requires Segment(s)
    ensures Strip(s) == s && StripBy(s, IsNul) == s && TextOf(s) == s
  {
    TrimmedStays(s, IsSpace);
    TrimmedStays(s, IsNul);
  }

  lemma {:induction false} PrintedSlot(s: Slot, index: nat, decimals: Decimals)
    requires CanonicalSlot(s, index, decimals)
    ensures Segment(PrintSlot(s)) && ReadSlot(PrintSlot(s), index, decimals) == s
  {
    if s.Active? {
      PrintIsASegment(s.alert, index, decimals);
      SegmentStrips(Print(s.alert));
      SlotRoundTrip(s.alert, index, decimals);
      assert Print(s.alert) != "0";
    } else {
      assert Free("0", '&');
      SegmentStrips("0");
    }
  }

  lemma {:induction false} PrintAllAt(slots: seq<Slot>, k: nat)
    requires k < |slots|
    ensures PrintAll(slots)[k] == PrintSlot(slots[k])
  {
    if k == |slots| - 1 {
    } else {
      PrintAllAt(slots[..|slots| - 1], k);
    }
  }

  /** Every printed segment survives. */
  lemma {:induction false} PrintedSegment(slots: seq<Slot>, decimals: Decimals, k: nat)
    requires CanonicalSlots(slots, decimals) && k < |slots|
    ensures Segment(PrintAll(slots)[k]) && ReadSlot(PrintAll(slots)[k], k, decimals) == slots[k]
  {
    PrintAllAt(slots, k);
    assert CanonicalSlot(slots[k], k, decimals);
    PrintedSlot(slots[k], k, decimals);
  }

  /** The whole notification. */
  function PrintPayload(slots: seq<Slot>): string
    requires |slots| >= 1
  {
    Join(PrintAll(slots), '&')
  }

  lemma {:induction false} PayloadStrips(slots: seq<Slot>, decimals: Decimals)
    requires |slots| >= 1 && CanonicalSlots(slots, decimals)
    ensures |PrintPayload(slots)| > 0 && TextOf(PrintPayload(slots)) == PrintPayload(slots)
  {
    var parts := PrintAll(slots);
    PrintedSegment(slots, decimals, 0);
    PrintedSegment(slots, decimals, |slots| - 1);
    JoinFirst(parts, '&');
    JoinLast(parts, '&');
    TrimmedStays(PrintPayload(slots), IsNul);
    TrimmedStays(PrintPayload(slots), IsSpace);
  }

  lemma {:induction false} SlotsRead(slots: seq<Slot>, decimals: Decimals)
    requires CanonicalSlots(slots, decimals)
    ensures Slots(PrintAll(slots), decimals) == slots
  {
    forall k: nat | k < |slots| ensures Slots(PrintAll(slots), decimals)[k] == slots[k] {
      SlotAt(PrintAll(slots), decimals, k);
      PrintedSegment(slots, decimals, k);
    }
  }

  lemma {:induction false} NothingUnreadable(slots: seq<Slot>, decimals: Decimals, s: Slot)
    requires CanonicalSlots(slots, decimals) && s in slots
    ensures !s.Unreadable?
  {
    var k: nat :| k < |slots| && slots[k] == s;
    assert CanonicalSlot(slots[k], k, decimals);
  }

  /** Printing any non-empty list of canonical slots and parsing the text gives the same slots back, recognised. */
  lemma {:induction false} PayloadRoundTrip(slots: seq<Slot>, decimals: Decimals)
    requires |slots| >= 1 && CanonicalSlots(slots, decimals)
    ensures SlotsOf(PrintPayload(slots), decimals) == slots
    ensures !Uncertain(PrintPayload(slots), decimals)
  {
    var parts := PrintAll(slots);
    forall k | 0 <= k < |parts| ensures Free(parts[k], '&') {
      PrintedSegment(slots, decimals, k);
    }
    SplitUndoesJoin(parts, '&');
    PayloadStrips(slots, decimals);
    SlotsRead(slots, decimals);
    forall s | s in slots ensures !s.Unreadable? {
      NothingUnreadable(slots, decimals, s);
    }
  }

  // ---------------------------------------------------------------- what may be echoed

  /** A short run of letters, digits, spaces, dots and hyphens, or nothing. */
  ghost predicate Echoable(value: Option<string>, limit: nat) {
    value.Some? ==> 0 < |value.value| <= limit && IsWord(value.value) && Trimmed(value.value)
  }

  lemma {:induction false} SafeWordsAreEchoable(value: Option<string>, limit: nat)
    ensures Echoable(SafeWord(value, limit), limit) && Safe(SafeWord(value, limit), limit)
  {
    if value.Some? {
      StripTrims(value.value);
      TrimmedStays(Strip(value.value), IsSpace);
    }
  }

  /** Every text field of a detection is bounded and echoable, and its band is a documented one or echoable. */
  ghost predicate SafeToPublish(a: Alert) {
    && Echoable(a.alertIdRaw, 8) && Echoable(a.field5Raw, 12) && Echoable(a.directionRaw, 4)
    && Echoable(a.muteCode, 4) && Echoable(a.receiveModeRaw, 8)
    && (if a.bandRecognised then IsBand(a.band)
        else Echoable(Some(a.band), 16) && a.frequency.None? && a.laserGunId.None?)
    && a.strength.Some? && 1 <= a.strength.value <= 8
    && (a.direction.Some? ==> a.direction.value == 'F' || a.direction.value == 'S' || a.direction.value == 'R')
    && (a.frequency.Some? ==> HasFrequency(a.band)) && (a.laserGunId.Some? ==> a.band == "LASER")
    && a.fieldCount >= 8
  }

  lemma {:induction false} DetectionsAreSafe(alertId: Option<string>, band: string, strength: Option<int>,
                                             signal: Option<int>, info: Option<string>, direction: string,
                                             mute: Option<string>, mode: Option<string>, slot: nat, fieldCount: nat,
                                             decimals: Decimals)
    requires fieldCount >= 8
    ensures var a := Detection(alertId, band, strength, signal, info, direction, mute, mode, slot, fieldCount,
                               decimals);
            a.Some? ==> SafeToPublish(a.value) && a.value.slot == slot
  {
    SafeWordsAreEchoable(alertId, 8);
    SafeWordsAreEchoable(info, 12);
    SafeWordsAreEchoable(Some(direction), 4);
    SafeWordsAreEchoable(mute, 4);
    SafeWordsAreEchoable(mode, 8);
    SafeWordsAreEchoable(Some(band), 16);
  }

  /** Whatever text arrives, a detection read from it carries only bounded, echoable text. */
  lemma {:induction false} WhatIsParsedIsSafe(segment: string, slot: nat, decimals: Decimals)
    ensures var a := ParseSlot(segment, slot, decimals);
            a.Some? ==> SafeToPublish(a.value) && a.value.slot == slot && a.value.fieldCount == |Split(segment, ',')|
  {
    var f := Split(segment, ',');
    if |f| >= 8 {
      DetectionsAreSafe(At(f, 1), Upper(Strip(Or(At(f, 2)))), ReadInt(At(f, 3)), ReadInt(At(f, 4)), At(f, 5),
                        Upper(Strip(Or(At(f, 6)))), At(f, 7), At(f, 8), slot, |f|, decimals);
    }
  }
}
