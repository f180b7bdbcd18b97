/** Reading an alert notification: slots split by `&`, fields split by `,`, and three states for a slot. */
module Wire {
  import opened Common
  import opened Text
  import opened Alerts

  /** `float()` restricted to finite numbers. Decimal parsing itself is not modelled. */
  type Decimals = string -> Option<real>

  // ---------------------------------------------------------------- fields

  /** `_at`: a stripped field, or nothing if it is missing or blank. */
  function At(parts: seq<string>, k: nat): Option<string> {
    if k >= |parts| then None
    else
      var value := Strip(parts[k]);
      if |value| == 0 then None else Some(value)
  }

  function Or(value: Option<string>): string {
    match value
    case None => ""
    case Some(s) => s
  }

  function ReadInt(value: Option<string>): Option<int> {
    match value
    case None => None
    case Some(s) => IntOf(s)
  }

  function ReadFloat(value: Option<string>, decimals: Decimals): Option<real> {
    match value
    case None => None
    case Some(s) => decimals(s)
  }

  predicate IsAlnum(c: char) {
    IsDigit(c) || 'a' <= c <= 'z' || 'A' <= c <= 'Z'
  }

  predicate IsFiller(c: char) {
    c == ' ' || c == '.' || c == '-'
  }

  /** Only letters, digits, spaces, dots and hyphens, and at least one letter or digit. */
  predicate IsWord(s: string) {
    && (forall k :: 0 <= k < |s| ==> IsAlnum(s[k]) || IsFiller(s[k]))
    && (exists k :: 0 <= k < |s| && IsAlnum(s[k]))
  }

  /** `_safe_word`. */
  function SafeWord(value: Option<string>, limit: nat): Option<string> {
    match value
    case None => None
    case Some(s) =>
      var candidate := Strip(s);
      if |candidate| == 0 || |candidate| > limit || !IsWord(candidate) then None else Some(candidate)
  }

  // ---------------------------------------------------------------- slots

  predicate IsDirection(s: string) {
    s == "F" || s == "S" || s == "R"
  }

  /** The bands whose field 5 is a frequency. */
  predicate HasFrequency(band: string) {
    band !in ["LASER", "RT3", "RT4", "MRCD", "MRCT"]
  }

  /** A band upstream documented. */
  predicate IsBand(band: string) {
    band in BANDS
  }

  /** The detection a slot's fields make, unless its strength is not 1 to 8 or its band cannot be echoed. */
  function Detection(alertId: Option<string>, band: string, strength: Option<int>, signal: Option<int>,
                     info: Option<string>, direction: string, mute: Option<string>, mode: Option<string>,
                     slot: nat, fieldCount: nat, decimals: Decimals): Option<Alert> {
    var recognised := IsBand(band);
    var safeBand := if recognised then Some(band) else SafeWord(Some(band), 16);
    if strength.None? || !(1 <= strength.value <= 8) || safeBand.None? then None
    else
      Some(Alert(
        safeBand.value,
        strength,
        signal,
        if recognised && HasFrequency(band) then ReadFloat(info, decimals) else None,
        if IsDirection(direction) then Some(direction[0]) else None,
        SafeWord(mute, 4),
        SafeWord(alertId, 8),
        if recognised && band == "LASER" then ReadInt(info) else None,
        SafeWord(info, 12),
        SafeWord(mode, 8),
        slot,
        fieldCount,
        recognised,
        SafeWord(Some(direction), 4)))
  }

  /** `_parse_slot`. */
  function ParseSlot(segment: string, slot: nat, decimals: Decimals): Option<Alert> {
    var fields := Split(segment, ',');
    if |fields| < 8 || At(fields, 0) != Some("1") then None
    else
      Detection(At(fields, 1), Upper(Strip(Or(At(fields, 2)))), ReadInt(At(fields, 3)), ReadInt(At(fields, 4)),
                At(fields, 5), Upper(Strip(Or(At(fields, 6)))), At(fields, 7), At(fields, 8), slot, |fields|, decimals)
  }

  datatype Slot = Empty(index: nat) | Active(index: nat, alert: Alert) | Unreadable(index: nat)

  datatype AlertSnapshot = AlertSnapshot(slots: seq<Slot>, recognised: bool, rejected: nat, unknownMutes: nat)

  /** One `&` segment: empty, a detection, or something that could not be read. */
  function ReadSlot(segment: string, index: nat, decimals: Decimals): Slot {
    var stripped := Strip(segment);
    if stripped == "0" then Empty(index)
    else match ParseSlot(stripped, index, decimals)
      case None => Unreadable(index)
      case Some(a) => Active(index, a)
  }

  /** `_text`: a payload loses its NUL padding, then its surrounding whitespace. */
  function TextOf(payload: string): string {
    Strip(StripBy(payload, IsNul))
  }

  function Slots(segments: seq<string>, decimals: Decimals): (r: seq<Slot>)
    ensures |r| == |segments|
  {
    if |segments| == 0 then []
    else
      var n := |segments| - 1;
      Slots(segments[..n], decimals) + [ReadSlot(segments[n], n, decimals)]
  }

  function Rejected(slots: seq<Slot>): nat {
    if |slots| == 0 then 0 else Rejected(slots[..|slots| - 1]) + (if slots[|slots| - 1].Unreadable? then 1 else 0)
  }

  predicate OddMute(slot: Slot) {
    slot.Active? && !IsMuteState(slot.alert.muteCode)
  }

  function OddMutes(slots: seq<Slot>): nat {
    if |slots| == 0 then 0 else OddMutes(slots[..|slots| - 1]) + (if OddMute(slots[|slots| - 1]) then 1 else 0)
  }

  /** `AlertSnapshot.alerts`: the slots that decoded, in slot order. */
  function Decoded(slots: seq<Slot>): seq<Alert> {
    if |slots| == 0 then []
    else Decoded(slots[..|slots| - 1]) + (if slots[|slots| - 1].Active? then [slots[|slots| - 1].alert] else [])
  }

  function SlotsOf(payload: string, decimals: Decimals): seq<Slot> {
    if |TextOf(payload)| == 0 then [] else Slots(Split(TextOf(payload), '&'), decimals)
  }

  /** A payload that is blank, or holds a segment nothing could be read from. */
  predicate Uncertain(payload: string, decimals: Decimals) {
    |TextOf(payload)| == 0 || exists s :: s in SlotsOf(payload, decimals) && s.Unreadable?
  }

  // ---------------------------------------------------------------- what a slot says, read off its text

  /** Field `k` of a slot's text, stripped; blank if there is none. */
  function Part(text: string, k: nat): string {
    var fields := Split(text, ',');
    if k < |fields| then Strip(fields[k]) else ""
  }

  /** A band upstream documented, or a short word. */
  predicate NamesABand(band: string) {
    band in BANDS || (0 < |band| <= 16 && IsWord(band))
  }

  /** The text of a detection: the active marker, at least eight fields, a strength of 1 to 8, and a band. */
  predicate Readable(text: string) {
    && |Split(text, ',')| >= 8 && Part(text, 0) == "1"
    && IntOf(Part(text, 3)).Some? && 1 <= IntOf(Part(text, 3)).value <= 8
    && NamesABand(Upper(Part(text, 2)))
  }

  /** A segment that says "nothing here", or holds a detection. */
  predicate Legible(segment: string) {
    Strip(segment) == "0" || Readable(Strip(segment))
  }

  /** A payload that holds something, all of it legible. */
  ghost predicate ReadsWhole(payload: string) {
    var segments := Split(TextOf(payload), '&');
    |TextOf(payload)| > 0 && forall k :: 0 <= k < |segments| ==> Legible(segments[k])
  }

  /** A field that may be echoed, or nothing. */
  function Echo(field: string, limit: nat): Option<string> {
    if 0 < |field| <= limit && IsWord(field) then Some(field) else None
  }

  predicate IsRadar(band: string) {
    band in ["X", "K", "KA", "K POP", "KA POP"]
  }

  /** The detection says what the fields of its text say, each read on its own. */
  ghost predicate Says(a: Alert, text: string, decimals: Decimals) {
    && a.fieldCount == |Split(text, ',')|
    && a.band == Upper(Part(text, 2)) && (a.bandRecognised <==> a.band in BANDS)
    && a.strength == IntOf(Part(text, 3)) && a.signal == IntOf(Part(text, 4))
    && a.frequency == (if IsRadar(a.band) && Part(text, 5) != "" then decimals(Part(text, 5)) else None)
    && a.laserGunId == (if a.band == "LASER" then IntOf(Part(text, 5)) else None)
    && (var d := Upper(Part(text, 6)); a.direction == (if d in ["F", "S", "R"] then Some(d[0]) else None))
    && a.directionRaw == Echo(Upper(Part(text, 6)), 4)
    && a.alertIdRaw == Echo(Part(text, 1), 8) && a.field5Raw == Echo(Part(text, 5), 12)
    && a.muteCode == Echo(Part(text, 7), 4) && a.receiveModeRaw == Echo(Part(text, 8), 8)
  }

  lemma {:induction false} PartIsOr(text: string, k: nat)
    ensures Or(At(Split(text, ','), k)) == Part(text, k) && Strip(Part(text, k)) == Part(text, k)
    ensures At(Split(text, ','), k) == if Part(text, k) == "" then None else Some(Part(text, k))
  {
    var fields := Split(text, ',');
    if k < |fields| {
      StripTwice(fields[k]);
    }
  }

  lemma {:induction false} WordIsEcho(text: string, k: nat, limit: nat)
    ensures SafeWord(At(Split(text, ','), k), limit) == Echo(Part(text, k), limit)
  {
    PartIsOr(text, k);
  }

  lemma {:induction false} NumberIsRead(text: string, k: nat)
    ensures ReadInt(At(Split(text, ','), k)) == IntOf(Part(text, k))
  {
    PartIsOr(text, k);
  }

  lemma {:induction false} UpperStrips(text: string, k: nat)
    ensures Upper(Strip(Or(At(Split(text, ','), k)))) == Upper(Part(text, k))
    ensures Strip(Upper(Part(text, k))) == Upper(Part(text, k))
  {
    PartIsOr(text, k);
    var part := Part(text, k);
    assert Trimmed(part) by {
      var fields := Split(text, ',');
      if k < |fields| {
        StripTrims(fields[k]);
      }
    }
    TrimmedStays(Upper(part), IsSpace);
  }

  /** What makes a detection out of the fields, however they were read. */
  lemma {:induction false} DetectionMeaning(alertId: Option<string>, band: string, strength: Option<int>,
                                            signal: Option<int>, info: Option<string>, direction: string,
                                            mute: Option<string>, mode: Option<string>, slot: nat, fieldCount: nat,
                                            decimals: Decimals)
    requires Strip(band) == band && Strip(direction) == direction
    ensures var r := Detection(alertId, band, strength, signal, info, direction, mute, mode, slot, fieldCount,
                               decimals);
            && (r.Some? <==> strength.Some? && 1 <= strength.value <= 8 && NamesABand(band))
            && (r.Some? ==> var a := r.value;
                  && a.slot == slot && a.fieldCount == fieldCount && a.band == band
                  && (a.bandRecognised <==> band in BANDS) && a.strength == strength && a.signal == signal
                  && a.frequency == (if IsRadar(band) then ReadFloat(info, decimals) else None)
                  && a.laserGunId == (if band == "LASER" then ReadInt(info) else None)
                  && a.direction == (if direction in ["F", "S", "R"] then Some(direction[0]) else None)
                  && a.directionRaw == Echo(direction, 4) && a.alertIdRaw == SafeWord(alertId, 8)
                  && a.field5Raw == SafeWord(info, 12) && a.muteCode == SafeWord(mute, 4)
                  && a.receiveModeRaw == SafeWord(mode, 8))
  {
  }

  /** A stripped segment parses exactly when it is readable, to the detection it says. */
  lemma {:induction false} ParsesWhenReadable(text: string, slot: nat, decimals: Decimals)
    ensures ParseSlot(text, slot, decimals).Some? <==> Readable(text)
    ensures var r := ParseSlot(text, slot, decimals); r.Some? ==> r.value.slot == slot && Says(r.value, text, decimals)
  {
    var f := Split(text, ',');
    PartIsOr(text, 0);
    PartIsOr(text, 5);
    UpperStrips(text, 2);
    UpperStrips(text, 6);
    NumberIsRead(text, 3);
    NumberIsRead(text, 4);
    NumberIsRead(text, 5);
    WordIsEcho(text, 1, 8);
    WordIsEcho(text, 5, 12);
    WordIsEcho(text, 7, 4);
    WordIsEcho(text, 8, 8);
    DetectionMeaning(At(f, 1), Upper(Part(text, 2)), ReadInt(At(f, 3)), ReadInt(At(f, 4)), At(f, 5),
                     Upper(Part(text, 6)), At(f, 7), At(f, 8), slot, |f|, decimals);
  }

  /** How a segment is read: nothing there, the detection it says, or unreadable, by its text alone. */
  ghost predicate ReadsAs(slot: Slot, segment: string, index: nat, decimals: Decimals) {
    && slot.index == index
    && (slot.Empty? <==> Strip(segment) == "0")
    && (slot.Active? <==> Readable(Strip(segment)))
    && (slot.Active? ==> slot.alert.slot == index && Says(slot.alert, Strip(segment), decimals))
  }

  lemma {:induction false} ZeroIsNoDetection()
    ensures !Readable("0")
  {
    SplitFree("0", ',');
  }

  lemma {:induction false} SegmentReadsAs(segment: string, index: nat, decimals: Decimals)
    ensures ReadsAs(ReadSlot(segment, index, decimals), segment, index, decimals)
  {
    ZeroIsNoDetection();
    ParsesWhenReadable(Strip(segment), index, decimals);
  }

  /** For any payload: one slot for each segment, each read on its own. */
  lemma {:induction false} EverySegmentIsRead(payload: string, decimals: Decimals, k: nat)
    requires |TextOf(payload)| > 0 && k < |Split(TextOf(payload), '&')|
    ensures |SlotsOf(payload, decimals)| == |Split(TextOf(payload), '&')|
    ensures ReadsAs(SlotsOf(payload, decimals)[k], Split(TextOf(payload), '&')[k], k, decimals)
  {
    SlotAt(Split(TextOf(payload), '&'), decimals, k);
    SegmentReadsAs(Split(TextOf(payload), '&')[k], k, decimals);
  }

  /** The text of a payload is what is left between its NUL padding, without the whitespace around it. */
  lemma {:induction false} TextIsBetweenThePadding(payload: string)
    returns (nuls: string, front: string, back: string, more: string)
    ensures payload == nuls + (front + TextOf(payload) + back) + more
    ensures AllDropped(nuls, IsNul) && AllDropped(more, IsNul) && TrimmedBy(front + TextOf(payload) + back, IsNul)
    ensures AllDropped(front, IsSpace) && AllDropped(back, IsSpace) && Trimmed(TextOf(payload))
  {
    nuls, more := StripTakesTheEnds(payload, IsNul);
    front, back := StripTakesTheEnds(StripBy(payload, IsNul), IsSpace);
  }

  /** So a payload that is nothing but padding, as a cut-off notification leaves it, is blank and never read whole. */
  lemma {:induction false} PaddingIsBlank(payload: string)
    requires AllDropped(payload, IsNul)
    ensures TextOf(payload) == "" && !ReadsWhole(payload)
  {
    var nuls, front, back, more := TextIsBetweenThePadding(payload);
    FirstIsAmong(nuls, front + TextOf(payload) + back, more);
  }

  lemma {:induction false} FirstIsAmong(before: string, s: string, after: string)
    ensures |s| > 0 ==> s[0] in before + s + after
  {
    if |s| > 0 {
      assert (before + s + after)[|before|] == s[0];
    }
  }

  lemma {:induction false} UncertainMeaning(payload: string, decimals: Decimals)
    ensures Uncertain(payload, decimals) <==> !ReadsWhole(payload)
  {
    if |TextOf(payload)| > 0 {
      var slots, parts := SlotsOf(payload, decimals), Split(TextOf(payload), '&');
      forall k | 0 <= k < |parts| ensures |slots| == |parts| && (slots[k].Unreadable? <==> !Legible(parts[k])) {
        EverySegmentIsRead(payload, decimals, k);
      }
      if s :| s in slots && s.Unreadable? {
        var k :| 0 <= k < |slots| && slots[k] == s;
        assert !Legible(parts[k]);
      }
      if k :| 0 <= k < |parts| && !Legible(parts[k]) {
        assert slots[k] in slots;
      }
    }
  }

  predicate RejectedAt(slots: seq<Slot>, k: nat) {
    k < |slots| && slots[k].Unreadable?
  }

  /** A detection whose mute code is none of the six upstream documented. */
  predicate OddMuteAt(slots: seq<Slot>, k: nat) {
    && k < |slots| && slots[k].Active?
    && slots[k].alert.muteCode !in [Some("1"), Some("2"), Some("3"), Some("4"), Some("5"), Some("6")]
  }

  lemma {:induction false} CountsAre(slots: seq<Slot>)
    ensures Rejected(slots) == |set k: nat | k < |slots| && RejectedAt(slots, k)|
    ensures OddMutes(slots) == |set k: nat | k < |slots| && OddMuteAt(slots, k)|
  {
    if |slots| == 0 {
      assert (set k: nat | k < |slots| && RejectedAt(slots, k)) == {};
      assert (set k: nat | k < |slots| && OddMuteAt(slots, k)) == {};
    } else {
      CountsAre(slots[..|slots| - 1]);
      RejectedOn(slots);
      OddMutesOn(slots);
    }
  }

  lemma {:induction false} RejectedOn(slots: seq<Slot>)
    requires |slots| > 0
    ensures var front := slots[..|slots| - 1];
            |set k: nat | k < |slots| && RejectedAt(slots, k)|
            == |set k: nat | k < |front| && RejectedAt(front, k)| + (if slots[|slots| - 1].Unreadable? then 1 else 0)
  {
    var n := |slots| - 1;
    var before := set k: nat | k < |slots[..n]| && RejectedAt(slots[..n], k);
    var all := set k: nat | k < |slots| && RejectedAt(slots, k);
    assert all == if RejectedAt(slots, n) then before + {n} else before;
  }

  lemma {:induction false} OddMutesOn(slots: seq<Slot>)
    requires |slots| > 0
    ensures var front := slots[..|slots| - 1];
            |set k: nat | k < |slots| && OddMuteAt(slots, k)|
            == |set k: nat | k < |front| && OddMuteAt(front, k)| + (if OddMute(slots[|slots| - 1]) then 1 else 0)
  {
    var n := |slots| - 1;
    var before := set k: nat | k < |slots[..n]| && OddMuteAt(slots[..n], k);
    var all := set k: nat | k < |slots| && OddMuteAt(slots, k);
    OddMuteIs(slots, n);
    assert all == if OddMuteAt(slots, n) then before + {n} else before;
  }

  lemma {:induction false} OddMuteIs(slots: seq<Slot>, k: nat)
    requires k < |slots|
    ensures OddMute(slots[k]) <==> OddMuteAt(slots, k)
  {
    if slots[k].Active? && slots[k].alert.muteCode.Some? && |slots[k].alert.muteCode.value| == 1 {
      var code := slots[k].alert.muteCode.value;
      assert code == [code[0]];
    }
  }

  ghost predicate Ascending(at: seq<nat>) {
    forall i, j :: 0 <= i < j < |at| ==> at[i] < at[j]
  }

  /** `alerts` are those of the active slots, which are the ones at `at`, in slot order. */
  ghost predicate IsDecoding(slots: seq<Slot>, at: seq<nat>, alerts: seq<Alert>) {
    && |at| == |alerts| && Ascending(at)
    && (forall i :: 0 <= i < |at| ==> at[i] < |slots| && slots[at[i]].Active? && alerts[i] == slots[at[i]].alert)
    && (forall k: nat :: k < |slots| && slots[k].Active? ==> k in at)
  }

  lemma {:induction false} OneMoreDecoded(slots: seq<Slot>, at: seq<nat>, alerts: seq<Alert>, s: Slot)
    requires IsDecoding(slots, at, alerts) && s.Active?
    ensures IsDecoding(slots + [s], at + [|slots|], alerts + [s.alert])
  {
    var more := at + [|slots|];
    assert more[|at|] == |slots|;
    forall k: nat | k < |slots| && slots[k].Active? ensures k in more {
      assert k in at;
    }
  }

  lemma {:induction false} NoMoreDecoded(slots: seq<Slot>, at: seq<nat>, alerts: seq<Alert>, s: Slot)
    requires IsDecoding(slots, at, alerts) && !s.Active?
    ensures IsDecoding(slots + [s], at, alerts)
  {
  }

  /** The decoded alerts are those of the active slots, all of them, in slot order. */
  lemma {:induction false} DecodedInOrder(slots: seq<Slot>) returns (at: seq<nat>)
    ensures IsDecoding(slots, at, Decoded(slots))
  {
    if |slots| == 0 {
      at := [];
    } else {
      var front, last := slots[..|slots| - 1], slots[|slots| - 1];
      at := DecodedInOrder(front);
      assert slots == front + [last];
      if last.Active? {
        OneMoreDecoded(front, at, Decoded(front), last);
        at := at + [|front|];
      } else {
        NoMoreDecoded(front, at, Decoded(front), last);
      }
    }
  }

  lemma {:induction false} RejectedMeansUnreadable(slots: seq<Slot>)
    ensures Rejected(slots) > 0 <==> exists s :: s in slots && s.Unreadable?
  {
    if |slots| == 0 {
    } else {
      var front, last := slots[..|slots| - 1], slots[|slots| - 1];
      RejectedMeansUnreadable(front);
      assert slots == front + [last];
      if Rejected(slots) > 0 && !last.Unreadable? {
        var s :| s in front && s.Unreadable?;
        assert s in slots;
      }
    }
  }

  lemma {:induction false} OneMore(slots: seq<Slot>, slot: Slot)
    ensures Rejected(slots + [slot]) == Rejected(slots) + (if slot.Unreadable? then 1 else 0)
    ensures OddMutes(slots + [slot]) == OddMutes(slots) + (if OddMute(slot) then 1 else 0)
  {
    assert (slots + [slot])[..|slots|] == slots;
  }

  lemma {:induction false} SlotsNext(segments: seq<string>, decimals: Decimals, n: nat)
    requires n < |segments|
    ensures Slots(segments[..n + 1], decimals) == Slots(segments[..n], decimals) + [ReadSlot(segments[n], n, decimals)]
  {
    assert segments[..n + 1][..n] == segments[..n];
  }

  lemma {:induction false} SlotAt(segments: seq<string>, decimals: Decimals, k: nat)
    requires k < |segments|
    ensures Slots(segments, decimals)[k] == ReadSlot(segments[k], k, decimals)
  {
    if k == |segments| - 1 {
    } else {
      SlotAt(segments[..|segments| - 1], decimals, k);
    }
  }

  /** Reading every segment, counting the slots that were rejected and the mute codes that were odd. */
  method ReadSegments(segments: seq<string>, decimals: Decimals) returns (r: AlertSnapshot)
    ensures r.slots == Slots(segments, decimals)
    ensures r.rejected == Rejected(r.slots) && r.unknownMutes == OddMutes(r.slots) && r.recognised == (r.rejected == 0)
  {
    var slots, recognised, rejected, unknownMutes := [], true, 0, 0;
    for index := 0 to |segments|
      invariant slots == Slots(segments[..index], decimals)
      invariant recognised == (rejected == 0) && rejected == Rejected(slots) && unknownMutes == OddMutes(slots)
    {
      SlotsNext(segments, decimals, index);
      var slot := ReadSlot(segments[index], index, decimals);
      slots, recognised, rejected, unknownMutes := Appended(slots, slot, recognised, rejected, unknownMutes);
    }
    assert segments[..|segments|] == segments;
    r := AlertSnapshot(slots, recognised, rejected, unknownMutes);
  }

  /** Append one slot to the snapshot. */
  method Appended(slots: seq<Slot>, slot: Slot, recognised: bool, rejected: nat, unknownMutes: nat)
    returns (slots': seq<Slot>, recognised': bool, rejected': nat, unknownMutes': nat)
    requires rejected == Rejected(slots) && unknownMutes == OddMutes(slots) && recognised == (rejected == 0)
    ensures slots' == slots + [slot]
    ensures rejected' == Rejected(slots') && unknownMutes' == OddMutes(slots') && recognised' == (rejected' == 0)
  {
    OneMore(slots, slot);
    slots', recognised', rejected', unknownMutes' := slots + [slot], recognised, rejected, unknownMutes;
    match slot
    case Empty(_) =>
    case Unreadable(_) =>
      recognised' := false;
      rejected' := rejected + 1;
    case Active(_, alert) =>
      if !IsMuteState(alert.muteCode) {
        unknownMutes' := unknownMutes + 1;
      }
  }

  /**
   * `parse_alert_snapshot`: one slot for each `&` segment, each read on its own; the rejected slots
   * are counted; and the payload is recognised unless it is blank or a slot was rejected.
   */
  method ParseAlertSnapshot(payload: string, decimals: Decimals) returns (r: AlertSnapshot)
    ensures r.slots == SlotsOf(payload, decimals)
    ensures |TextOf(payload)| > 0 ==> |r.slots| == Occurrences(TextOf(payload), '&') + 1
    ensures r.rejected == |set k: nat | k < |r.slots| && RejectedAt(r.slots, k)|
    ensures r.unknownMutes == |set k: nat | k < |r.slots| && OddMuteAt(r.slots, k)|
    ensures r.recognised <==> ReadsWhole(payload)
    ensures |TextOf(payload)| > 0 ==>
              forall k: nat :: k < |r.slots| ==> ReadsAs(r.slots[k], Split(TextOf(payload), '&')[k], k, decimals)
  {
    UncertainMeaning(payload, decimals);
    var text := TextOf(payload);
    CountsAre([]);
    if |text| == 0 {
      return AlertSnapshot([], false, 0, 0);
    }
    SplitCounts(text, '&');
    r := ReadSegments(Split(text, '&'), decimals);
    RejectedMeansUnreadable(r.slots);
    CountsAre(r.slots);
    forall k: nat | k < |r.slots| ensures ReadsAs(r.slots[k], Split(text, '&')[k], k, decimals) {
      EverySegmentIsRead(payload, decimals, k);
    }
  }
}
