/** One decoded detection, and the two views of it that are published. */
module Alerts {
  import opened Common

  datatype Alert = Alert(
    band: string,
    strength: Option<int>,
    signal: Option<int>,
    frequency: Option<real>,
    direction: Option<char>,
    muteCode: Option<string>,
    alertIdRaw: Option<string>,
    laserGunId: Option<int>,
    field5Raw: Option<string>,
    receiveModeRaw: Option<string>,
    slot: nat,
    fieldCount: nat,
    bandRecognised: bool,
    directionRaw: Option<string>
  )

  const BANDS: seq<string> :=
    ["X", "K", "KA", "LASER", "MRCD", "MRCT", "RT3", "RT4", "K POP", "KA POP"]

  function UpperChar(c: char): char {
    if 'a' <= c <= 'z' then c - 'a' + 'A' else c
  }

  function Upper(s: string): (r: string)
    ensures |r| == |s|
    ensures forall k :: 0 <= k < |s| ==> r[k] == if 'a' <= s[k] <= 'z' then s[k] - 'a' + 'A' else s[k]
  {
    if |s| == 0 then [] else [UpperChar(s[0])] + Upper(s[1..])
  }

  /** The conservative, schema-1 view of an alert. */
  datatype PublicView = PublicView(
    band: string,
    strength: Option<int>,
    frequency: Option<real>,
    direction: string,
    muted: Option<bool>
  )

  function DirectionName(direction: Option<char>): string {
    match direction
    case None => "unknown"
    case Some(c) => if c == 'F' then "front" else if c == 'S' then "side" else if c == 'R' then "rear" else [c]
  }

  /** The six documented mute codes are the single digits 1 to 6, and all but 1 mean muted. */
  predicate IsMuteState(code: Option<string>) {
    code.Some? && |code.value| == 1 && '1' <= code.value[0] <= '6'
  }

  function Muted(code: Option<string>): Option<bool> {
    if IsMuteState(code) then Some(code.value[0] != '1') else None
  }

  function Publishable(a: Alert): PublicView {
    PublicView(if a.bandRecognised then a.band else "unknown",
               a.strength, a.frequency, DirectionName(a.direction), Muted(a.muteCode))
  }

  // ---------------------------------------------------------------- what a reader can tell apart

  /** Muted, not muted, or not known to be either. */
  function MuteClass(code: Option<string>): nat {
    if code == Some("1") then 1
    else if code in [Some("2"), Some("3"), Some("4"), Some("5"), Some("6")] then 2
    else 0
  }

  /** Nothing published differs: the band by name, the strength, the frequency, the bearing, the muting. */
  predicate LooksTheSame(a: Alert, b: Alert) {
    && (if a.bandRecognised then a.band else "unknown") == (if b.bandRecognised then b.band else "unknown")
    && a.strength == b.strength && a.frequency == b.frequency && a.direction == b.direction
    && MuteClass(a.muteCode) == MuteClass(b.muteCode)
  }

  lemma {:induction false} MutedIsAClass(code: Option<string>)
    ensures Muted(code) == match MuteClass(code) case 0 => None case 1 => Some(false) case _ => Some(true)
  {
    if code.Some? && |code.value| == 1 {
      assert code.value == [code.value[0]];
    }
  }

  lemma {:induction false} NamesTellBearingsApart(d: Option<char>, e: Option<char>)
    ensures DirectionName(d) == DirectionName(e) <==> d == e
  {
    assert |"unknown"| == 7 && |"front"| == 5 && |"side"| == 4 && |"rear"| == 4 && "side"[0] != "rear"[0];
    if d.Some? && e.Some? {
      assert [d.value] == [e.value] ==> [d.value][0] == [e.value][0];
    }
  }

  /** Two alerts have one published view exactly when they look the same. */
  lemma {:induction false} ViewsAreLooks(a: Alert, b: Alert)
    ensures Publishable(a) == Publishable(b) <==> LooksTheSame(a, b)
  {
    MutedIsAClass(a.muteCode);
    MutedIsAClass(b.muteCode);
    NamesTellBearingsApart(a.direction, b.direction);
  }
}
