// The per-detection decision of the webcam detector: is the class dangerous,
// which colour and line thickness the box gets, and whether the detection
// raises the frame's alarm.

module DetectionStyle {

  /** A colour as the drawing library takes it: blue, green, red. */
  datatype Color = Color(b: int, g: int, r: int)

  const Red: Color := Color(0, 0, 255)
  const Green: Color := Color(0, 255, 0)
  const Yellow: Color := Color(0, 255, 255)
  const Orange: Color := Color(0, 165, 255)
  const Blue: Color := Color(255, 0, 0)

  /** How a bounding box is drawn. */
  datatype Style = Style(color: Color, thickness: int)

  /**
   * One detection after the box corners were converted to integers and the
   * class index was looked up in the model's name table.
   */
  datatype Detection = Detection(x1: int, y1: int, x2: int, y2: int, conf: real, className: string)

  /** What the classification of one detection yields: its box style and whether it sets the alarm. */
  datatype Verdict = Verdict(style: Style, raisesAlarm: bool)

  const DangerousFromCoco: seq<string> := ["knife", "scissors"]

  const DangerousFromImagenet: seq<string> :=
    ["acoustic guitar", "assault rifle, assault gun", "bulletproof vest", "chainsaw", "hammer",
     "hatchet", "military uniform", "mortar", "revolver", "rifle"]

  /** The dangerous-label list: both lists concatenated, then the catch-all "weapon" appended. */
  const Dangerous: seq<string> := DangerousFromCoco + DangerousFromImagenet + ["weapon"]

  /** Python's `in` on a list: a scan comparing whole strings for equality. */
  predicate Contains(list: seq<string>, name: string)
  {
    list != [] && (list[0] == name || Contains(list[1..], name))
  }

  lemma {:induction false} ContainsIsMembership(list: seq<string>, name: string)
    ensures Contains(list, name) <==> name in list
  {
    if list != [] {
      ContainsIsMembership(list[1..], name);
      assert list == [list[0]] + list[1..];
    }
  }

  predicate IsDangerous(name: string)
  {
    Contains(Dangerous, name)
  }

  /**
   * The box is at least a quarter of the frame high. The source compares the
   * integer box height with the float `h / 4`; for integers that is the same
   * as comparing four times the height with `h`.
   */
  predicate IsLarge(d: Detection, frameHeight: int)
  {
    4 * (d.y2 - d.y1) >= frameHeight
  }

  /** The alarm condition: a dangerous class seen with confidence at least 0.5. */
  predicate IsAlarming(d: Detection)
  {
    d.conf >= 0.5 && IsDangerous(d.className)
  }

  /**
   * The three-tier branch cascade that picks colour and thickness and sets
   * the alarm. The result is characterised without the cascade: the alarm is
   * the flat condition IsAlarming, red is chosen exactly for alarming
   * detections, and the thickness is 4 exactly for dangerous high-confidence
   * and for low-confidence detections.
   */
  function Classify(d: Detection, frameHeight: int): (v: Verdict)
    ensures v.raisesAlarm <==> IsAlarming(d)
    ensures v.style.color == Red <==> v.raisesAlarm
    ensures v.style.thickness == 4 <==> (d.conf >= 0.75 && IsDangerous(d.className)) || d.conf < 0.5
    ensures v.style.thickness == 2 || v.style.thickness == 4
  {
    var dangerous := IsDangerous(d.className);
    if d.conf >= 0.75 then
      if dangerous then Verdict(Style(Red, 4), true) else Verdict(Style(Green, 2), false)
    else if 0.5 <= d.conf < 0.75 then
      if dangerous then Verdict(Style(Red, 2), true) else Verdict(Style(Yellow, 2), false)
    else
      if IsLarge(d, frameHeight) then Verdict(Style(Orange, 4), false) else Verdict(Style(Blue, 4), false)
  }

  // ---------------------------------------------------------------------
  // The selection table indexed by tier, danger flag and size, written
  // independently of the cascade.

  datatype Tier = High | Medium | Low

  function TierOf(conf: real): Tier
  {
    if conf >= 0.75 then High else if conf >= 0.5 then Medium else Low
  }

  /** The table row by row: tier, dangerous, large. Low-tier rows ignore the danger flag. */
  function TableStyle(tier: Tier, dangerous: bool, large: bool): Style
  {
    match tier
    case High => if dangerous then Style(Red, 4) else Style(Green, 2)
    case Medium => if dangerous then Style(Red, 2) else Style(Yellow, 2)
    case Low => if large then Style(Orange, 4) else Style(Blue, 4)
  }

  /** Exactly one of the three confidence guards holds for every confidence. */
  lemma TiersDisjointAndExhaustive(conf: real)
    ensures (conf >= 0.75) || (0.5 <= conf < 0.75) || (conf < 0.5)
    ensures !((conf >= 0.75) && (0.5 <= conf < 0.75))
    ensures !((conf >= 0.75) && (conf < 0.5))
    ensures !((0.5 <= conf < 0.75) && (conf < 0.5))
    ensures TierOf(conf) == High <==> conf >= 0.75
    ensures TierOf(conf) == Medium <==> 0.5 <= conf < 0.75
    ensures TierOf(conf) == Low <==> conf < 0.5
  {
  }

  /** The cascade selects the same style as the table for every detection. */
  lemma ClassifyFollowsTable(d: Detection, frameHeight: int)
    ensures Classify(d, frameHeight).style
         == TableStyle(TierOf(d.conf), IsDangerous(d.className), IsLarge(d, frameHeight))
  {
  }

  /** Each colour is chosen under exactly one condition. */
  lemma ColourByCondition(d: Detection, frameHeight: int)
    ensures var c := Classify(d, frameHeight).style.color;
      && (c == Red <==> d.conf >= 0.5 && IsDangerous(d.className))
      && (c == Green <==> d.conf >= 0.75 && !IsDangerous(d.className))
      && (c == Yellow <==> 0.5 <= d.conf < 0.75 && !IsDangerous(d.className))
      && (c == Orange <==> d.conf < 0.5 && IsLarge(d, frameHeight))
      && (c == Blue <==> d.conf < 0.5 && !IsLarge(d, frameHeight))
  {
  }

  /**
   * Below 0.5 the class name plays no part: two detections with the same
   * confidence and vertical extent get the same verdict, orange when large
   * and blue otherwise, and neither raises the alarm even when dangerous.
   */
  lemma LowTierIgnoresClass(d: Detection, e: Detection, frameHeight: int)
    requires d.conf < 0.5 && e.conf == d.conf
    requires e.y1 == d.y1 && e.y2 == d.y2
    ensures Classify(d, frameHeight) == Classify(e, frameHeight)
    ensures Classify(d, frameHeight).style
         == if IsLarge(d, frameHeight) then Style(Orange, 4) else Style(Blue, 4)
    ensures !Classify(d, frameHeight).raisesAlarm
  {
  }

  /** The dangerous labels are exactly these thirteen strings. */
  lemma DangerousLabelsExact(name: string)
    ensures IsDangerous(name) <==>
      name in {"knife", "scissors", "acoustic guitar", "assault rifle, assault gun",
               "bulletproof vest", "chainsaw", "hammer", "hatchet", "military uniform",
               "mortar", "revolver", "rifle", "weapon"}
  {
    ContainsIsMembership(Dangerous, name);
  }

  /** The list holds thirteen distinct entries, "weapon" last. */
  lemma DangerousListShape()
    ensures |Dangerous| == 13 && Dangerous[12] == "weapon"
    ensures forall i, j | 0 <= i < j < |Dangerous| :: Dangerous[i] != Dangerous[j]
  {
  }

  /** Membership is whole-string and case-sensitive: the two-name entry is one string. */
  lemma WholeStringMembership()
    ensures IsDangerous("assault rifle, assault gun")
    ensures !IsDangerous("assault rifle") && !IsDangerous("assault gun")
    ensures !IsDangerous("Knife") && !IsDangerous("gun") && !IsDangerous("person")
  {
    DangerousLabelsExact("assault rifle, assault gun");
    DangerousLabelsExact("assault rifle");
    DangerousLabelsExact("assault gun");
    DangerousLabelsExact("Knife");
    DangerousLabelsExact("gun");
    DangerousLabelsExact("person");
  }
}
