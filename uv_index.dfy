/**
 * The UV severity ladder shown next to the current UV index: five bands whose
 * upper bounds 2, 5, 7 and 10 are inclusive, tested with JavaScript's `<=`.
 */
module UvIndex {
  import opened JsNumber

  datatype UvBand = Low | Moderate | High | VeryHigh | Extreme

  /** Severity order of the bands. */
  function Rank(b: UvBand): nat {
    match b
    case Low => 0
    case Moderate => 1
    case High => 2
    case VeryHigh => 3
    case Extreme => 4
  }

  /** The inclusive upper bound of every band but the last. */
  function Ceiling(b: UvBand): real
    requires b != Extreme
  {
    match b
    case Low => 2.0
    case Moderate => 5.0
    case High => 7.0
    case VeryHigh => 10.0
  }

  /** The text shown for a band. */
  function Label(b: UvBand): string {
    match b
    case Low => "Low"
    case Moderate => "Moderate"
    case High => "High"
    case VeryHigh => "Very High"
    case Extreme => "Extreme"
  }

  /**
   * The nested ternary over `uvindex <= 2`, `<= 5`, `<= 7`, `<= 10`: the
   * result is the least severe band whose ceiling admits the reading, and
   * Extreme when no ceiling does.
   */
  function BandOf(uv: JsNum): (b: UvBand)
    ensures b != Extreme ==> AtMost(uv, Ceiling(b))
    ensures forall c :: c != Extreme && Rank(c) < Rank(b) ==> !AtMost(uv, Ceiling(c))
  {
    if AtMost(uv, 2.0) then Low
    else if AtMost(uv, 5.0) then Moderate
    else if AtMost(uv, 7.0) then High
    else if AtMost(uv, 10.0) then VeryHigh
    else Extreme
  }

  /**
   * The label shown for a reading, stated as the ladder of `<=` tests that
   * selects it: each label is shown exactly when the reading passes its own
   * test and fails the one before.
   */
  function UvLabel(uv: JsNum): (shown: string)
    ensures shown == "Low" <==> AtMost(uv, 2.0)
    ensures shown == "Moderate" <==> !AtMost(uv, 2.0) && AtMost(uv, 5.0)
    ensures shown == "High" <==> !AtMost(uv, 5.0) && AtMost(uv, 7.0)
    ensures shown == "Very High" <==> !AtMost(uv, 7.0) && AtMost(uv, 10.0)
    ensures shown == "Extreme" <==> !AtMost(uv, 10.0)
  {
    Label(BandOf(uv))
  }

  /** The bands of a numeric reading, each an interval closed at its upper end. */
  lemma BandIntervals(x: real)
    ensures BandOf(Num(x)) == Low <==> x <= 2.0
    ensures BandOf(Num(x)) == Moderate <==> 2.0 < x <= 5.0
    ensures BandOf(Num(x)) == High <==> 5.0 < x <= 7.0
    ensures BandOf(Num(x)) == VeryHigh <==> 7.0 < x <= 10.0
    ensures BandOf(Num(x)) == Extreme <==> 10.0 < x
  {
  }

  /** A band's ceiling itself belongs to that band. */
  lemma CeilingIsInclusive(b: UvBand)
    requires b != Extreme
    ensures BandOf(Num(Ceiling(b))) == b
  {
  }

  /** A higher reading never shows a lower band. */
  lemma BandMonotone(x: real, y: real)
    requires x <= y
    ensures Rank(BandOf(Num(x))) <= Rank(BandOf(Num(y)))
  {
  }

  /** Whole-number readings: 0..2 Low, 3..5 Moderate, 6..7 High, 8..10 Very High, 11 on Extreme. */
  lemma IntegerLadder(n: int)
    ensures n <= 2 ==> UvLabel(Num(n as real)) == "Low"
    ensures 3 <= n <= 5 ==> UvLabel(Num(n as real)) == "Moderate"
    ensures 6 <= n <= 7 ==> UvLabel(Num(n as real)) == "High"
    ensures 8 <= n <= 10 ==> UvLabel(Num(n as real)) == "Very High"
    ensures 11 <= n ==> UvLabel(Num(n as real)) == "Extreme"
  {
  }

  /**
   * A reading the provider leaves out (`undefined`) or that is not a number
   * fails every comparison and shows Extreme; `null` compares as 0 and shows Low.
   */
  lemma MissingReadings()
    ensures UvLabel(Undefined) == "Extreme"
    ensures UvLabel(NaN) == "Extreme"
    ensures UvLabel(Null) == "Low"
  {
  }
}
