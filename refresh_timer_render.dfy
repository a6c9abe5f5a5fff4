/**
 * The refresh timer block's server-side render: the size configuration, the
 * ring's radius, the initial interactivity context and which text spans are
 * shown.
 */
module RefreshTimerRender {
  import opened Wrappers
  import opened Strings
  import RefreshTimer

  const DEFAULT_LABEL: string := "Next data refresh"

  /** Diameter and stroke width in pixels, and font size, of one size of timer. */
  datatype SizeConfig = SizeConfig(diameter: int, stroke: int, font: string)

  /** The size table; a missing or unknown size is medium. */
  function SizeConfigOf(size: Option<string>): (c: SizeConfig)
    ensures size == Some("small") ==> c == SizeConfig(80, 3, "18px")
    ensures size == Some("large") ==> c == SizeConfig(160, 5, "34px")
    ensures size != Some("small") && size != Some("large") ==> c == SizeConfig(120, 4, "26px")
  {
    var key := size.GetOr("medium");
    if key == "small" then SizeConfig(80, 3, "18px")
    else if key == "large" then SizeConfig(160, 5, "34px")
    else SizeConfig(120, 4, "26px")
  }

  /** `(diameter - 8) / 2`: the ring sits 4 px inside the SVG's edge. */
  function Radius(diameter: int): (r: real)
    ensures 2.0 * r + 8.0 == diameter as real
  {
    (diameter - 8) as real / 2.0
  }

  /** Every size has a ring of positive radius whose stroke stays inside the 4 px margin. */
  lemma RingFits(size: Option<string>)
    ensures var c := SizeConfigOf(size);
      Radius(c.diameter) > 0.0 && (c.stroke as real) / 2.0 <= 4.0
  {
  }

  /**
   * The server-rendered context. Its `circumf` entry, round(2π · radius, 2),
   * is left out of this datatype: the client timer takes the circumference
   * as a parameter instead.
   */
  datatype Context = Context(interval: int, remaining: int, dashOffset: string, isPulsing: bool, displayText: string)

  /** The context for the block's `interval` attribute (already an integer; 0 when missing). */
  function InitialContext(intervalAttr: Option<int>): (c: Context)
    ensures c.interval == intervalAttr.GetOr(0)
    ensures c.remaining >= RefreshTimer.DEFAULT_INTERVAL && c.remaining >= c.interval
    ensures c.remaining == c.interval || c.remaining == RefreshTimer.DEFAULT_INTERVAL
    ensures c.displayText == IntToString(if c.interval > 0 then c.interval else RefreshTimer.DEFAULT_INTERVAL) + "s"
    ensures c.dashOffset == "0" && !c.isPulsing
  {
    var interval := intervalAttr.GetOr(0);
    Context(interval,
            if interval > 15 then interval else 15,
            "0", false,
            IntToString(if interval > 0 then interval else 15) + "s")
  }

  /** A short interval (below 15 s) is announced as itself but counted from 15 until the client takes over. */
  lemma ShortIntervalMismatch(interval: int)
    requires 0 < interval < RefreshTimer.DEFAULT_INTERVAL
    ensures var c := InitialContext(Some(interval));
      c.remaining == RefreshTimer.DEFAULT_INTERVAL && c.displayText != IntToString(c.remaining) + "s"
  {
    var c := InitialContext(Some(interval));
    if c.displayText == IntToString(c.remaining) + "s" {
      assert IntToString(interval) == c.displayText[..|c.displayText| - 1];
      assert IntToString(c.remaining) == c.displayText[..|c.displayText| - 1];
      IntToStringInjective(interval, c.remaining);
    }
  }

  /**
   * With a positive interval the client's start state shows the same text as
   * the server's; without one, on a page with no other refresh interval, both
   * show 15 s.
   */
  lemma ClientAgreesWithServer(intervalAttr: Option<int>, values: seq<Option<int>>)
    requires intervalAttr.GetOr(0) > 0 || forall v :: Some(v) in values ==> v <= 0
    ensures var c := InitialContext(intervalAttr);
      var interval := RefreshTimer.Detected(c.interval, values);
      IntToString(interval) + "s" == c.displayText &&
      (c.interval >= RefreshTimer.DEFAULT_INTERVAL || c.interval <= 0 ==> interval == c.remaining)
  {
    var c := InitialContext(intervalAttr);
    RefreshTimer.DetectedInterval(c.interval, values);
  }

  /** The seconds span is shown unless showSeconds is false. */
  function ShowsSeconds(showSeconds: Option<bool>): (b: bool)
    ensures b <==> showSeconds != Some(false)
  {
    showSeconds.GetOr(true)
  }

  /** The label, with its default. */
  function Label(labelAttr: Option<string>): string {
    labelAttr.GetOr(DEFAULT_LABEL)
  }

  /** The label span is shown unless PHP's empty() holds of the label: '' and '0' hide it. */
  function ShowsLabel(labelAttr: Option<string>): (b: bool)
    ensures b <==> labelAttr.None? || (labelAttr.value != "" && labelAttr.value != "0")
  {
    var l := Label(labelAttr);
    !(l == "" || l == "0")
  }
}
