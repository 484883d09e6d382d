/**
 * The "Run Vector Search" button (src/ee_app.js, runSearch): the check that
 * a point has been clicked, then the query for it; and the "Matches" slider
 * that supplies the number of matches.
 */
module Search {
  import opened Wrappers
  import opened SearchQuery

  /** The name the map-click handler gives the layer holding the clicked point. */
  const ClickedPointName: string := "Clicked Point"

  /** The position of the clicked-point layer in the map's layer list. */
  const SelectionIndex: nat := 2

  /** How a press of the button ends. */
  datatype Outcome =
    | NoLayer         // fewer than three layers: reading layer 2 fails before any check
    | NeedsClick      // layer 2 is not the clicked point: the user is asked to click the map
    | Query(text: string)  // the query text sent to BigQuery

  /**
   * One press of the button, given the names of the map's layers in order,
   * the printed coordinates of layer 2's geometry and the slider's value.
   */
  function RunSearch(layerNames: seq<string>, lon: string, lat: string, matches: nat): (o: Outcome)
    ensures o.NoLayer? <==> |layerNames| <= SelectionIndex
    ensures o.Query? <==> |layerNames| > SelectionIndex && layerNames[SelectionIndex] == ClickedPointName
    ensures o.Query? ==> o.text == BuildQuery(lon, lat, matches)
  {
    if |layerNames| <= SelectionIndex then NoLayer
    else if layerNames[SelectionIndex] != ClickedPointName then NeedsClick
    else Query(BuildQuery(lon, lat, matches))
  }

  /** A press that builds a query asks for the clicked point's neighbours, matches + 1 of them with the seed. */
  lemma RunSearchAsks(layerNames: seq<string>, lon: string, lat: string, matches: nat)
    requires CoordinateText(lon) && CoordinateText(lat)
    requires |layerNames| > SelectionIndex && layerNames[SelectionIndex] == ClickedPointName
    ensures RunSearch(layerNames, lon, lat, matches) == Query(BuildQuery(lon, lat, matches))
    ensures Decode(RunSearch(layerNames, lon, lat, matches).text) == Some(Intended(lon, lat, matches))
  {
    DecodeBuildQuery(lon, lat, matches);
  }

  /** The slider's range, step and starting value: ui.Slider(0, 100, 10, 10, ...). */
  const SliderMin: int := 0
  const SliderMax: int := 100
  const SliderStep: int := 10
  const SliderDefault: int := 10

  /** The values the slider can take. */
  predicate IsSliderValue(v: int) {
    SliderMin <= v <= SliderMax && (v - SliderMin) % SliderStep == 0
  }

  /** The starting value is one the slider can take. */
  lemma SliderDefaultAllowed()
    ensures IsSliderValue(SliderDefault)
  {
  }

  /** The slider's change callback hands back the value it is given. */
  function UpdateSlider(c: int): (v: int)
    ensures v == c
  {
    var v := c;
    v
  }

  /**
   * With any slider value, a query that is built asks the engine for between
   * 1 and 101 neighbours and returns at most 100 rows.
   */
  lemma SliderBoundsQuery(layerNames: seq<string>, lon: string, lat: string, v: int)
    requires IsSliderValue(v)
    requires CoordinateText(lon) && CoordinateText(lat)
    requires RunSearch(layerNames, lon, lat, v).Query?
    ensures Decode(RunSearch(layerNames, lon, lat, v).text).Some?
    ensures var t := Decode(RunSearch(layerNames, lon, lat, v).text).value;
            1 <= t.search.topK <= 101 && t.limit <= 100 && t.offset == 1
  {
    RunSearchAsks(layerNames, lon, lat, v);
  }
}
