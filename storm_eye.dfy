/**
 * The Storm Eye composition: it turns its optional weather props into the concrete
 * values the drawing sketch receives, inside the debug wrapper.
 */
module StormEye {
  import opened Wrappers

  /** The props of `StormEye`; an omitted optional prop is `None`. */
  datatype Props = Props(
    lat: string,
    lon: string,
    debug: Option<bool>,
    today: Option<bool>,
    temperature: Option<int>,
    windDeg: Option<int>,
    windSpeed: Option<int>,
    play: bool)

  /** What the sketch receives. */
  datatype SketchProps = SketchProps(temperature: int, windDeg: int, windSpeed: int, play: bool)

  /** The rendered tree: the client wrapper with its debug flag around the sketch. */
  datatype Rendered = ClientWrapper(debug: bool, sketch: SketchProps)

  /** `StormEye(props)`: each missing weather value becomes 0; `debug` defaults to false;
      `today` only guards an empty branch. */
  function Render(p: Props): (r: Rendered)
    ensures p.temperature.Some? ==> r.sketch.temperature == p.temperature.value
    ensures p.temperature.None? ==> r.sketch.temperature == 0
    ensures p.windDeg.Some? ==> r.sketch.windDeg == p.windDeg.value
    ensures p.windDeg.None? ==> r.sketch.windDeg == 0
    ensures p.windSpeed.Some? ==> r.sketch.windSpeed == p.windSpeed.value
    ensures p.windSpeed.None? ==> r.sketch.windSpeed == 0
    ensures r.sketch.play == p.play
    ensures r.debug <==> p.debug == Some(true)
  {
    var temperatureData := p.temperature.GetOr(0);
    var windDegData := p.windDeg.GetOr(0);
    var windSpeedData := p.windSpeed.GetOr(0);
    var debug := p.debug.GetOr(false);
    ClientWrapper(debug, SketchProps(temperatureData, windDegData, windSpeedData, p.play))
  }

  /** The `today` flag changes nothing that is passed on. */
  lemma TodayHasNoEffect(p: Props, today: Option<bool>)
    ensures Render(p.(today := today)) == Render(p)
  {
  }

  /** `lat` and `lon` are accepted but never reach the sketch or the wrapper. */
  lemma CoordinatesAreUnused(p: Props, lat: string, lon: string)
    ensures Render(p.(lat := lat, lon := lon)) == Render(p)
  {
  }
}
