/**
 * The home page: it reads the coordinates from the search parameters, fetches today's
 * weather and lightning count for them, and offers links that open each composition
 * with today's values or with the values of an earlier day.
 *
 * The two fetches are not modelled; each outcome is an input (`None` for a rejected
 * request). Weather values are integers here.
 */
module HomePage {
  import opened Wrappers
  import opened JsText
  import opened CompositionsInfo

  // ---------------------------------------------------------------------------
  // Coordinates

  /** `searchParams.hasOwnProperty(key) ? searchParams[key] : "0"`. */
  function CoordinateParam(searchParams: map<string, string>, key: string): (r: string)
    ensures key in searchParams ==> r == searchParams[key]
    ensures key !in searchParams ==> r == "0"
  {
    if key in searchParams then searchParams[key] else "0"
  }

  // ---------------------------------------------------------------------------
  // Today's data

  /** The wind object of a weather response. */
  datatype Wind = Wind(speed: int, deg: int)

  /** The part of the weather response the page reads. Each object the page reads a
      field of is `None` when the response lacks it (`main` holds only `temp` here);
      reading a field of a missing object throws. */
  datatype WeatherResponse = WeatherResponse(main: Option<int>, rain: Option<map<string, int>>, wind: Option<Wind>)

  /** The response has every object the data block reads, so no step before the
      lightning request throws. */
  predicate Complete(w: WeatherResponse) {
    w.main.Some? && w.rain.Some? && w.wind.Some?
  }

  /** The requests the page issues, in order. */
  datatype Request = GetWeather(lat: string, lon: string) | GetLightning(lat: string, lon: string, radius: int)

  /** The page's local variables once the data block has run. */
  datatype TodayData = TodayData(
    weatherData: Option<WeatherResponse>,
    temperature: int,
    rain: int,
    lightningCount: int,
    windSpeed: int,
    windDeg: int,
    error: Option<string>)

  /** The radius of the lightning query. */
  const LightningRadius: int := 50

  /** What the data block leaves behind for coordinates `lat`, `lon` and the two fetch
      outcomes: the variables `d` and the requests issued, in order. */
  predicate Loaded(lat: string, lon: string, weather: Option<WeatherResponse>, lightning: Option<int>,
                   d: TodayData, requests: seq<Request>)
  {
    && d.error == None
    && 1 <= |requests| <= 2 && requests[0] == GetWeather(lat, lon)
    && (|requests| == 2 <==> weather.Some? && Complete(weather.value))
    && (|requests| == 2 ==> requests[1] == GetLightning(lat, lon, 50))
    && (weather.None? ==> d == TodayData(None, 0, 0, 0, 0, 0, None))
    && (weather.Some? ==> d.weatherData == weather)
    && (weather.Some? && weather.value.main.None? ==>
          d.temperature == 0 && d.rain == 0 && d.windSpeed == 0 && d.windDeg == 0 && d.lightningCount == 0)
    && (weather.Some? && weather.value.main.Some? ==> d.temperature == weather.value.main.value)
    && (weather.Some? && weather.value.main.Some? && weather.value.rain.None? ==>
          d.rain == 0 && d.windSpeed == 0 && d.windDeg == 0 && d.lightningCount == 0)
    && (weather.Some? && weather.value.main.Some? && weather.value.rain.Some? ==>
          var rain := weather.value.rain.value;
          && ("1h" in rain ==> d.rain == rain["1h"])
          && ("1h" !in rain ==> d.rain == 0))
    && (weather.Some? && weather.value.main.Some? && weather.value.rain.Some? && weather.value.wind.None? ==>
          d.windSpeed == 0 && d.windDeg == 0 && d.lightningCount == 0)
    && (weather.Some? && Complete(weather.value) ==>
          var w := weather.value;
          && d.windSpeed == w.wind.value.speed && d.windDeg == w.wind.value.deg
          && d.lightningCount == lightning.GetOr(0))
  }

  /** `Loaded` leaves nothing open: for given coordinates and fetch outcomes there is
      exactly one outcome of the data block. */
  lemma LoadedDeterminesResult(lat: string, lon: string, weather: Option<WeatherResponse>, lightning: Option<int>,
                               d1: TodayData, requests1: seq<Request>, d2: TodayData, requests2: seq<Request>)
    requires Loaded(lat, lon, weather, lightning, d1, requests1)
    requires Loaded(lat, lon, weather, lightning, d2, requests2)
    ensures d1 == d2 && requests1 == requests2
  {
    if |requests1| == 1 {
      assert requests1 == [GetWeather(lat, lon)] == requests2;
    } else {
      assert requests1 == [GetWeather(lat, lon), GetLightning(lat, lon, 50)] == requests2;
    }
  }

  /** The data block of the page: every variable starts at null or 0 and is updated in
      turn. Reading `main.temp` (line 94), `rain` (line 96) or `wind` (lines 100-101) of a
      response that lacks that object throws, and so does a rejected request or a null
      lightning result (line 103); the first step that throws abandons the rest. The
      catch handler only assigns its own parameter, so `error` stays null. A rejected
      request and a null result are both `None`. */
  method LoadTodayData(lat: string, lon: string, weather: Option<WeatherResponse>, lightning: Option<int>)
    returns (d: TodayData, requests: seq<Request>)
    ensures Loaded(lat, lon, weather, lightning, d, requests)
  {
    var weatherData: Option<WeatherResponse> := None;
    var temperatureData, rainData, lightningCountData, windSpeedData, windDegData := 0, 0, 0, 0, 0;
    var error: Option<string> := None;
    requests := [GetWeather(lat, lon)];
    if weather.Some? {
      var w := weather.value;
      weatherData := Some(w);
      if w.main.Some? {
        temperatureData := w.main.value;
        if w.rain.Some? {
          var rain := w.rain.value;
          rainData := if "1h" in rain then rain["1h"] else 0;
          if w.wind.Some? {
            windSpeedData := w.wind.value.speed;
            windDegData := w.wind.value.deg;
            requests := requests + [GetLightning(lat, lon, LightningRadius)];
            if lightning.Some? {
              lightningCountData := lightning.value;
            }
          }
        }
      }
    }
    d := TodayData(weatherData, temperatureData, rainData, lightningCountData, windSpeedData, windDegData, error);
  }

  // ---------------------------------------------------------------------------
  // Attribute strings and composition links

  /** An attribute value: `string | number`. */
  datatype Value = Text(s: string) | Number(n: int)

  /** `${value}` */
  function ValueText(v: Value): string {
    match v
    case Text(s) => s
    case Number(n) => NumberText(n)
  }

  /** An attribute object, as its entries in `Object.keys` order. */
  type AttributeObject = seq<(string, Value)>

  /** The first key of an object and its value as text; an object without keys gives
      `undefined` for both. */
  function FirstEntry(attr: AttributeObject): (string, string) {
    if attr == [] then ("undefined", "undefined") else (attr[0].0, ValueText(attr[0].1))
  }

  /** `${key}=${attr[key]}` for the first key of `attr`. */
  function Segment(attr: AttributeObject): string {
    FirstEntry(attr).0 + "=" + FirstEntry(attr).1
  }

  function Segments(attrs: seq<AttributeObject>): (r: seq<string>)
    ensures |r| == |attrs|
  {
    seq(|attrs|, i requires 0 <= i < |attrs| => Segment(attrs[i]))
  }

  /** `attributesString`: the segments joined by "&". */
  function AttributesString(attrs: seq<AttributeObject>): string {
    Join(Segments(attrs), '&')
  }

  /** `/compositions/${name}/?lat=${lat}&lon=${lon}&${attributesString}` */
  function CompositionLink(c: CompositionName, lat: string, lon: string, attrs: seq<AttributeObject>): string {
    "/compositions/" + Key(c) + "/?lat=" + lat + "&lon=" + lon + "&" + AttributesString(attrs)
  }

  /** The query part of a link: everything after its first '?'. */
  function QueryOf(href: string): string {
    BreakAt(href, '?').1
  }

  /** The key/value pairs a list of attribute objects contributes. */
  function Pairs(attrs: seq<AttributeObject>): (r: seq<(string, string)>)
    ensures |r| == |attrs|
  {
    seq(|attrs|, i requires 0 <= i < |attrs| => FirstEntry(attrs[i]))
  }

  /** No first key and no first value contains '&', so every segment stays one piece. */
  predicate SegmentSafe(attrs: seq<AttributeObject>) {
    forall i :: 0 <= i < |attrs| ==> '&' !in FirstEntry(attrs[i]).0 && '&' !in FirstEntry(attrs[i]).1
  }

  /** The segments stay whole and no first key contains '=', so each segment reads back
      as its pair. */
  predicate QuerySafe(attrs: seq<AttributeObject>) {
    && SegmentSafe(attrs)
    && forall i :: 0 <= i < |attrs| ==> '=' !in FirstEntry(attrs[i]).0
  }

  /** Only the first key of an attribute object is used. */
  lemma FirstKeyOnly(attr: AttributeObject, more: AttributeObject)
    requires attr != []
    ensures Segment(attr + more) == Segment(attr)
  {
  }

  /** `attributesString` has one segment per attribute object, in list order. */
  lemma AttributesStringSegments(attrs: seq<AttributeObject>)
    requires SegmentSafe(attrs)
    ensures attrs == [] ==> AttributesString(attrs) == ""
    ensures attrs != [] ==> Split(AttributesString(attrs), '&') == Segments(attrs)
  {
    if attrs != [] {
      var segs := Segments(attrs);
      forall i | 0 <= i < |segs| ensures '&' !in segs[i] {
        assert segs[i] == FirstEntry(attrs[i]).0 + "=" + FirstEntry(attrs[i]).1;
      }
      SplitJoin(segs, '&');
    }
  }

  /** The path of a link: everything before its first '?'. */
  function PathOf(href: string): string {
    BreakAt(href, '?').0
  }

  const CompositionsDir: string := "/compositions/"

  /** The composition a link opens: the name between `/compositions/` and the next '/'
      of its path, if it names one. */
  function LinkedComposition(href: string): Option<CompositionName> {
    var path := PathOf(href);
    if |CompositionsDir| <= |path| && path[..|CompositionsDir|] == CompositionsDir then
      ParseName(BreakAt(path[|CompositionsDir|..], '/').0)
    else
      None
  }

  /** A composition link splits at its first '?' into the composition's path and the query. */
  lemma {:induction false} LinkParts(c: CompositionName, lat: string, lon: string, attrs: seq<AttributeObject>)
    ensures BreakAt(CompositionLink(c, lat, lon, attrs), '?')
      == ("/compositions/" + Key(c) + "/", "lat=" + lat + "&lon=" + lon + "&" + AttributesString(attrs))
  {
    var path := "/compositions/" + Key(c) + "/";
    var q := "lat=" + lat + "&lon=" + lon + "&" + AttributesString(attrs);
    KeyIsPathSafe(c);
    assert '?' !in path;
    assert CompositionLink(c, lat, lon, attrs) == path + ['?'] + q;
    BreakAtPair(path, '?', q);
  }

  /** A composition link's path is `/compositions/<key>/`, and it opens that composition. */
  lemma {:induction false} CompositionLinkPath(c: CompositionName, lat: string, lon: string, attrs: seq<AttributeObject>)
    ensures PathOf(CompositionLink(c, lat, lon, attrs)) == "/compositions/" + Key(c) + "/"
    ensures LinkedComposition(CompositionLink(c, lat, lon, attrs)) == Some(c)
  {
    LinkParts(c, lat, lon, attrs);
    var path := "/compositions/" + Key(c) + "/";
    assert path[..|CompositionsDir|] == CompositionsDir;
    assert path[|CompositionsDir|..] == Key(c) + ['/'] + "";
    KeyIsPathSafe(c);
    BreakAtPair(Key(c), '/', "");
    KeyRoundTrip(c, Key(c));
  }

  /** Every composition link, whatever its attributes, opens its own composition. */
  lemma LinksOpenTheirComposition(lat: string, lon: string)
    ensures forall c, attrs :: LinkedComposition(CompositionLink(c, lat, lon, attrs)) == Some(c)
  {
    forall c, attrs ensures LinkedComposition(CompositionLink(c, lat, lon, attrs)) == Some(c) {
      CompositionLinkPath(c, lat, lon, attrs);
    }
  }

  /** The query of a composition link splits into the `lat` piece, the `lon` piece and
      the pieces of the attribute string. */
  lemma {:induction false} QueryPieces(lat: string, lon: string, a: string)
    requires '&' !in lat && '&' !in lon
    ensures Split("lat=" + lat + "&lon=" + lon + "&" + a, '&') == ["lat=" + lat, "lon=" + lon] + Split(a, '&')
  {
    var latPart, lonPart := "lat=" + lat, "lon=" + lon;
    assert "lat=" + lat + "&lon=" + lon + "&" + a == latPart + ['&'] + (lonPart + ['&'] + a);
    SplitAfterPiece(latPart, '&', lonPart + ['&'] + a);
    SplitAfterPiece(lonPart, '&', a);
  }

  /** A `name=value` piece whose name is free of '=' reads back as that pair. */
  lemma NamedPiece(name: string, value: string)
    requires '=' !in name
    ensures BreakAt(name + "=" + value, '=') == (name, value)
  {
    assert name + "=" + value == name + ['='] + value;
    BreakAtPair(name, '=', value);
  }

  /** The segments of a safe attribute list read back as the first keys and values. */
  lemma SegmentsReadBack(attrs: seq<AttributeObject>)
    requires QuerySafe(attrs)
    ensures ReadPairs(Segments(attrs)) == Pairs(attrs)
  {
    forall i | 0 <= i < |attrs| ensures BreakAt(Segments(attrs)[i], '=') == FirstEntry(attrs[i]) {
      NamedPiece(FirstEntry(attrs[i]).0, FirstEntry(attrs[i]).1);
    }
  }

  /** The query of a composition link reads back as `lat`, `lon` and the attribute pairs. */
  lemma {:induction false} QueryReadBack(lat: string, lon: string, attrs: seq<AttributeObject>)
    requires '&' !in lat && '&' !in lon && QuerySafe(attrs)
    ensures ParseQuery("lat=" + lat + "&lon=" + lon + "&" + AttributesString(attrs))
      == [("lat", lat), ("lon", lon)] + (if attrs == [] then [("", "")] else Pairs(attrs))
  {
    var a := AttributesString(attrs);
    QueryPieces(lat, lon, a);
    ReadPairsAppend(["lat=" + lat, "lon=" + lon], Split(a, '&'));
    assert ReadPairs(["lat=" + lat, "lon=" + lon]) == [("lat", lat), ("lon", lon)] by {
      assert "lat=" + lat == "lat" + "=" + lat;
      assert "lon=" + lon == "lon" + "=" + lon;
      NamedPiece("lat", lat);
      NamedPiece("lon", lon);
    }
    AttributesStringSegments(attrs);
    if attrs == [] {
      assert Split(a, '&') == [""];
      assert BreakAt("", '=') == ("", "");
    } else {
      SegmentsReadBack(attrs);
    }
  }

  /** Reading a composition link's query back gives `lat`, `lon` and then the first
      key and value of each attribute object, in order; with no attributes the trailing
      "&" leaves one empty pair. */
  lemma {:induction false} CompositionLinkQuery(c: CompositionName, lat: string, lon: string, attrs: seq<AttributeObject>)
    requires '&' !in lat && '&' !in lon && QuerySafe(attrs)
    ensures ParseQuery(QueryOf(CompositionLink(c, lat, lon, attrs)))
      == [("lat", lat), ("lon", lon)] + (if attrs == [] then [("", "")] else Pairs(attrs))
  {
    LinkParts(c, lat, lon, attrs);
    QueryReadBack(lat, lon, attrs);
  }

  // ---------------------------------------------------------------------------
  // Today's links

  /** The link of today's card to composition `c`, as its template writes it; the card
      has no link to curves. */
  function TodayHref(c: CompositionName, lat: string, lon: string, d: TodayData): Option<string> {
    match c
    case Lluvia => Some("/compositions/lluvia/?lat=" + lat + "&lon=" + lon + "&rain=" + NumberText(d.rain))
    case Zigzag => Some("/compositions/zigzag/?lat=" + lat + "&lon=" + lon + "&rain=" + NumberText(d.rain)
        + "&lightningCount=" + NumberText(d.lightningCount))
    case ColorFlower => Some("/compositions/colorFlower/?lat=" + lat + "&lon=" + lon
        + "&temperature=" + NumberText(d.temperature))
    case StormEye => Some("/compositions/stormEye/?lat=" + lat + "&lon=" + lon + "&windSpeed=" + NumberText(d.windSpeed)
        + "&windDeg=" + NumberText(d.windDeg) + "&temperature=" + NumberText(d.temperature))
    case Curves => None
  }

  /** The attributes today's link to `c` carries, as single-key attribute objects. */
  function TodayAttributes(c: CompositionName, d: TodayData): seq<AttributeObject> {
    match c
    case Lluvia => [[("rain", Number(d.rain))]]
    case Zigzag => [[("rain", Number(d.rain))], [("lightningCount", Number(d.lightningCount))]]
    case ColorFlower => [[("temperature", Number(d.temperature))]]
    case StormEye =>
      [[("windSpeed", Number(d.windSpeed))], [("windDeg", Number(d.windDeg))], [("temperature", Number(d.temperature))]]
    case Curves => []
  }

  /** Every key of a list of attribute objects is the only key of its object and is
      declared for composition `c`. */
  predicate KeysDeclared(c: CompositionName, attrs: seq<AttributeObject>) {
    forall i :: 0 <= i < |attrs| ==> |attrs[i]| == 1 && attrs[i][0].0 in InfoOf(c).attributes
  }

  /** Numbers are written as plain decimal text, so numeric attributes are always safe. */
  lemma NumbersAreQuerySafe(attrs: seq<AttributeObject>)
    requires forall i :: 0 <= i < |attrs| ==> attrs[i] != [] && attrs[i][0].1.Number?
    requires forall i :: 0 <= i < |attrs| ==> '&' !in attrs[i][0].0 && '=' !in attrs[i][0].0
    ensures QuerySafe(attrs)
  {
    forall i | 0 <= i < |attrs| ensures '&' !in FirstEntry(attrs[i]).1 {
      NumberTextIsQuerySafe(attrs[i][0].1.n);
    }
  }

  lemma OneSegment(k1: string, v1: Value)
    ensures AttributesString([[(k1, v1)]]) == k1 + "=" + ValueText(v1)
  {
    assert Segments([[(k1, v1)]]) == [k1 + "=" + ValueText(v1)];
  }

  lemma TwoSegments(k1: string, v1: Value, k2: string, v2: Value)
    ensures AttributesString([[(k1, v1)], [(k2, v2)]])
      == k1 + "=" + ValueText(v1) + "&" + k2 + "=" + ValueText(v2)
  {
    var segs := Segments([[(k1, v1)], [(k2, v2)]]);
    assert segs == [k1 + "=" + ValueText(v1), k2 + "=" + ValueText(v2)];
    assert Join(segs, '&') == segs[0] + ['&'] + Join(segs[1..], '&');
  }

  lemma ThreeSegments(k1: string, v1: Value, k2: string, v2: Value, k3: string, v3: Value)
    ensures AttributesString([[(k1, v1)], [(k2, v2)], [(k3, v3)]])
      == k1 + "=" + ValueText(v1) + "&" + k2 + "=" + ValueText(v2) + "&" + k3 + "=" + ValueText(v3)
  {
    var s1, s2, s3 := k1 + "=" + ValueText(v1), k2 + "=" + ValueText(v2), k3 + "=" + ValueText(v3);
    assert Segments([[(k1, v1)], [(k2, v2)], [(k3, v3)]]) == [s1, s2, s3];
    JoinThree(s1, s2, s3);
  }

  /** Three parts joined by "&". */
  lemma JoinThree(s1: string, s2: string, s3: string)
    ensures Join([s1, s2, s3], '&') == s1 + "&" + s2 + "&" + s3
  {
    assert Join([s2, s3], '&') == s2 + ['&'] + s3 by {
      assert [s2, s3][1..] == [s3];
    }
    assert Join([s1, s2, s3], '&') == s1 + ['&'] + Join([s2, s3], '&') by {
      assert [s1, s2, s3][1..] == [s2, s3];
    }
  }


  /** The common head of every composition link. */
  lemma LinkHead(c: CompositionName, lat: string, lon: string, attrs: seq<AttributeObject>)
    ensures CompositionLink(c, lat, lon, attrs)
      == ("/compositions/" + Key(c) + "/?lat=" + lat + "&lon=" + lon) + "&" + AttributesString(attrs)
  {
  }

  /** Regrouping a template with two `&key=` pieces into a head and an attribute string. */
  lemma RegroupTwo(head: string, t1: string, k1: string, v1: string, t2: string, k2: string, v2: string)
    requires t1 == "&" + k1 + "=" && t2 == "&" + k2 + "="
    ensures head + t1 + v1 + t2 + v2 == head + "&" + (k1 + "=" + v1 + "&" + k2 + "=" + v2)
  {
  }

  /** Regrouping a template with three `&key=` pieces into a head and an attribute string. */
  lemma RegroupThree(head: string, t1: string, k1: string, v1: string, t2: string, k2: string, v2: string,
                     t3: string, k3: string, v3: string)
    requires t1 == "&" + k1 + "=" && t2 == "&" + k2 + "=" && t3 == "&" + k3 + "="
    ensures head + t1 + v1 + t2 + v2 + t3 + v3
      == head + "&" + (k1 + "=" + v1 + "&" + k2 + "=" + v2 + "&" + k3 + "=" + v3)
  {
  }

  lemma LluviaTodayLink(lat: string, lon: string, d: TodayData)
    ensures TodayHref(Lluvia, lat, lon, d) == Some(CompositionLink(Lluvia, lat, lon, TodayAttributes(Lluvia, d)))
  {
    var head := "/compositions/lluvia/?lat=" + lat + "&lon=" + lon;
    assert head == "/compositions/" + Key(Lluvia) + "/?lat=" + lat + "&lon=" + lon;
    var rain := NumberText(d.rain);
    var attrs := TodayAttributes(Lluvia, d);
    var a := "rain" + "=" + rain;
    assert AttributesString(attrs) == a by {
      OneSegment("rain", Number(d.rain));
    }
    assert CompositionLink(Lluvia, lat, lon, attrs) == head + "&" + a by {
      LinkHead(Lluvia, lat, lon, attrs);
    }
    assert TodayHref(Lluvia, lat, lon, d).value == head + "&" + a by {
      assert "&rain=" == "&" + "rain" + "=";
      assert head + "&rain=" + rain == head + "&" + a;
    }
  }

  lemma ZigzagTodayLink(lat: string, lon: string, d: TodayData)
    ensures TodayHref(Zigzag, lat, lon, d) == Some(CompositionLink(Zigzag, lat, lon, TodayAttributes(Zigzag, d)))
  {
    var head := "/compositions/zigzag/?lat=" + lat + "&lon=" + lon;
    assert head == "/compositions/" + Key(Zigzag) + "/?lat=" + lat + "&lon=" + lon;
    var rain, count := NumberText(d.rain), NumberText(d.lightningCount);
    var attrs := TodayAttributes(Zigzag, d);
    var a := "rain" + "=" + rain + "&" + "lightningCount" + "=" + count;
    assert AttributesString(attrs) == a by {
      TwoSegments("rain", Number(d.rain), "lightningCount", Number(d.lightningCount));
    }
    assert CompositionLink(Zigzag, lat, lon, attrs) == head + "&" + a by {
      LinkHead(Zigzag, lat, lon, attrs);
    }
    assert TodayHref(Zigzag, lat, lon, d).value == head + "&" + a by {
      assert "&rain=" == "&" + "rain" + "=";
      assert "&lightningCount=" == "&" + "lightningCount" + "=";
      RegroupTwo(head, "&rain=", "rain", rain, "&lightningCount=", "lightningCount", count);
    }
  }

  lemma ColorFlowerTodayLink(lat: string, lon: string, d: TodayData)
    ensures TodayHref(ColorFlower, lat, lon, d) == Some(CompositionLink(ColorFlower, lat, lon, TodayAttributes(ColorFlower, d)))
  {
    var head := "/compositions/colorFlower/?lat=" + lat + "&lon=" + lon;
    assert head == "/compositions/" + Key(ColorFlower) + "/?lat=" + lat + "&lon=" + lon;
    var temp := NumberText(d.temperature);
    var attrs := TodayAttributes(ColorFlower, d);
    var a := "temperature" + "=" + temp;
    assert AttributesString(attrs) == a by {
      OneSegment("temperature", Number(d.temperature));
    }
    assert CompositionLink(ColorFlower, lat, lon, attrs) == head + "&" + a by {
      LinkHead(ColorFlower, lat, lon, attrs);
    }
    assert TodayHref(ColorFlower, lat, lon, d).value == head + "&" + a by {
      assert "&temperature=" == "&" + "temperature" + "=";
      assert head + "&temperature=" + temp == head + "&" + a;
    }
  }

  lemma StormEyeTodayLink(lat: string, lon: string, d: TodayData)
    ensures TodayHref(StormEye, lat, lon, d) == Some(CompositionLink(StormEye, lat, lon, TodayAttributes(StormEye, d)))
  {
    var head := "/compositions/stormEye/?lat=" + lat + "&lon=" + lon;
    assert head == "/compositions/" + Key(StormEye) + "/?lat=" + lat + "&lon=" + lon;
    var speed, deg, temp := NumberText(d.windSpeed), NumberText(d.windDeg), NumberText(d.temperature);
    var attrs := TodayAttributes(StormEye, d);
    var a := "windSpeed" + "=" + speed + "&" + "windDeg" + "=" + deg + "&" + "temperature" + "=" + temp;
    assert AttributesString(attrs) == a by {
      ThreeSegments("windSpeed", Number(d.windSpeed), "windDeg", Number(d.windDeg), "temperature", Number(d.temperature));
    }
    assert CompositionLink(StormEye, lat, lon, attrs) == head + "&" + a by {
      LinkHead(StormEye, lat, lon, attrs);
    }
    assert TodayHref(StormEye, lat, lon, d).value == head + "&" + a by {
      assert "&windSpeed=" == "&" + "windSpeed" + "=";
      assert "&windDeg=" == "&" + "windDeg" + "=";
      assert "&temperature=" == "&" + "temperature" + "=";
      RegroupThree(head, "&windSpeed=", "windSpeed", speed, "&windDeg=", "windDeg", deg,
        "&temperature=", "temperature", temp);
    }
  }

  /** Today's card links to every composition but curves, and each of its links is the
      composition link of that composition with its today attributes. */
  lemma TodayLinksAreCompositionLinks(c: CompositionName, lat: string, lon: string, d: TodayData)
    ensures TodayHref(c, lat, lon, d).Some? <==> c != Curves
    ensures c != Curves ==> TodayHref(c, lat, lon, d) == Some(CompositionLink(c, lat, lon, TodayAttributes(c, d)))
  {
    match c
    case Lluvia => LluviaTodayLink(lat, lon, d);
    case Zigzag => ZigzagTodayLink(lat, lon, d);
    case ColorFlower => ColorFlowerTodayLink(lat, lon, d);
    case StormEye => StormEyeTodayLink(lat, lon, d);
    case Curves =>
  }

  /** Today's link to `c` opens `c`. */
  lemma TodayLinkPath(c: CompositionName, lat: string, lon: string, d: TodayData)
    requires c != Curves
    ensures LinkedComposition(TodayHref(c, lat, lon, d).value) == Some(c)
  {
    TodayLinksAreCompositionLinks(c, lat, lon, d);
    CompositionLinkPath(c, lat, lon, TodayAttributes(c, d));
  }

  /** The query of today's link to `c` reads back as `lat`, `lon` and its today attributes. */
  lemma TodayLinkQuery(c: CompositionName, lat: string, lon: string, d: TodayData)
    requires '&' !in lat && '&' !in lon && c != Curves
    ensures ParseQuery(QueryOf(TodayHref(c, lat, lon, d).value))
      == [("lat", lat), ("lon", lon)] + Pairs(TodayAttributes(c, d))
  {
    TodayLinksAreCompositionLinks(c, lat, lon, d);
    NumbersAreQuerySafe(TodayAttributes(c, d));
    CompositionLinkQuery(c, lat, lon, TodayAttributes(c, d));
  }

  /** Today's links carry exactly these attributes, with the decimal text of their values:
      lluvia the rain, zigzag the rain and the lightning count, colorFlower the temperature
      and stormEye the wind speed, wind direction and temperature. */
  lemma TodayPairs(d: TodayData)
    ensures Pairs(TodayAttributes(Lluvia, d)) == [("rain", NumberText(d.rain))]
    ensures Pairs(TodayAttributes(Zigzag, d))
      == [("rain", NumberText(d.rain)), ("lightningCount", NumberText(d.lightningCount))]
    ensures Pairs(TodayAttributes(ColorFlower, d)) == [("temperature", NumberText(d.temperature))]
    ensures Pairs(TodayAttributes(StormEye, d))
      == [("windSpeed", NumberText(d.windSpeed)), ("windDeg", NumberText(d.windDeg)),
          ("temperature", NumberText(d.temperature))]
  {
  }

  /** Every attribute a today link carries is declared for its composition. */
  lemma TodayKeysDeclared(c: CompositionName, d: TodayData)
    ensures KeysDeclared(c, TodayAttributes(c, d))
    ensures c != Curves ==> TodayAttributes(c, d) != []
  {
  }

  // ---------------------------------------------------------------------------
  // Composition history

  /** One earlier composition listed on the page (its date is not modelled). */
  datatype HistoryItem = HistoryItem(
    id: string,
    description: string,
    composition: CompositionName,
    attributes: seq<AttributeObject>,
    thumb: string)

  /** `compositionHistory`; `thumb` is the file name of the imported image. */
  const CompositionHistory: seq<HistoryItem> := [
    HistoryItem("day 4", "A warm day with clear sky and some wind.", StormEye,
      [[("temperature", Number(32))], [("windSpeed", Number(4))], [("windDeg", Number(45))]], "storm-eye.png"),
    HistoryItem("day 3", "A warm day with clear sky.", ColorFlower,
      [[("temperature", Number(32))]], "color-flower.png"),
    HistoryItem("day 2", "A cloudy day with some evening rain.", Lluvia,
      [[("rain", Number(6))]], "lluvia.png"),
    HistoryItem("day 1", "A rainy day with lots of lightning", Zigzag,
      [[("rain", Number(20))], [("lightningCount", Number(20))]], "zig-zag.png")
  ]

  /** The link of each history card; each opens its item's composition. */
  function HistoryLinks(lat: string, lon: string): (r: seq<string>)
    ensures |r| == |CompositionHistory|
    ensures forall k :: 0 <= k < |r| ==> LinkedComposition(r[k]) == Some(CompositionHistory[k].composition)
  {
    LinksOpenTheirComposition(lat, lon);
    seq(|CompositionHistory|, k requires 0 <= k < |CompositionHistory| =>
      CompositionLink(CompositionHistory[k].composition, lat, lon, CompositionHistory[k].attributes))
  }

  /** Every history item uses only attributes declared for its composition, one key per
      object, and shows the thumbnail the metadata table lists for it. */
  lemma HistoryAgreesWithTable()
    ensures forall k :: 0 <= k < |CompositionHistory| ==>
      var item := CompositionHistory[k];
      KeysDeclared(item.composition, item.attributes) && item.attributes != []
      && item.thumb == InfoOf(item.composition).thumb
  {
  }

  /** Each history link reads back as `lat`, `lon` and then the item's attributes, in order. */
  lemma HistoryLinkQueries(lat: string, lon: string)
    requires '&' !in lat && '&' !in lon
    ensures forall k :: 0 <= k < |CompositionHistory| ==>
      ParseQuery(QueryOf(HistoryLinks(lat, lon)[k]))
        == [("lat", lat), ("lon", lon)] + Pairs(CompositionHistory[k].attributes)
  {
    forall k | 0 <= k < |CompositionHistory|
      ensures ParseQuery(QueryOf(HistoryLinks(lat, lon)[k]))
        == [("lat", lat), ("lon", lon)] + Pairs(CompositionHistory[k].attributes)
    {
      var item := CompositionHistory[k];
      NumbersAreQuerySafe(item.attributes);
      CompositionLinkQuery(item.composition, lat, lon, item.attributes);
    }
  }

  // ---------------------------------------------------------------------------
  // The page

  /** The compositions today's card links to, in the card's order. */
  const TodayCards: seq<CompositionName> := [Lluvia, Zigzag, ColorFlower, StormEye]

  /** The four links of today's card. */
  function TodayLinks(lat: string, lon: string, d: TodayData): (r: seq<string>)
    ensures |r| == |TodayCards|
    ensures forall k :: 0 <= k < |r| ==> TodayHref(TodayCards[k], lat, lon, d) == Some(r[k])
  {
    [TodayHref(Lluvia, lat, lon, d).value, TodayHref(Zigzag, lat, lon, d).value,
     TodayHref(ColorFlower, lat, lon, d).value, TodayHref(StormEye, lat, lon, d).value]
  }

  /** Each link of today's card opens the composition of its place on the card. */
  lemma TodayLinksOpen(lat: string, lon: string, d: TodayData)
    ensures forall k :: 0 <= k < |TodayCards| ==>
      LinkedComposition(TodayLinks(lat, lon, d)[k]) == Some(TodayCards[k])
  {
    forall k | 0 <= k < |TodayCards|
      ensures LinkedComposition(TodayLinks(lat, lon, d)[k]) == Some(TodayCards[k])
    {
      TodayLinkPath(TodayCards[k], lat, lon, d);
    }
  }

  /** The first two pairs of `[a, b] + rest` are `a` and `b`. */
  lemma FirstTwo<T>(q: seq<T>, a: T, b: T, rest: seq<T>)
    requires q == [a, b] + rest
    ensures |q| >= 2 && q[0] == a && q[1] == b
  {
  }

  /** Reading the link's query back gives `lat` and then `lon` as its first two pairs. */
  predicate StartsWithCoordinates(href: string, lat: string, lon: string) {
    var q := ParseQuery(QueryOf(href));
    |q| >= 2 && q[0] == ("lat", lat) && q[1] == ("lon", lon)
  }

  /** A composition link's query starts with its coordinates. */
  lemma CoordinatesFirst(c: CompositionName, lat: string, lon: string, attrs: seq<AttributeObject>)
    requires '&' !in lat && '&' !in lon && QuerySafe(attrs)
    ensures StartsWithCoordinates(CompositionLink(c, lat, lon, attrs), lat, lon)
  {
    CompositionLinkQuery(c, lat, lon, attrs);
    FirstTwo(ParseQuery(QueryOf(CompositionLink(c, lat, lon, attrs))), ("lat", lat), ("lon", lon),
      if attrs == [] then [("", "")] else Pairs(attrs));
  }

  /** Every link of today's card carries the page's coordinates. */
  lemma TodayLinksCarryCoordinates(lat: string, lon: string, d: TodayData)
    requires '&' !in lat && '&' !in lon
    ensures forall k :: 0 <= k < |TodayCards| ==> StartsWithCoordinates(TodayLinks(lat, lon, d)[k], lat, lon)
  {
    forall k | 0 <= k < |TodayCards| ensures StartsWithCoordinates(TodayLinks(lat, lon, d)[k], lat, lon) {
      var c, href := TodayCards[k], TodayLinks(lat, lon, d)[k];
      assert TodayHref(c, lat, lon, d).value == href;
      TodayLinkQuery(c, lat, lon, d);
      FirstTwo(ParseQuery(QueryOf(href)), ("lat", lat), ("lon", lon), Pairs(TodayAttributes(c, d)));
    }
  }

  /** Every history link carries the page's coordinates. */
  lemma HistoryLinksCarryCoordinates(lat: string, lon: string)
    requires '&' !in lat && '&' !in lon
    ensures forall k :: 0 <= k < |CompositionHistory| ==> StartsWithCoordinates(HistoryLinks(lat, lon)[k], lat, lon)
  {
    forall k | 0 <= k < |CompositionHistory| ensures StartsWithCoordinates(HistoryLinks(lat, lon)[k], lat, lon) {
      var item := CompositionHistory[k];
      NumbersAreQuerySafe(item.attributes);
      CoordinatesFirst(item.composition, lat, lon, item.attributes);
    }
  }

  /** One rendering of the page: the coordinates are read from the search parameters,
      today's data is loaded for them, today's links carry the loaded values, and every
      link carries the same coordinates. */
  method RenderPage(searchParams: map<string, string>, weather: Option<WeatherResponse>, lightning: Option<int>)
    returns (d: TodayData, requests: seq<Request>, today: seq<string>, history: seq<string>)
    ensures var lat, lon := CoordinateParam(searchParams, "lat"), CoordinateParam(searchParams, "lon");
      && Loaded(lat, lon, weather, lightning, d, requests)
      && today == TodayLinks(lat, lon, d) && history == HistoryLinks(lat, lon)
      && ('&' !in lat && '&' !in lon ==>
            && (forall k :: 0 <= k < |today| ==> StartsWithCoordinates(today[k], lat, lon))
            && (forall k :: 0 <= k < |history| ==> StartsWithCoordinates(history[k], lat, lon)))
  {
    var lat := CoordinateParam(searchParams, "lat");
    var lon := CoordinateParam(searchParams, "lon");
    d, requests := LoadTodayData(lat, lon, weather, lightning);
    today := TodayLinks(lat, lon, d);
    history := HistoryLinks(lat, lon);
    if '&' !in lat && '&' !in lon {
      TodayLinksCarryCoordinates(lat, lon, d);
      HistoryLinksCarryCoordinates(lat, lon);
    }
  }
}
