/**
 * The composition metadata table: for each of the five available compositions,
 * its name, the weather attributes it reads, the data endpoints it needs and the
 * file name of its thumbnail.
 */
module CompositionsInfo {
  import opened Wrappers

  /** `AvailableCompositionNames`: the closed set of composition keys. */
  datatype CompositionName = Lluvia | Zigzag | ColorFlower | StormEye | Curves

  /** One row of the table (the renderer component reference is not modelled). */
  datatype Info = Info(name: string, attributes: seq<string>, endpoints: seq<string>, thumb: string)

  const AllNames: set<CompositionName> := {Lluvia, Zigzag, ColorFlower, StormEye, Curves}

  /** The string key under which a composition is listed and addressed. */
  function Key(c: CompositionName): string {
    match c
    case Lluvia => "lluvia"
    case Zigzag => "zigzag"
    case ColorFlower => "colorFlower"
    case StormEye => "stormEye"
    case Curves => "curves"
  }

  /** The composition a string key names, if it names one. */
  function ParseName(s: string): (r: Option<CompositionName>)
    ensures r.Some? ==> Key(r.value) == s
  {
    if s == "lluvia" then Some(Lluvia)
    else if s == "zigzag" then Some(Zigzag)
    else if s == "colorFlower" then Some(ColorFlower)
    else if s == "stormEye" then Some(StormEye)
    else if s == "curves" then Some(Curves)
    else None
  }

  predicate Distinct(xs: seq<string>) {
    forall i, j :: 0 <= i < j < |xs| ==> xs[i] != xs[j]
  }

  predicate EndsWith(s: string, suffix: string) {
    |suffix| <= |s| && s[|s| - |suffix|..] == suffix
  }

  /** `CompositionsInfo[c]`: the table entry for composition `c`. */
  function InfoOf(c: CompositionName): (r: Info)
    ensures r.name == Key(c)
    ensures |r.attributes| >= 1 && Distinct(r.attributes)
    ensures |r.endpoints| >= 1
    ensures |r.thumb| > 4 && EndsWith(r.thumb, ".png")
  {
    match c
    case Lluvia => Info("lluvia", ["rain"], ["rainfall"], "lluvia.png")
    case Zigzag => Info("zigzag", ["rain", "lightningCount"], ["rainfall", "lightning"], "zig-zag.png")
    case ColorFlower => Info("colorFlower", ["temperature"], [""], "color-flower.png")
    case StormEye => Info("stormEye", ["temperature", "windSpeed", "windDeg"], [""], "storm-eye.png")
    case Curves => Info("curves", ["rain", "temperature"], ["rainfall"], "curves.png")
  }

  /** The table is total over exactly five distinct names, each with its own key. */
  lemma FiveCompositions()
    ensures |AllNames| == 5
    ensures forall c: CompositionName :: c in AllNames
    ensures forall c, d: CompositionName :: Key(c) == Key(d) ==> c == d
  {
    assert AllNames == {Lluvia} + {Zigzag} + {ColorFlower} + {StormEye} + {Curves};
    forall c: CompositionName ensures c in AllNames {
      match c
      case Lluvia =>
      case Zigzag =>
      case ColorFlower =>
      case StormEye =>
      case Curves =>
    }
  }

  /** Keys and names are inverse: every key parses back, and only the five keys parse. */
  lemma KeyRoundTrip(c: CompositionName, s: string)
    ensures ParseName(Key(c)) == Some(c)
    ensures ParseName(s).Some? <==> s in {"lluvia", "zigzag", "colorFlower", "stormEye", "curves"}
  {
  }

  /** No key contains a character that would end the path of a composition URL. */
  lemma KeyIsPathSafe(c: CompositionName)
    ensures '?' !in Key(c) && '/' !in Key(c) && '&' !in Key(c)
  {
  }

  /** The attributes each composition declares, in declaration order. */
  lemma DeclaredAttributes()
    ensures InfoOf(Lluvia).attributes == ["rain"]
    ensures InfoOf(Zigzag).attributes == ["rain", "lightningCount"]
    ensures InfoOf(ColorFlower).attributes == ["temperature"]
    ensures InfoOf(StormEye).attributes == ["temperature", "windSpeed", "windDeg"]
    ensures InfoOf(Curves).attributes == ["rain", "temperature"]
  {
  }

  /** Exactly colorFlower and stormEye list the single endpoint ""; no other entry lists "". */
  lemma PlaceholderEndpoints(c: CompositionName)
    ensures InfoOf(c).endpoints == [""] <==> c == ColorFlower || c == StormEye
    ensures "" in InfoOf(c).endpoints ==> InfoOf(c).endpoints == [""]
  {
  }
}
