/**
 * The target request as perform_injection sees it before any probe is sent:
 * the URL and method, the test level, and which parameters are candidates.
 */
module Target {
  import opened Wrappers
  import opened Text

  /** Where a parameter sits in the request. */
  datatype InjectionType = GET | POST | COOKIE | HEADER

  /** The lowest test level at which parameters of this kind are tested. */
  function Rank(t: InjectionType): nat {
    match t
    case GET => 1
    case POST => 1
    case COOKIE => 2
    case HEADER => 3
  }

  /** One injection point found by the external parser: a key and its original value. */
  datatype Parameter = Parameter(key: string, value: string)

  /**
   * The request as given: parsed from a non-empty request file (URL, body and
   * HTTP verb taken as they are), or assembled from the command-line options.
   */
  datatype Source =
    | RequestFile(url: string, data: string, verb: string)
    | CommandLine(url: string, data: string)

  datatype Resolved = Resolved(url: string, data: string, verb: string)

  /** A URL without an `http` prefix gets one; a scheme-relative `//host` only gets `http:`. */
  function NormaliseUrl(url: string): (r: string)
    ensures StartsWith(r, "http")
    ensures StartsWith(url, "http") <==> r == url
    ensures !StartsWith(url, "http") ==>
      StartsWith(r, "http://") && r[7..] == (if StartsWith(url, "//") then url[2..] else url)
  {
    if StartsWith(url, "http") then url
    else if StartsWith(url, "//") then "http:" + url
    else "http://" + url
  }

  /** The method follows the body; with no URL the source leaves the method unset. */
  function InferMethod(url: string, data: string): Option<string> {
    if url != "" && data != "" then Some("POST")
    else if url != "" && data == "" then Some("GET")
    else None
  }

  function Resolve(src: Source): (t: Resolved)
    ensures src.CommandLine? ==>
      && t.url == NormaliseUrl(src.url)
      && StartsWith(t.url, "http")
      && t.data == src.data
      && (t.verb == "POST" <==> src.data != "")
      && (t.verb == "GET" <==> src.data == "")
    ensures src.RequestFile? ==> t == Resolved(src.url, src.data, src.verb)
  {
    match src
    case RequestFile(url, data, verb) => Resolved(url, data, verb)
    case CommandLine(url, data) =>
      var u := NormaliseUrl(url);
      Resolved(u, data, InferMethod(u, data).value)
  }

  /** A custom `*` marker in a cookie forces level 2, one in a header level 3. */
  function EscalateLevel(level: int, markers: seq<InjectionType>): int {
    if HEADER in markers then 3
    else if COOKIE in markers then 2
    else level
  }

  /** The injection types tested at a level; any other level tests nothing. */
  function LevelTypes(level: int): seq<InjectionType> {
    if level == 1 then [GET, POST]
    else if level == 2 then [GET, POST, COOKIE]
    else if level == 3 then [GET, POST, COOKIE, HEADER]
    else []
  }

  lemma LevelTypesMembership(level: int, t: InjectionType)
    ensures t in LevelTypes(level) <==> 1 <= level <= 3 && Rank(t) <= level
  {
  }

  lemma LevelTypesNested(level: int)
    requires 1 <= level < 3
    ensures LevelTypes(level) < LevelTypes(level + 1)
  {
  }

  /** Once a cookie or header marker exists, the level is the highest rank among the marked locations. */
  lemma EscalatedLevelIsHighestMarker(level: int, markers: seq<InjectionType>)
    requires COOKIE in markers || HEADER in markers
    ensures forall t :: t in markers ==> Rank(t) <= EscalateLevel(level, markers)
    ensures exists t :: t in markers && Rank(t) == EscalateLevel(level, markers)
  {
  }

  /** Every marked location is among the types tested at the escalated level. */
  lemma EscalatedLevelCoversMarkers(level: int, markers: seq<InjectionType>)
    requires 1 <= level <= 3
    ensures forall t :: t in markers ==> t in LevelTypes(EscalateLevel(level, markers))
  {
    forall t | t in markers
      ensures t in LevelTypes(EscalateLevel(level, markers))
    {
      LevelTypesMembership(EscalateLevel(level, markers), t);
    }
  }

  predicate HasMarker(p: Parameter) {
    '*' in p.key || '*' in p.value
  }

  /** The `testparameter` allow-list: keep the parameters whose key is listed, in order. */
  function FilterByKeys(ps: seq<Parameter>, keys: seq<string>): (r: seq<Parameter>)
    ensures forall p :: p in r <==> p in ps && p.key in keys
    ensures |r| <= |ps|
  {
    if ps == [] then []
    else (if ps[0].key in keys then [ps[0]] else []) + FilterByKeys(ps[1..], keys)
  }

  /** Filtering distributes over concatenation, so the kept parameters stay in their original order. */
  lemma {:induction false} FilterByKeysConcat(a: seq<Parameter>, b: seq<Parameter>, keys: seq<string>)
    ensures FilterByKeys(a + b, keys) == FilterByKeys(a, keys) + FilterByKeys(b, keys)
  {
    if a != [] {
      assert (a + b)[0] == a[0] && (a + b)[1..] == a[1..] + b;
      FilterByKeysConcat(a[1..], b, keys);
    } else {
      assert a + b == b;
    }
  }
}
