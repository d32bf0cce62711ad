/**
 The two geocoding providers: how a Photon or Nominatim answer becomes the
 arguments of `showResult`, and how `tryPhoton` and `tryNominatim` reach
 that answer (Photon directly first, Nominatim only through the proxies).
 Coordinates are kept as opaque reals; only where they go matters here.
 */
module Providers {
  import opened Common
  import opened Text
  import opened ProxyChain

  /** The two providers raced by one search. */
  datatype Provider = Photon | Nominatim

  /** A point as the map takes it: latitude first. */
  datatype LatLng = LatLng(lat: real, lng: real)

  /** What a provider hands to `showResult`: where to put the marker and the label to show. */
  datatype Hit = Hit(at: LatLng, caption: string)

  /** A GeoJSON position: element 0 is the longitude, element 1 the latitude. */
  datatype Position = Position(first: real, second: real)

  /**
   The Photon feature properties the label is built from. A property that is
   missing, `null` or the empty string is the empty string here: the code only
   ever tests them for truthiness.
   */
  datatype PhotonProperties = PhotonProperties(name: string, street: string, city: string, country: string)

  datatype PhotonFeature = PhotonFeature(coordinates: Position, properties: PhotonProperties)

  /** A Photon FeatureCollection; a missing `features` list is the empty list. */
  datatype PhotonResponse = PhotonResponse(features: seq<PhotonFeature>)

  /** One Nominatim match, with `lat`/`lon` already read as numbers; a missing `display_name` is empty. */
  datatype NominatimPlace = NominatimPlace(lat: real, lon: real, displayName: string)

  /**
   How a provider's promise settles, as seen by `onSettle`: fulfilled with
   `true` after showing a hit, fulfilled with `false`, or rejected.
   */
  datatype Settled = Matched(hit: Hit) | NoMatch | Errored

  /** `name` followed by ", street" and ", city" for each of those that is set. */
  function PhotonName(p: PhotonProperties): string {
    p.name + (if p.street != "" then ", " + p.street else "") + (if p.city != "" then ", " + p.city else "")
  }

  /** The label fallback chain: the trimmed composed name, else the country, else the query. */
  function PhotonLabel(p: PhotonProperties, query: string): (caption: string)
    ensures caption == Trim(PhotonName(p)) || caption == p.country || caption == query
    ensures query != "" ==> caption != ""
    ensures caption == "" ==> query == ""
    ensures Trim(PhotonName(p)) != "" ==> caption == Trim(PhotonName(p))
    ensures Trim(PhotonName(p)) == "" && p.country != "" ==> caption == p.country
    ensures Trim(PhotonName(p)) == "" && p.country == "" ==> caption == query
  {
    var name := Trim(PhotonName(p));
    if name != "" then name else if p.country != "" then p.country else query
  }

  /**
   When the name is blank and neither street nor city is set, the label is the
   country, or the query when there is no country either.
   */
  lemma PhotonLabelFallback(p: PhotonProperties, query: string)
    requires AllTrimmable(p.name) && p.street == "" && p.city == ""
    ensures PhotonLabel(p, query) == (if p.country != "" then p.country else query)
  {
    assert PhotonName(p) == p.name;
  }

  /**
   When a street or a city is set, the composed name contains a comma, so it is
   never blank and the country and the query are not consulted.
   */
  lemma PhotonLabelUsesAddress(p: PhotonProperties, query: string)
    requires p.street != "" || p.city != ""
    ensures PhotonLabel(p, query) == Trim(PhotonName(p))
  {
    var s := PhotonName(p);
    var k := if p.street != "" then |p.name| else |s| - |p.city| - 2;
    assert s[k] == ',';
    TrimKeepsNonBlank(s, k);
  }

  /** A feature with a street but no name gets a label that starts with the separating comma. */
  lemma PhotonLabelLeadingComma(p: PhotonProperties, query: string)
    requires p.name == "" && p.street != ""
    ensures PhotonLabel(p, query)[0] == ','
  {
    var s := PhotonName(p);
    assert s[0] == ',';
    PhotonLabelUsesAddress(p, query);
    assert Lead(s) == 0;
  }

  /**
   `parsePhotonResponse`: no feature means no match; otherwise the first
   feature is shown at its position with the coordinate order swapped.
   */
  function ParsePhoton(data: PhotonResponse, query: string): (r: Option<Hit>)
    ensures r.None? <==> |data.features| == 0
    ensures r.Some? ==> r.value.at.lat == data.features[0].coordinates.second
    ensures r.Some? ==> r.value.at.lng == data.features[0].coordinates.first
    ensures r.Some? ==> r.value.caption == PhotonLabel(data.features[0].properties, query)
  {
    if |data.features| > 0 then
      var f := data.features[0];
      Some(Hit(LatLng(f.coordinates.second, f.coordinates.first), PhotonLabel(f.properties, query)))
    else None
  }

  /** Only the first feature matters: whatever follows it does not change the outcome. */
  lemma ParsePhotonFirstOnly(f: PhotonFeature, rest: seq<PhotonFeature>, query: string)
    ensures ParsePhoton(PhotonResponse([f] + rest), query) == ParsePhoton(PhotonResponse([f]), query)
  {
  }

  /** The result branch of `tryNominatim`: the first match, labelled with its display name or else the query. */
  function ParseNominatim(data: seq<NominatimPlace>, query: string): (r: Option<Hit>)
    ensures r.None? <==> |data| == 0
    ensures r.Some? ==> r.value.at == LatLng(data[0].lat, data[0].lon)
    ensures r.Some? ==> r.value.caption == (if data[0].displayName != "" then data[0].displayName else query)
  {
    if |data| > 0 then
      var p := data[0];
      Some(Hit(LatLng(p.lat, p.lon), if p.displayName != "" then p.displayName else query))
    else None
  }

  /** Only the first Nominatim match matters: whatever follows it does not change the outcome. */
  lemma ParseNominatimFirstOnly(place: NominatimPlace, rest: seq<NominatimPlace>, query: string)
    ensures ParseNominatim([place] + rest, query) == ParseNominatim([place], query)
    ensures ParseNominatim([place] + rest, query).Some?
  {
  }

  /** A parse step's boolean answer, with the hit it showed. */
  function FromParse(found: Option<Hit>): (s: Settled)
    ensures s.Matched? <==> found.Some?
    ensures s.Matched? ==> s.hit == found.value
    ensures !s.Errored?
  {
    match found
    case Some(hit) => Matched(hit)
    case None => NoMatch
  }

  /** One provider run: how its promise settled and every URL it requested, in order. */
  datatype AdapterRun = AdapterRun(settled: Settled, requests: seq<string>)

  /**
   `tryPhoton`: fetch `url` directly; if that attempt fails in any way, parse
   the proxy chain's answer instead; any further failure settles with `false`.
   The promise never rejects.
   */
  function TryPhoton(encode: string -> string, query: string, url: string,
                     direct: FetchOutcome<PhotonResponse>, relayed: seq<FetchOutcome<PhotonResponse>>): (r: AdapterRun)
    requires |relayed| == 2
    ensures !r.settled.Errored?
    ensures 1 <= |r.requests| <= 3 && r.requests[0] == url
    ensures Body(direct).Some? ==> r.requests == [url] && r.settled == FromParse(ParsePhoton(Body(direct).value, query))
    ensures Body(direct).None? ==> r.requests[1..] == FetchCors(Proxies(encode), url, relayed).requests
    ensures r.settled.Matched? ==> exists data :: ParsePhoton(data, query) == Some(r.settled.hit)
    ensures Body(direct).None? ==>
      var k := FirstDelivering(relayed, 0);
      r.settled == (if k < 2 then FromParse(ParsePhoton(Body(relayed[k]).value, query)) else NoMatch)
  {
    FirstSuccessWins(Proxies(encode), url, relayed);
    match Body(direct)
    case Some(data) => AdapterRun(FromParse(ParsePhoton(data, query)), [url])
    case None =>
      var chain := FetchCors(Proxies(encode), url, relayed);
      var settled := if chain.result.Success? then FromParse(ParsePhoton(chain.result.value, query)) else NoMatch;
      AdapterRun(settled, [url] + chain.requests)
  }

  /** A direct Photon answer with no features is final: the proxies are not tried. */
  lemma PhotonEmptyDirectIsFinal(encode: string -> string, query: string, url: string,
                                 direct: FetchOutcome<PhotonResponse>, relayed: seq<FetchOutcome<PhotonResponse>>)
    requires |relayed| == 2
    requires direct.Responded? && IsOk(direct.status) && direct.json == Some(PhotonResponse([]))
    ensures TryPhoton(encode, query, url, direct, relayed) == AdapterRun(NoMatch, [url])
  {
  }

  /**
   `tryNominatim`: always through the proxy chain; the first match of a
   delivered answer is shown, and a failed chain settles with `false`.
   The promise never rejects.
   */
  function TryNominatim(encode: string -> string, query: string, url: string,
                        relayed: seq<FetchOutcome<seq<NominatimPlace>>>): (r: AdapterRun)
    requires |relayed| == 2
    ensures !r.settled.Errored?
    ensures r.requests == FetchCors(Proxies(encode), url, relayed).requests
    ensures 1 <= |r.requests| <= 2 && r.requests[0] == CorsProxyIo + encode(url)
    ensures r.settled.Matched? <==> exists j :: 0 <= j < 2 && Body(relayed[j]).Some?
                                                && (forall i :: 0 <= i < j ==> Body(relayed[i]).None?)
                                                && |Body(relayed[j]).value| > 0
    ensures var k := FirstDelivering(relayed, 0);
      r.settled == (if k < 2 then FromParse(ParseNominatim(Body(relayed[k]).value, query)) else NoMatch)
  {
    var chain := FetchCors(Proxies(encode), url, relayed);
    FirstSuccessWins(Proxies(encode), url, relayed);
    var settled := if chain.result.Success? then FromParse(ParseNominatim(chain.result.value, query)) else NoMatch;
    AdapterRun(settled, chain.requests)
  }
}
