/**
 * The `/search` geocoding route: query normalisation, the Bangladesh
 * suffix, the conversion of Photon features to the Nominatim result shape,
 * and the Photon-then-Nominatim fallback. The two providers are remote
 * services; their replies are inputs here.
 */
module Geocode {
  import opened Wrappers
  import opened Text

  /** A coordinate in a result: a number Photon gave, or Nominatim's text. */
  datatype Coordinate = Numeric(value: real) | Verbatim(text: string)

  /** One result: `{ lat, lon, display_name, name }`. */
  datatype Place = Place(lat: Coordinate, lon: Coordinate, displayName: string, name: string)

  /** A Photon feature: `geometry.coordinates` ([lon, lat]) and `properties.name`, each possibly missing. */
  datatype Feature = Feature(coordinates: Option<seq<real>>, name: Option<string>)

  /** `Number(req.query.limit || 1)`: the default, or the text the caller gave. */
  datatype Limit = DefaultOne | Given(text: string)

  datatype PhotonReply = PhotonThrew | PhotonJson(features: Option<seq<Feature>>)
  datatype NominatimReply = NominatimThrew | NominatimJson(places: seq<Place>)
  datatype Provider = Photon | Nominatim
  datatype SearchResponse = BadRequest(message: string) | Places(places: seq<Place>)

  const CountryLower := "bangladesh"
  const CountrySuffix := ", Bangladesh"

  /** `(req.query.q || '').toString().trim()` */
  function NormalizeQuery(q: Option<string>): (r: string)
    ensures r == "" <==> !Filled(q) || AllSpace(q.value)
  {
    TrimSpec(OrElse(q, ""));
    TrimSpec("");
    Trim(OrElse(q, ""))
  }

  /** The limit passed on to the providers; 1 unless the caller supplied a non-empty one. */
  function LimitArg(raw: Option<string>): (r: Limit)
    ensures r == DefaultOne <==> !Filled(raw)
  {
    if Filled(raw) then Given(raw.value) else DefaultOne
  }

  /**
   * The query sent to the providers: unchanged when it already mentions
   * Bangladesh in any letter case, otherwise with ", Bangladesh" appended.
   * Either way the result mentions Bangladesh.
   */
  function Enhance(query: string): (r: string)
    ensures Contains(Lower(r), CountryLower)
    ensures r == query || r == query + CountrySuffix
    ensures r == query <==> Contains(Lower(query), CountryLower)
  {
    if Contains(Lower(query), CountryLower) then query
    else
      SuffixMentionsCountry(query);
      query + CountrySuffix
  }

  lemma SuffixMentionsCountry(query: string)
    ensures Contains(Lower(query + CountrySuffix), CountryLower)
  {
    LowerAppend(query, CountrySuffix);
    assert Lower(CountrySuffix)[2..12] == CountryLower;
    assert OccursAt(Lower(CountrySuffix), CountryLower, 2);
    ContainsInSuffix(Lower(query), Lower(CountrySuffix), CountryLower);
  }

  /** Enhancing twice is enhancing once. */
  lemma EnhanceIdempotent(query: string)
    ensures Enhance(Enhance(query)) == Enhance(query)
  {
  }

  /** `String(f.geometry?.coordinates?.[i] || 0)` as a number: 0 when missing. */
  function CoordinateAt(coordinates: Option<seq<real>>, i: nat): real
  {
    if coordinates.Some? && i < |coordinates.value| then coordinates.value[i] else 0.0
  }

  /** One Photon feature in the Nominatim shape. */
  function PhotonPlace(f: Feature, query: string): (r: Place)
    ensures r.lat == Numeric(CoordinateAt(f.coordinates, 1)) && r.lon == Numeric(CoordinateAt(f.coordinates, 0))
    ensures r.name == r.displayName
    ensures Filled(f.name) ==> r.name == f.name.value
    ensures !Filled(f.name) ==> r.name == query
    ensures query != "" ==> r.name != ""
  {
    var name := OrElse(f.name, query);
    Place(Numeric(CoordinateAt(f.coordinates, 1)), Numeric(CoordinateAt(f.coordinates, 0)), name, name)
  }

  /**
   * `(data.features || []).map(...)`: one result per feature, in order,
   * and none when `features` is missing.
   */
  function PhotonResults(features: Option<seq<Feature>>, query: string): (r: seq<Place>)
    ensures features.None? ==> r == []
    ensures features.Some? ==>
      (|r| == |features.value| && forall i :: 0 <= i < |r| ==> r[i] == PhotonPlace(features.value[i], query))
  {
    match features
    case None => []
    case Some(fs) => seq(|fs|, i requires 0 <= i < |fs| => PhotonPlace(fs[i], query))
  }

  /**
   * `GET /search`. A blank query is refused before any provider is asked.
   * Otherwise Photon is asked first with the enhanced query; Nominatim is
   * asked only when Photon threw or gave no result, and its answer, or the
   * empty list when it throws too, is the response.
   */
  method Search(q: Option<string>, limit: Option<string>,
                photon: (string, Limit) -> PhotonReply, nominatim: (string, Limit) -> NominatimReply)
    returns (response: SearchResponse, consulted: seq<Provider>)
    ensures NormalizeQuery(q) == "" ==> response == BadRequest("Missing q parameter") && consulted == []
    ensures NormalizeQuery(q) != "" ==>
      var query := Enhance(NormalizeQuery(q));
      var first := photon(query, LimitArg(limit));
      var firstPlaces := if first.PhotonJson? then PhotonResults(first.features, query) else [];
      var second := nominatim(query, LimitArg(limit));
      && consulted == (if firstPlaces == [] then [Photon, Nominatim] else [Photon])
      && response == Places(
           if firstPlaces != [] then firstPlaces
           else if second.NominatimJson? then second.places
           else [])
    ensures response.Places? && consulted == [Photon] ==> response.places != []
  {
    var query := NormalizeQuery(q);
    var lim := LimitArg(limit);
    if query == "" {
      return BadRequest("Missing q parameter"), [];
    }
    var enhanced := Enhance(query);
    var first := photon(enhanced, lim);
    var data := if first.PhotonJson? then PhotonResults(first.features, enhanced) else [];
    consulted := [Photon];
    if data == [] {
      consulted := [Photon, Nominatim];
      var second := nominatim(enhanced, lim);
      data := if second.NominatimJson? then second.places else [];
    }
    response := Places(data);
  }

  /** Every Photon result of a search names a place: its query is never empty. */
  lemma PhotonNamesNonEmpty(q: Option<string>, features: Option<seq<Feature>>)
    requires NormalizeQuery(q) != ""
    ensures forall p :: p in PhotonResults(features, Enhance(NormalizeQuery(q))) ==> p.name != "" && p.displayName != ""
  {
  }
}
