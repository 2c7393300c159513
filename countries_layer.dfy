/**
 * The country layer built by `MapEffect` (src/pages/index.js): the response
 * of the countries endpoint is validated and every record becomes a GeoJSON
 * point feature (RFC 7946, sections 3.1.1, 3.2 and 3.3).
 */
module CountriesLayer {

  import opened Wrappers

  /** A longitude or latitude as the endpoint sends it; it is only copied, never computed. */
  type Coordinate(==)

  /** The `countryInfo` object of a record, as far as the layer reads it. */
  datatype CountryInfo = CountryInfo(lat: Option<Coordinate>, long: Option<Coordinate>)

  /** The `countryInfo` property: missing (undefined), JSON null, or an object. */
  datatype InfoField = Absent | Null | Present(info: CountryInfo)

  /** One country's record from the countries endpoint. */
  datatype CountryRecord = CountryRecord(
    country: Option<string>,
    cases: Option<nat>,
    deaths: Option<nat>,
    recovered: Option<nat>,
    updated: Option<nat>,
    countryInfo: InfoField)

  /** One element of the response array: JSON null or an object. */
  datatype Element = NullElement | Record(record: CountryRecord)

  /** The parsed response body: an array, or any other JSON value. */
  datatype Body = JsonArray(elements: seq<Element>) | NotArray

  datatype Geometry = Geometry(kind: string, coordinates: seq<Option<Coordinate>>)

  datatype Feature = Feature(kind: string, properties: CountryRecord, geometry: Geometry)

  datatype FeatureCollection = FeatureCollection(kind: string, features: seq<Feature>)

  /** How one run of the map effect ends. */
  datatype Outcome =
    | NotReady                          // no map or no marker yet: nothing is fetched
    | FetchFailed                       // the request was rejected: logged, run abandoned
    | NotAnArray                        // "not an array!"
    | NoData                            // empty array: "No data, sorry!"
    | TypeError                         // destructuring a null element or null countryInfo threw
    | Rendered(layer: FeatureCollection) // the layer handed to the map

  /** The validation gate: only a non-empty array goes on to the reshape. */
  predicate HasData(b: Body) {
    b.JsonArray? && |b.elements| > 0
  }

  /** An element the reshape can destructure: an object whose `countryInfo` is not null. */
  predicate Converts(e: Element) {
    e.Record? && !e.record.countryInfo.Null?
  }

  /**
   * `f` is the point feature of `rec`: its properties are the record itself
   * and its position is [longitude, latitude] taken from `countryInfo`, or
   * two absent values when the record has no `countryInfo`.
   */
  ghost predicate Locates(f: Feature, rec: CountryRecord) {
    && f.kind == "Feature"
    && f.properties == rec
    && f.geometry.kind == "Point"
    && (rec.countryInfo.Present? ==>
          f.geometry.coordinates == [rec.countryInfo.info.long, rec.countryInfo.info.lat])
    && (rec.countryInfo.Absent? ==> f.geometry.coordinates == [None, None])
  }

  /** The callback of `data.map`: None when destructuring the element throws. */
  function ToFeature(e: Element): (r: Option<Feature>)
    ensures r.Some? <==> Converts(e)
    ensures r.Some? ==> Locates(r.value, e.record)
  {
    match e
    case NullElement => None
    case Record(rec) =>
      if rec.countryInfo.Null? then None
      else
        var info := if rec.countryInfo.Absent? then CountryInfo(None, None) else rec.countryInfo.info;
        Some(Feature("Feature", rec, Geometry("Point", [info.long, info.lat])))
  }

  /**
   * `data.map(...)` over the response array: one feature per element, in
   * order, unless some element throws, which abandons the whole map.
   */
  function Features(es: seq<Element>): (r: Option<seq<Feature>>)
    ensures r.Some? <==> forall i :: 0 <= i < |es| ==> Converts(es[i])
    ensures r.Some? ==> |r.value| == |es|
    ensures r.Some? ==> forall i :: 0 <= i < |es| ==> Locates(r.value[i], es[i].record)
  {
    if es == [] then Some([])
    else
      match ToFeature(es[0])
      case None => None
      case Some(f) =>
        match Features(es[1..])
        case None => None
        case Some(fs) => Some([f] + fs)
  }

  /**
   * One run of the effect, given whether the map and the marker exist and
   * the response of the countries request (None when it failed).
   */
  function MapEffectRun(ready: bool, response: Option<Body>): (r: Outcome)
    ensures r.NotReady? <==> !ready
    ensures r.FetchFailed? <==> ready && response.None?
    ensures r.NotAnArray? <==> ready && response == Some(NotArray)
    ensures r.NoData? <==> ready && response == Some(JsonArray([]))
    ensures r.TypeError? <==> ready && response.Some? && HasData(response.value)
                              && exists i :: 0 <= i < |response.value.elements| && !Converts(response.value.elements[i])
    ensures r.Rendered? <==> ready && response.Some? && HasData(response.value)
                             && forall i :: 0 <= i < |response.value.elements| ==> Converts(response.value.elements[i])
    ensures r.Rendered? ==>
              && r.layer.kind == "FeatureCollection"
              && |r.layer.features| == |response.value.elements|
              && forall i :: 0 <= i < |r.layer.features| ==>
                   Locates(r.layer.features[i], response.value.elements[i].record)
  {
    if !ready then NotReady
    else
      match response
      case None => FetchFailed
      case Some(body) =>
        if !body.JsonArray? then NotAnArray
        else if !HasData(body) then NoData
        else
          match Features(body.elements)
          case None => TypeError
          case Some(fs) => Rendered(FeatureCollection("FeatureCollection", fs))
  }

  /** The elements a list of features carries, read back from their properties. */
  function Unpack(fs: seq<Feature>): (es: seq<Element>)
    ensures |es| == |fs|
  {
    if fs == [] then [] else [Record(fs[0].properties)] + Unpack(fs[1..])
  }

  /** The layer loses and reorders nothing: its properties give back the response array. */
  lemma {:induction false} UnpackFeatures(es: seq<Element>)
    requires Features(es).Some?
    ensures Unpack(Features(es).value) == es
  {
    if es != [] {
      UnpackFeatures(es[1..]);
      assert es[0] == Record(es[0].record);
    }
  }
}
