/**
 * The Cinder store's locator: the URI form `cinder://<volume-id>` and the
 * `StoreLocation` object that `parse_uri` and `process_specs` fill in
 * (glance_store/_drivers/cinder.py, class StoreLocation).
 *
 * Whether a volume id is UUID-like is decided by a helper of the repository
 * that is not part of this model; every operation that needs it takes it as
 * the parameter `isUuidLike`, and every property holds for any such test.
 */
module CinderLocation {
  import opened Wrappers

  const Scheme: string := "cinder"
  const Prefix: string := "cinder://"

  const MissingPrefixReason: string := "URI must start with 'cinder://'"
  const InvalidVolumeIdReason: string := "URI contains invalid volume ID"

  /** `exceptions.BadStoreUri`, with its message. */
  datatype BadStoreUri = BadStoreUri(message: string)

  /** How Python's `"%s"` formatting shows an optional string: `None` prints as `None`. */
  function Show(v: Option<string>): string
  {
    match v
    case Some(s) => s
    case None => "None"
  }

  /** The two attributes of a locator; `volumeId` is `None` when the specs had no `volume_id`. */
  datatype Fields = Fields(scheme: string, volumeId: Option<string>)
  {
    /** `get_uri`: the scheme attribute plays no part, the prefix is always `cinder://`. */
    function Uri(): (uri: string)
      ensures Prefix <= uri && uri[|Prefix|..] == Show(volumeId)
    {
      Prefix + Show(volumeId)
    }
  }

  /** The attributes after a call of `parse_uri`, and the exception it raised, if any. */
  datatype ParseResult = ParseResult(after: Fields, error: Option<BadStoreUri>)

  /**
   * What `parse_uri(uri)` does to a locator whose attributes were `before`.
   * The attributes are written before the volume id is checked, so a URI with
   * the right prefix but a bad id still overwrites them.
   */
  function ParseEffect(before: Fields, uri: string, isUuidLike: string -> bool): (r: ParseResult)
    ensures !(Prefix <= uri) ==> r == ParseResult(before, Some(BadStoreUri(MissingPrefixReason)))
    ensures Prefix <= uri ==> r.after == Fields(Scheme, Some(uri[|Prefix|..]))
    ensures r.error.None? <==> Prefix <= uri && isUuidLike(uri[|Prefix|..])
    ensures Prefix <= uri && !isUuidLike(uri[|Prefix|..]) ==> r.error == Some(BadStoreUri(InvalidVolumeIdReason))
    ensures r.error.None? ==> r.after.Uri() == uri
  {
    if !(Prefix <= uri) then
      ParseResult(before, Some(BadStoreUri(MissingPrefixReason)))
    else
      var after := Fields(Scheme, Some(uri[|Prefix|..]));
      assert after.Uri() == Prefix + uri[|Prefix|..] == uri;
      if isUuidLike(uri[|Prefix|..]) then ParseResult(after, None)
      else ParseResult(after, Some(BadStoreUri(InvalidVolumeIdReason)))
  }

  /**
   * What `process_specs` sets from a specs mapping: `scheme` defaults to
   * `cinder`, `volume_id` is copied without any UUID check.
   */
  function FromSpecs(specs: map<string, string>): (f: Fields)
    ensures "scheme" in specs ==> f.scheme == specs["scheme"]
    ensures "scheme" !in specs ==> f.scheme == Scheme
    ensures f.volumeId.Some? <==> "volume_id" in specs
    ensures "volume_id" in specs ==> f.volumeId.value == specs["volume_id"]
  {
    Fields(if "scheme" in specs then specs["scheme"] else Scheme,
           if "volume_id" in specs then Some(specs["volume_id"]) else None)
  }

  /** A URI without the prefix is refused before the volume id is ever looked at. */
  lemma PrefixCheckedFirst(before: Fields, uri: string, isUuidLike: string -> bool, otherTest: string -> bool)
    requires !(Prefix <= uri)
    ensures ParseEffect(before, uri, isUuidLike) == ParseEffect(before, uri, otherTest)
    ensures ParseEffect(before, uri, isUuidLike).after == before
  {
  }

  /**
   * Round trip from a locator: rendering a locator with a UUID-like id and
   * parsing the result succeeds and gives back the id; the locator comes back
   * field for field when its scheme is `cinder`.
   */
  lemma UriParsesBack(before: Fields, f: Fields, isUuidLike: string -> bool)
    requires f.volumeId.Some? && isUuidLike(f.volumeId.value)
    ensures ParseEffect(before, f.Uri(), isUuidLike) == ParseResult(Fields(Scheme, f.volumeId), None)
    ensures f.scheme == Scheme ==> ParseEffect(before, f.Uri(), isUuidLike).after == f
  {
  }

  /**
   * A locator built from specs that carry a UUID-like `volume_id` and no other
   * scheme than `cinder` survives rendering and parsing unchanged.
   */
  lemma SpecsRoundTrip(before: Fields, specs: map<string, string>, isUuidLike: string -> bool)
    requires "volume_id" in specs && isUuidLike(specs["volume_id"])
    requires "scheme" in specs ==> specs["scheme"] == Scheme
    ensures ParseEffect(before, FromSpecs(specs).Uri(), isUuidLike) == ParseResult(FromSpecs(specs), None)
  {
    UriParsesBack(before, FromSpecs(specs), isUuidLike);
  }

  /** A UUID-shaped URI parses to the expected locator, given that its id is UUID-like. */
  lemma ExampleUri(before: Fields, isUuidLike: string -> bool)
    requires isUuidLike("2aa1d1c2-5f0c-4e8f-8e0d-111111111111")
    ensures ParseEffect(before, "cinder://2aa1d1c2-5f0c-4e8f-8e0d-111111111111", isUuidLike)
         == ParseResult(Fields("cinder", Some("2aa1d1c2-5f0c-4e8f-8e0d-111111111111")), None)
  {
  }

  /** `StoreLocation`: a locator object whose attributes are filled in place. */
  class StoreLocation {
    const specs: map<string, string>
    var scheme: string
    var volumeId: Option<string>

    /** The locator's attributes as a value. */
    function Attributes(): Fields
      reads this
    {
      Fields(scheme, volumeId)
    }

    /** A locator holding `specs` whose attributes have not been filled in yet. */
    constructor (specs: map<string, string>)
      ensures this.specs == specs && Attributes() == Fields("", None)
    {
      this.specs := specs;
      scheme := "";
      volumeId := None;
    }

    /** `process_specs`: fill the attributes from `specs`, unvalidated. */
    method ProcessSpecs()
      modifies this
      ensures Attributes() == FromSpecs(specs)
    {
      scheme := if "scheme" in specs then specs["scheme"] else Scheme;
      volumeId := if "volume_id" in specs then Some(specs["volume_id"]) else None;
    }

    /** `get_uri`. */
    function GetUri(): (uri: string)
      reads this
      ensures Prefix <= uri && uri[|Prefix|..] == Show(volumeId)
    {
      Attributes().Uri()
    }

    /**
     * `parse_uri(uri)`: returns the `BadStoreUri` it raises, or `None`; on
     * success the locator renders back to exactly `uri`.
     */
    method ParseUri(uri: string, isUuidLike: string -> bool) returns (error: Option<BadStoreUri>)
      modifies this
      ensures ParseResult(Attributes(), error) == ParseEffect(old(Attributes()), uri, isUuidLike)
      ensures error.None? ==> GetUri() == uri
    {
      if !(Prefix <= uri) {
        return Some(BadStoreUri(MissingPrefixReason));
      }
      scheme := Scheme;
      volumeId := Some(uri[|Prefix|..]);
      if !isUuidLike(volumeId.value) {
        return Some(BadStoreUri(InvalidVolumeIdReason));
      }
      error := None;
    }
  }
}
