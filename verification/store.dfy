/**
 * The Cinder store adapter (glance_store/_drivers/cinder.py, class Store):
 * construction from the catalog-info option, the scheme it answers for, the
 * request-context check and the size lookup with its error translation.
 *
 * The volume service is not part of this model: what its client returns for
 * the requested volume is an input of `GetSize` (a `Fetch`).
 */
module CinderStore {
  import opened Wrappers
  import Text
  import L = CinderLocation

  const DefaultCatalogInfo: string := "volume:cinder:publicURL"

  /** Bytes per gigabyte, the volume service's size unit: `1024 ** 3`. */
  const GiB: nat := 1073741824

  /** The three service-catalog fields named by `cinder_catalog_info`. */
  datatype CatalogInfo = CatalogInfo(serviceType: string, serviceName: string, endpointType: string)

  /**
   * The `ValueError` of Python 2's tuple unpacking into three names:
   * "too many values to unpack", or "need more than n values to unpack".
   */
  datatype UnpackError = TooManyValues | NeedMoreThan(found: nat)

  /**
   * `self.service_type, self.service_name, self.endpoint_type = info.split(':')`:
   * succeeds exactly when the option holds two colons.
   */
  function ParseCatalogInfo(info: string): (r: Result<CatalogInfo, UnpackError>)
    ensures r.Success? <==> multiset(info)[':'] == 2
    ensures r.Success? ==> info == r.value.serviceType + ":" + r.value.serviceName + ":" + r.value.endpointType
    ensures r.Success? ==> ':' !in r.value.serviceType && ':' !in r.value.serviceName && ':' !in r.value.endpointType
    ensures r == Failure(TooManyValues) <==> multiset(info)[':'] > 2
    ensures r.Failure? && r.error.NeedMoreThan? ==> r.error.found == multiset(info)[':'] + 1
  {
    var parts := Text.Split(info, ':');
    if |parts| == 3 then
      assert parts == [parts[0], parts[1], parts[2]];
      Text.JoinThree(parts[0], parts[1], parts[2], ':');
      Success(CatalogInfo(parts[0], parts[1], parts[2]))
    else if |parts| > 3 then Failure(TooManyValues)
    else Failure(NeedMoreThan(|parts|))
  }

  /** Colon-free fields written with colons between them are read back unchanged. */
  lemma CatalogInfoRoundTrip(c: CatalogInfo)
    requires ':' !in c.serviceType && ':' !in c.serviceName && ':' !in c.endpointType
    ensures ParseCatalogInfo(c.serviceType + ":" + c.serviceName + ":" + c.endpointType) == Success(c)
  {
    var parts := [c.serviceType, c.serviceName, c.endpointType];
    var info := c.serviceType + ":" + c.serviceName + ":" + c.endpointType;
    Text.JoinThree(c.serviceType, c.serviceName, c.endpointType, ':');
    assert Text.Separated(parts, ':');
    Text.SplitUnique(info, ':', parts);
  }

  /** The default option names the `volume` service `cinder` at its `publicURL` endpoint. */
  lemma DefaultCatalogInfoFields()
    ensures ParseCatalogInfo(DefaultCatalogInfo) == Success(CatalogInfo("volume", "cinder", "publicURL"))
  {
    assert DefaultCatalogInfo == "volume" + ":" + "cinder" + ":" + "publicURL";
    CatalogInfoRoundTrip(CatalogInfo("volume", "cinder", "publicURL"));
  }

  /** The request context; only its presence matters here (see `CheckContext`). */
  datatype RequestContext = RequestContext

  /** What the volume service's client reports when it fails. */
  datatype RemoteError =
    | CinderNotFound          // cinderclient's NotFound: no such volume
    | EndpointNotFound        // keystoneclient's EndpointNotFound: no volume endpoint
    | OtherError(description: string)  // any other exception while building or using the client

  /** The outcome of `volumes.get(volume_id)` on a freshly built client. */
  datatype Fetch = Volume(sizeGb: nat) | Fails(error: RemoteError)

  /** `exceptions.BadStoreConfiguration`. */
  datatype StoreError = BadStoreConfiguration(storeName: string, reason: string)

  const NoContextReason: string := "Cinder storage requires a context."
  const NoEndpointReason: string := "Cinder endpoint could not be determined"
  const NotFoundReason: string := "Failed to get image size due to volume can not be found: "

  /** An exception raised inside the `try` block of `get_size`. */
  datatype Raised = Remote(remoteError: RemoteError) | Config(configError: StoreError)

  /** What `get_size` returns or raises. */
  datatype SizeOutcome =
    | Size(bytes: nat)
    | RaiseNotFound(message: string)
    | RaiseBadStoreConfiguration(error: StoreError)
    | RaiseAttributeError(attribute: string)

  /** `Store`: the adapter, holding the three catalog fields set by `__init__`. */
  class Store {
    const serviceType: string
    const serviceName: string
    const endpointType: string

    constructor (info: CatalogInfo)
      ensures serviceType == info.serviceType && serviceName == info.serviceName
      ensures endpointType == info.endpointType
    {
      serviceType := info.serviceType;
      serviceName := info.serviceName;
      endpointType := info.endpointType;
    }

    /**
     * `Store(conf)`: construction fails with the unpacking error unless the
     * catalog-info option has exactly three colon-separated fields.
     */
    static method Create(catalogInfo: string) returns (r: Result<Store, UnpackError>)
      ensures r.Success? <==> multiset(catalogInfo)[':'] == 2
      ensures r.Success? ==> fresh(r.value)
      ensures r.Success? ==> ParseCatalogInfo(catalogInfo)
                             == Success(CatalogInfo(r.value.serviceType, r.value.serviceName, r.value.endpointType))
      ensures r.Failure? ==> ParseCatalogInfo(catalogInfo) == Failure(r.error)
    {
      var info := ParseCatalogInfo(catalogInfo);
      if info.Failure? {
        return Failure(info.error);
      }
      var store := new Store(info.value);
      r := Success(store);
    }

    /** `get_schemes`: the one scheme, the one the locator's URIs start with. */
    static function GetSchemes(): (r: seq<string>)
      ensures |r| == 1 && r[0] + "://" == L.Prefix
    {
      [L.Scheme]
    }

    /** `_check_context`: a missing context is a configuration error; otherwise nothing happens. */
    static function CheckContext(context: Option<RequestContext>): (r: Option<StoreError>)
      ensures r.Some? <==> context.None?
      ensures r.Some? ==> r.value.storeName == L.Scheme && r.value.reason == NoContextReason
    {
      if context.None? then Some(BadStoreConfiguration("cinder", NoContextReason)) else None
    }

    /**
     * The `try` block of `get_size`: the context check, then the remote
     * lookup, then the conversion from gigabytes to bytes.
     */
    static function TryGetSize(context: Option<RequestContext>, fetch: Fetch): (r: Result<nat, Raised>)
      ensures r.Success? <==> context.Some? && fetch.Volume?
      ensures r.Success? ==> r.value == fetch.sizeGb * GiB
      ensures context.None? ==> r == Failure(Config(BadStoreConfiguration("cinder", NoContextReason)))
      ensures context.Some? && fetch.Fails? ==> r == Failure(Remote(fetch.error))
    {
      match CheckContext(context)
      case Some(e) => Failure(Config(e))
      case None =>
        match fetch
        case Volume(n) => Success(n * GiB)
        case Fails(e) => Failure(Remote(e))
    }

    /**
     * `get_size` as the source is meant to behave. Only the two classified
     * failures escape; every other exception, the missing-context one
     * included (it is raised inside the `try`), becomes the size 0.
     * The not-found message names the volume the location asked for.
     */
    static function GetSize(location: L.Fields, context: Option<RequestContext>, fetch: Fetch): (r: SizeOutcome)
      ensures context.None? ==> r == Size(0)
      ensures context.Some? && fetch.Volume? ==> r == Size(fetch.sizeGb * GiB)
      ensures r.RaiseNotFound? <==> context.Some? && fetch == Fails(CinderNotFound)
      ensures r.RaiseNotFound? ==> r.message == NotFoundReason + L.Show(location.volumeId)
      ensures r.RaiseBadStoreConfiguration? <==> context.Some? && fetch == Fails(EndpointNotFound)
      ensures r.RaiseBadStoreConfiguration? ==> r.error == BadStoreConfiguration("cinder", NoEndpointReason)
      ensures r.Size? && r.bytes != 0 ==> fetch.Volume? && r.bytes == fetch.sizeGb * GiB
      ensures !r.RaiseAttributeError?
    {
      match TryGetSize(context, fetch)
      case Success(bytes) => Size(bytes)
      case Failure(Remote(CinderNotFound)) => RaiseNotFound(NotFoundReason + L.Show(location.volumeId))
      case Failure(Remote(EndpointNotFound)) => RaiseBadStoreConfiguration(BadStoreConfiguration("cinder", NoEndpointReason))
      case Failure(_) => Size(0)
    }

    /**
     * `get_size` as written: the not-found handler formats its message from
     * the store's own `volume_id` attribute, which no code sets, so the
     * handler raises `AttributeError` in place of `NotFound`.
     */
    static function GetSizeAsWritten(location: L.Fields, context: Option<RequestContext>, fetch: Fetch): (r: SizeOutcome)
      ensures r.RaiseAttributeError? <==> context.Some? && fetch == Fails(CinderNotFound)
      ensures !r.RaiseNotFound?
    {
      match TryGetSize(context, fetch)
      case Success(bytes) => Size(bytes)
      case Failure(Remote(CinderNotFound)) => RaiseAttributeError("volume_id")
      case Failure(Remote(EndpointNotFound)) => RaiseBadStoreConfiguration(BadStoreConfiguration("cinder", NoEndpointReason))
      case Failure(_) => Size(0)
    }
  }

  /** The two versions of `get_size` differ exactly on a volume the service does not know. */
  lemma NotFoundHandlerCrashes(location: L.Fields, context: Option<RequestContext>, fetch: Fetch)
    ensures Store.GetSizeAsWritten(location, context, fetch) != Store.GetSize(location, context, fetch)
        <==> context.Some? && fetch == Fails(CinderNotFound)
  {
  }

  /** Without a context the answer is 0 whatever the volume service would say: it is never asked. */
  lemma NoContextNoLookup(location: L.Fields, fetch: Fetch, otherFetch: Fetch)
    ensures Store.GetSize(location, None, fetch) == Store.GetSize(location, None, otherFetch) == Size(0)
  {
  }

  /** A volume of 5 GB is reported as 5368709120 bytes. */
  lemma FiveGigabytes(location: L.Fields, context: RequestContext)
    ensures Store.GetSize(location, Some(context), Volume(5)) == Size(5368709120)
  {
  }

  /** The size 0 does not tell an empty volume from an unclassified failure. */
  lemma ZeroIsAmbiguous(location: L.Fields, context: RequestContext, description: string)
    ensures Store.GetSize(location, Some(context), Volume(0))
         == Store.GetSize(location, Some(context), Fails(OtherError(description)))
  {
  }
}
