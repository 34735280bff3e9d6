# Cinder store driver for glance_store, modelled in Dafny

This project models the Cinder backend of glance_store. That backend lets
the image service treat a block-storage volume as the location of an image.
The driver has three parts:

- **The locator** (`StoreLocation`). A location is written `cinder://<volume-id>`.
  `parse_uri` checks the prefix, stores the rest of the string as the volume
  id and then checks that the id is UUID-like. `get_uri` renders the URI
  back. `process_specs` fills a locator from a mapping and does not validate
  it.
- **Store construction** (`Store.__init__`). The `cinder_catalog_info` option
  (default `volume:cinder:publicURL`) is split on `:` and unpacked into
  service type, service name and endpoint type. Any other number of fields
  makes construction fail.
- **Size lookup** (`Store.get_size`, `_check_context`). The driver checks the
  request context and asks the volume service for the volume. It converts
  gigabytes to bytes. Failures become `NotFound`, `BadStoreConfiguration` or
  the size 0.

Modules:

- `Wrappers` (wrappers.dfy) defines `Option` and `Result`.
- `Text` (text.dfy) models Python's `str.split` with a one-character
  separator. It also defines the inverse `Join`.
- `CinderLocation` (location.dfy) holds the locator. `StoreLocation` is a
  class whose methods assign its attributes in place, as the Python does. The
  pure function `ParseEffect` specifies `parse_uri`.
- `CinderStore` (store.dfy) holds the `Store` class, the context check and the
  size lookup.

The repository's `is_uuid_like` helper is not part of this model. Every
operation that needs it takes it as a parameter `isUuidLike: string -> bool`,
so every property is proved for any such test.

The remote volume service is also outside the model. What its client reports
for the requested volume is an input value of type `Fetch`: a volume of `n`
GB, cinder's `NotFound`, keystone's `EndpointNotFound`, or any other error.

A missing context is not reported to the caller, although `_check_context`
exists to reject it, and the model keeps this behaviour. `_check_context` is called inside the `try` of `get_size`. Its
`BadStoreConfiguration` for a missing context is therefore caught by the final
`except Exception`, and `get_size` returns 0. It does not raise
`BadStoreConfiguration`.

## Model

| member | source | states |
|---|---|---|
| `Text.Split` | glance_store/_drivers/cinder.py:94 | `str.split(':')` gives one more piece than there are separators. No piece contains the separator. Joining the pieces with the separator gives back the input. |
| `Text.SplitUnique` | glance_store/_drivers/cinder.py:94 | Any separator-free decomposition that joins to `s` is exactly `s.split(sep)`, so `split` undoes `join`. |
| `CinderStore.ParseCatalogInfo` | glance_store/_drivers/cinder.py:94-95 | Unpacking succeeds exactly when the option has two colons. On success the three colon-free fields, joined with `:`, are the option itself. More than two colons gives "too many values". Fewer gives "need more than n", where n is the number of pieces. |
| `CinderStore.CatalogInfoRoundTrip` | glance_store/_drivers/cinder.py:94-95 | Three colon-free fields written as `a:b:c` are read back as service type, service name and endpoint type, in that order. |
| `CinderStore.DefaultCatalogInfoFields` | glance_store/_drivers/cinder.py:33 | The default `volume:cinder:publicURL` yields `("volume", "cinder", "publicURL")`. |
| `CinderStore.Store.constructor` | glance_store/_drivers/cinder.py:95 | The three store fields take the three catalog values in order. |
| `CinderStore.Store.Create` | glance_store/_drivers/cinder.py:89-95 | Construction succeeds exactly when the option has two colons, and then the fields are the parsed catalog info. Otherwise it fails with the unpacking error. |
| `CinderStore.Store.GetSchemes` | glance_store/_drivers/cinder.py:97-98 | The store answers for one scheme: the one the locator's `cinder://` prefix names. |
| `CinderStore.Store.CheckContext` | glance_store/_drivers/cinder.py:100-111 | Raises `BadStoreConfiguration` for store `cinder` with the "requires a context" reason exactly when the context is `None`. Otherwise it does nothing. |
| `CinderStore.Store.TryGetSize` | glance_store/_drivers/cinder.py:139-143 | The `try` block returns a value only with a context and a found volume, and that value is `sizeGb * 1024^3`. Without a context it raises the context error before the client is used. With a context and a failed fetch it raises exactly that fetch's error. |
| `CinderStore.Store.GetSize` | glance_store/_drivers/cinder.py:126-156 | Maps every outcome: no context gives 0; a found volume gives its size in bytes. `NotFound` is raised exactly for cinder's not-found, and its message names the requested volume id. `BadStoreConfiguration` ("endpoint could not be determined") is raised exactly for `EndpointNotFound`. Every other error gives 0. A nonzero size only comes from a found volume. |
| `CinderStore.Store.GetSizeAsWritten` | glance_store/_drivers/cinder.py:144-148 | The handler as written raises `AttributeError` exactly when the service reports not-found and a context is present. It never raises `NotFound`. |
| `CinderStore.NotFoundHandlerCrashes` | glance_store/_drivers/cinder.py:144-148 | The written and the intended `get_size` differ on exactly one kind of input: a present context and a not-found volume. |
| `CinderStore.NoContextNoLookup` | glance_store/_drivers/cinder.py:139-156 | Without a context the result is 0 whatever the volume service would report, so the service is never consulted. |
| `CinderStore.FiveGigabytes` | glance_store/_drivers/cinder.py:142-143 | A volume of 5 GB is reported as 5368709120 bytes. |
| `CinderStore.ZeroIsAmbiguous` | glance_store/_drivers/cinder.py:143-156 | An empty volume and an unclassified failure both give the size 0. |
| `CinderLocation.Fields.Uri` | glance_store/_drivers/cinder.py:64-65 | The rendered URI is `cinder://` followed by the volume id as `%s` shows it (`None` for a missing id). The scheme attribute is ignored. |
| `CinderLocation.ParseEffect` | glance_store/_drivers/cinder.py:67-79 | Without the `cinder://` prefix: `BadStoreUri` ("must start with"), attributes unchanged. With it: the scheme becomes `cinder` and the volume id becomes `uri[9:]` verbatim, even if the check then fails. It succeeds exactly when that suffix is UUID-like, and otherwise raises `BadStoreUri` ("invalid volume ID"). On success the locator renders back to exactly `uri`. |
| `CinderLocation.FromSpecs` | glance_store/_drivers/cinder.py:60-62 | `scheme` is the specs mapping's `scheme`, defaulting to `cinder`. `volume_id` is copied verbatim, `None` when absent, with no UUID check. |
| `CinderLocation.PrefixCheckedFirst` | glance_store/_drivers/cinder.py:67-71 | A URI without the prefix fails the same way under any UUID test, and leaves the attributes as they were. |
| `CinderLocation.UriParsesBack` | glance_store/_drivers/cinder.py:64-79 | Rendering a locator with a UUID-like id and parsing the result succeeds with the same id. The locator comes back field for field when its scheme is `cinder`. |
| `CinderLocation.SpecsRoundTrip` | glance_store/_drivers/cinder.py:60-79 | A locator built from specs with a UUID-like `volume_id`, and either no scheme or scheme `cinder`, survives `get_uri` followed by `parse_uri` unchanged. |
| `CinderLocation.ExampleUri` | glance_store/_drivers/cinder.py:67-79 | `cinder://2aa1d1c2-5f0c-4e8f-8e0d-111111111111` parses to scheme `cinder` and that volume id, provided the id is UUID-like. |
| `CinderLocation.StoreLocation.constructor` | glance_store/_drivers/cinder.py:56-58 | A modelling choice, since the class inherits its constructor: a new locator records its specs and its attributes start empty (scheme `""`, volume id `None`). |
| `CinderLocation.StoreLocation.ProcessSpecs` | glance_store/_drivers/cinder.py:60-62 | The attributes become `FromSpecs(specs)`. |
| `CinderLocation.StoreLocation.GetUri` | glance_store/_drivers/cinder.py:64-65 | The URI starts with `cinder://` and continues with the shown volume id. |
| `CinderLocation.StoreLocation.ParseUri` | glance_store/_drivers/cinder.py:67-79 | The new attributes and the raised error are those that `ParseEffect` gives for the old attributes. On success `get_uri` returns exactly the parsed URI. |

## Left out

- Session creation from configuration (`session.Session.load_from_conf_options`) and option registration: these are identity-library and configuration plumbing. A failure while loading the session is not modelled.
- Building the cinder client and the `volumes.get` network call are not modelled. Their outcome, including any failure while building the client or reading the auth plugin, is the input `Fetch`.
- Endpoint-template interpolation in `_get_cinderclient` is not modelled as a computation. The interpolated value is never passed to the client. Its only observable effect is an exception: a missing key, a stray `%`, or a context without `to_dict`. Inside the `try`, any of these makes `get_size` return 0 without calling `volumes.get`. The model covers this case as `Fetch = Fails(OtherError(..))`.
- The auth plugin, region name and retry count are opaque values passed to the client library. They are not modelled. `RequestContext` has no fields; it only stands for a present context.
- Logging (`LOG.info`, `LOG.error`, `LOG.exception`) is a side channel and is not modelled.
- The body of `is_uuid_like` is not part of this model. It is a parameter of every operation that uses it.
- CinderLocation.StoreLocation.constructor: the constructor inherited from `glance_store.location.StoreLocation` is not modelled. That constructor may call `process_specs` itself when specs are given. In the model it only records the specs, so a caller must call `ProcessSpecs` explicitly.
- The base classes `glance_store.location.StoreLocation` and `glance_store.driver.Store` are not part of this model. The locator's constructor only records its specs. Attributes that Python has not set yet are modelled as an empty scheme and a `None` volume id. So the `AttributeError` that `get_uri` raises on a locator never filled in is not captured.
- Python's `str.split` is modelled only for the one-character separator the driver uses.

## Findings

| source | as written | input that shows it | evidently intended | confidence | as-written member | corrected member |
|---|---|---|---|---|---|---|
| glance_store/_drivers/cinder.py:144-148 | The `NotFound` handler formats its message from `self.volume_id`, an attribute `Store` never sets. The handler raises `AttributeError` instead of `NotFound`. | A present context, and a client whose `volumes.get` raises cinder's `NotFound` (lemma `CinderStore.NotFoundHandlerCrashes`). | Raise `NotFound` naming the requested volume, `loc.volume_id`, as the docstring at line 133 promises. | high; not executed; the base `Store` class is not part of this model | `CinderStore.Store.GetSizeAsWritten` | `CinderStore.Store.GetSize` |
