# Google Cloud Storage JSON driver: a Dafny model

This project models the core of libcloud's Google Cloud Storage driver
(`libcloud/storage/drivers/google_json.py`). The model has three parts:

- **Page-token carry-over in the connection** (`GcsConnection`). `Connection`
  has one nullable field, `gcsParams`. It points to a `Dict`, a heap object
  that callers may share. Before a request is sent, `PreConnectHook` merges the
  dict into the query parameters in place. After the response arrives,
  `Request` changes the same dict in place: it stores `nextPageToken` as
  `pageToken`, or drops a stale `pageToken`. Then it clears the field. An empty
  dict is falsy in Python, so an empty dict is neither merged nor cleared.
  `CarryOver` states the new contents of the dict, and the exception raised
  when the body cannot be looked into (`'nextPageToken' in body` on a number or
  `None`, or a str or list body that mentions the token but cannot be indexed
  by it).
- **Record mapping** (`GoogleStorage.ToContainer`, `ToObject`, and
  `ToContainers`/`ToObjects`, which share the appending loop `AppendAll`).
  Each is specified by a function (`ContainersFrom`/`ObjectsFrom`) over
  `MapAll`, which maps the items in order and stops at the first item that
  raises. A JSON object is a
  `map<string, Json>`. Python's `KeyError`, `TypeError` and `AttributeError`
  are values of `PyError` inside a `Result`. A listing body without `items`
  raises `KeyError('items')`.
- **Request shaping and the delete result**. The driver's paths are the
  action strings of a `Route` (`/b`, `/b/<bucket>`, `/b/<bucket>/o`,
  `/b/<bucket>/o/<object>`). `ParseAction` reads a route back, which shows the
  paths are unambiguous when bucket names hold no `/`. `delete_object` builds
  its path without the leading `/` (line 140). `DeleteObjectAction` proves
  that this string is the object path minus its first character, and that it
  reads back as no route. Whether the request still reaches the object depends
  on how the base connection joins paths. That code is not part of this
  model, so this is not claimed as a defect. `delete_*` report success exactly
  when the body is the empty string.

The network is an oracle. Each `StorageDriver` method takes the parsed
response the service returned and gives back the request or requests it sent.
The connection's state afterwards is as one `Request` leaves it.
`GetObject` proves that its second request never carries page parameters: the
first request has already cleared them or found none.

Four behaviours of the code that are easy to misread:

- `iterate_containers`/`iterate_container_objects` make one request and map
  one page. They do not page through results.
- `download_object` sends the request and drops the response. It writes no
  file and has no overwrite or cleanup logic.
- `get_container`/`get_object` never report "not found" themselves. The
  mappers either build a record or raise, so the fallback branch
  (lines 120-124, 131-134) cannot be reached.
- `delete_object`'s path has no leading slash.

## Model

| member | source | states |
|---|---|---|
| `PyJson.HasSubstring` | libcloud/storage/drivers/google_json.py:82 | `'nextPageToken' in s` on a str body holds exactly when the token name occurs at some index of `s` |
| `PyJson.Contains` | libcloud/storage/drivers/google_json.py:82 | Python `in`: dict key test, substring search on a str, element search on a list; `None`, bools and numbers raise `TypeError` |
| `PyJson.Subscript` | libcloud/storage/drivers/google_json.py:83 | `x[key]` succeeds exactly on a dict holding `key`; a dict without it raises `KeyError(key)`; any other value raises `TypeError` |
| `PyJson.GetOr` | libcloud/storage/drivers/google_json.py:188 | `x.get(key, default)` gives the stored value or the default on a dict; any other value raises `AttributeError` |
| `GcsConnection.CarryOver` | libcloud/storage/drivers/google_json.py:81-85 | a body with `nextPageToken` stores it as `pageToken` and changes no other key; a body without it drops `pageToken` and changes no other key, and leaves a dict without `pageToken` untouched; an object body never raises; scalar bodies, and str or list bodies that mention the token, raise `TypeError` |
| `GcsConnection.Connection.constructor` | libcloud/storage/drivers/google_json.py:51-57 | a new connection sends its actions under `/storage/v1` and has no page parameters |
| `GcsConnection.Connection.Carrying` | libcloud/storage/drivers/google_json.py:67 | `if self.gcs_params:` holds exactly when the field is not `None` and the dict has non-zero length |
| `GcsConnection.Connection.PreConnectHook` | libcloud/storage/drivers/google_json.py:59-69 | a non-empty page dict is merged into the parameters in place, its entries overriding; otherwise the parameters are left unchanged; the page dict is never changed |
| `GcsConnection.Connection.Request` | libcloud/storage/drivers/google_json.py:71-88 | the sent request carries the merged parameters; if the field held a non-empty dict on entry, the same dict object now has the carried-over contents and the field is `None`; if it held `None` or an empty dict, nothing changes; if looking into the body raises, nothing changes and the exception is returned |
| `GcsConnection.RequestPage` | libcloud/storage/drivers/google_json.py:59-88 | a caller that puts its non-empty dict in the field and requests a page sends its parameters merged with the dict; the field is cleared; the caller's dict now holds the page's `nextPageToken` as `pageToken`, or has lost `pageToken` |
| `GcsConnection.TwoPages` | libcloud/storage/drivers/google_json.py:59-88 | a caller that holds the dict sees page one's token in its dict; request two sends `pageToken`; after a last page without a token the dict is back to what the caller put in |
| `GoogleStorage.ToContainer` | libcloud/storage/drivers/google_json.py:176-178 | success exactly when the item is a dict with `name`; the name is `item['name']` and `extra` is the whole item; otherwise `KeyError('name')`, or `TypeError` for a non-dict |
| `GoogleStorage.ToObject` | libcloud/storage/drivers/google_json.py:187-191 | success exactly when the item is a dict with `name`, `size` and `md5Hash`; the fields are taken from those keys; `meta_data` is `metadata` or `{}`; `extra` is the whole item; the container is the one passed in; the first missing key in that order raises `KeyError`; a non-dict raises `AttributeError` |
| `GoogleStorage.MapAll` | libcloud/storage/drivers/google_json.py:171-173 | a successful mapping has one record per item; a failed one raises the exception of some item |
| `GoogleStorage.MapAllOk` | libcloud/storage/drivers/google_json.py:171-174 | mapping a list succeeds exactly when every item maps; the result then has one entry per item, and entry i is the mapping of item i |
| `GoogleStorage.MapAllFirstError` | libcloud/storage/drivers/google_json.py:171-173 | a failed mapping raises the exception of the first item that fails |
| `GoogleStorage.MapAllPrefixError` | libcloud/storage/drivers/google_json.py:171-173 | once a prefix of the items fails, the whole loop fails with the same exception |
| `GoogleStorage.ContainersFrom` | libcloud/storage/drivers/google_json.py:169-174 | a non-dict body raises `TypeError`; a dict without `items` raises `KeyError('items')`; a list of items gives one container per item; any other `items` value raises, except an empty dict or str, which gives no container |
| `GoogleStorage.ObjectsFrom` | libcloud/storage/drivers/google_json.py:180-185 | a non-dict body raises `TypeError`; a dict without `items` raises `KeyError('items')`; a list of items gives one object per item; any other `items` value raises, except an empty dict or str, which gives no object |
| `GoogleStorage.StrItemsRaise` | libcloud/storage/drivers/google_json.py:171-172 | a str item, which iterating a dict or a str yields, makes `_to_container` raise `TypeError` and `_to_object` raise `AttributeError` |
| `GoogleStorage.ContainersFromList` | libcloud/storage/drivers/google_json.py:169-174 | a list of items maps to as many containers, in order, each with the item's name and the item as `extra`; success exactly when every item is a dict with `name` |
| `GoogleStorage.ObjectsFromList` | libcloud/storage/drivers/google_json.py:180-185 | a list of items maps to as many objects, in order, all attached to the same container; success exactly when every item has the three required keys |
| `GoogleStorage.ListingNeedsItems` | libcloud/storage/drivers/google_json.py:171 | a listing body that is a dict without `items` raises `KeyError('items')` in both mappers |
| `GoogleStorage.AppendAll` | libcloud/storage/drivers/google_json.py:171-174 | the appending loop over a list of items computes exactly `MapAll`: every record in order, or the first exception |
| `GoogleStorage.ToContainers` | libcloud/storage/drivers/google_json.py:169-174 | looking up `items` and running the appending loop computes exactly `ContainersFrom(data)` |
| `GoogleStorage.ToObjects` | libcloud/storage/drivers/google_json.py:180-185 | looking up `items` and running the appending loop computes exactly `ObjectsFrom(data, container)` |
| `GoogleStorage.Deleted` | libcloud/storage/drivers/google_json.py:142-144 | a delete reports true exactly when the body is the empty string |
| `PyJson.Text` | libcloud/storage/drivers/google_json.py:111 | `'%s' % name` inserts a str name unchanged; a name that is `None`, a bool or an integer never brings a `/` into the path |
| `GoogleStorage.RouteAction` | libcloud/storage/drivers/google_json.py:104-128 | every action path starts with `/b`; a bucket's paths start with `/b/<bucket>` |
| `GoogleStorage.RouteRoundTrip` | libcloud/storage/drivers/google_json.py:104-128 | every path built for a bucket without `/` reads back as the route it was built from |
| `GoogleStorage.ParseSound` | libcloud/storage/drivers/google_json.py:104-128 | every path that reads back as a route is exactly that route's formatted path |
| `GoogleStorage.RouteActionInjective` | libcloud/storage/drivers/google_json.py:104-128 | two routes with `/`-free bucket names share a path only when they are the same route |
| `GoogleStorage.DeleteObjectAction` | libcloud/storage/drivers/google_json.py:140 | the delete path is the object path without its leading `/`, and it reads back as no route |
| `GoogleStorage.StorageDriver.constructor` | libcloud/storage/drivers/google_json.py:99-101 | the driver keeps the project and starts with a fresh connection that holds no page parameters |
| `GoogleStorage.StorageDriver.IterateContainers` | libcloud/storage/drivers/google_json.py:103-108 | sends GET `/b` with `project`; the result is the container mapping of the body, or the connection's exception |
| `GoogleStorage.StorageDriver.IterateContainerObjects` | libcloud/storage/drivers/google_json.py:110-114 | sends GET `/b/<bucket>/o` with no parameters; the result is the object mapping of the body, all in the given container |
| `GoogleStorage.StorageDriver.GetContainer` | libcloud/storage/drivers/google_json.py:116-124 | sends GET `/b/<name>`; the result is the mapped container or an exception, never an absent value |
| `GoogleStorage.StorageDriver.GetObject` | libcloud/storage/drivers/google_json.py:126-135 | resolves the bucket first; the object request is sent only if that succeeded and never carries page parameters; the object is attached to the resolved container |
| `GoogleStorage.StorageDriver.DeleteObject` | libcloud/storage/drivers/google_json.py:137-144 | sends DELETE `b/<bucket>/o/<object>`; true exactly for an empty body |
| `GoogleStorage.StorageDriver.CreateContainer` | libcloud/storage/drivers/google_json.py:146-152 | sends POST `/b` with `project` and the body `{name}`; the result is the mapped container |
| `GoogleStorage.StorageDriver.DeleteContainer` | libcloud/storage/drivers/google_json.py:154-159 | sends DELETE `/b/<bucket>`; true exactly for an empty body |
| `GoogleStorage.StorageDriver.DownloadObject` | libcloud/storage/drivers/google_json.py:161-166 | sends GET `/b/<bucket>/o/<object>` with `alt=media` and returns nothing |

## Left out

- HTTP transport, OAuth2 credentials and the HTTP-status-to-exception mapping of the base connection. These live in a module that is not part of this model. A response is an input value, and only successful responses are modelled.
- The base connection's own `pre_connect_hook` and `request`. The model starts from the parameters that the parent hook returns. Headers, which pass through unchanged, are not modelled. The distinction between passing no parameters and passing `{}` is not kept: both are the empty map.
- `PyJson.Text`: the `%s` rendering of a name is exact for str, `None`, bools and integers. A JSON list or dict used as a name is rendered as a fixed placeholder, because Python's `repr` of them is not modelled. Such a repr may contain `/`, so the contract claims a `/`-free rendering only for `None`, bools and integers.
- JSON numbers are integers. Fractional numbers are not modelled.
- Dict insertion order is not kept (`map`). The only place it could matter is iterating a dict of items. There every key is a str, and the first key already raises (`StrItemsRaise`), so the order does not change the outcome.
- The `driver` back-reference of `Container`/`Object` and the `StorageDriver`, `Container` and `Object` base classes. The records hold only the fields the driver sets.
- `download_object` streaming, overwrite checks and cleanup: the code has none of them.
- A loop over several pages: no driver method sets `gcs_params`, and each `iterate_*` makes one request. `TwoPages` shows a caller driving the carry-over.
- The raise statements in the "not found" branches of `get_container`/`get_object`. They cannot be reached, and they name exception classes that are never imported.
- Thread-safety of the shared `gcs_params` slot, a concurrency concern.
- Unused imports and constants (`datetime`, `time`, `parse_date`, `LazyObject`, `DEFAULT_TASK_COMPLETION_TIMEOUT`).
