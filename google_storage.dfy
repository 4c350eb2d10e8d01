/**
 * GoogleStorageDriver: request shaping for the bucket and object operations, and the
 * mapping of JSON records returned by the service into Container and Object records.
 *
 * The network is an oracle: every operation takes the parsed response body the
 * service answered and returns the request(s) it sent through the connection.
 */
module GoogleStorage {
  import opened PyJson
  import opened GcsConnection

  /** A bucket: its name and the whole JSON record it was built from. */
  datatype Container = Container(name: Json, extra: map<string, Json>)

  /** An object of a bucket. `size` and `hash` are passed through untyped, as read. */
  datatype StorageObject = StorageObject(
    name: Json,
    size: Json,
    hash: Json,
    extra: map<string, Json>,
    metaData: Json,
    container: Container)

  // ---------------------------------------------------------------------------
  // Record mapping

  /** `_to_container`: the name is required, the whole item is kept as `extra`. */
  function ToContainer(item: Json): (r: Result<Container>)
    ensures r.Ok? <==> item.JObj? && "name" in item.fields
    ensures r.Ok? ==> r.value.name == item.fields["name"] && r.value.extra == item.fields
    ensures item.JObj? && "name" !in item.fields ==> r == Err(KeyError("name"))
    ensures !item.JObj? ==> r == Err(TypeError)
  {
    var name :- Subscript(item, "name");
    Ok(Container(name, item.fields))
  }

  /** `_to_object`: `metadata` defaults to an empty dict; `name`, `size` and `md5Hash`
      are required, looked up in that order; the whole item is kept as `extra`. */
  function ToObject(item: Json, container: Container): (r: Result<StorageObject>)
    ensures r.Ok? <==> item.JObj? && "name" in item.fields && "size" in item.fields && "md5Hash" in item.fields
    ensures r.Ok? ==>
      && r.value.name == item.fields["name"]
      && r.value.size == item.fields["size"]
      && r.value.hash == item.fields["md5Hash"]
      && r.value.extra == item.fields
      && r.value.metaData == (if "metadata" in item.fields then item.fields["metadata"] else JObj(map[]))
      && r.value.container == container
    ensures !item.JObj? ==> r == Err(AttributeError)
    ensures item.JObj? && "name" !in item.fields ==> r == Err(KeyError("name"))
    ensures item.JObj? && "name" in item.fields && "size" !in item.fields ==> r == Err(KeyError("size"))
    ensures item.JObj? && "name" in item.fields && "size" in item.fields && "md5Hash" !in item.fields ==>
      r == Err(KeyError("md5Hash"))
  {
    var metaData :- GetOr(item, "metadata", JObj(map[]));
    var name :- Subscript(item, "name");
    var size :- Subscript(item, "size");
    var hash :- Subscript(item, "md5Hash");
    Ok(StorageObject(name, size, hash, item.fields, metaData, container))
  }

  /** Maps every item in order, stopping at the first item that raises. */
  function MapAll<T>(items: seq<Json>, f: Json -> Result<T>): (r: Result<seq<T>>)
    ensures r.Ok? ==> |r.value| == |items|
    ensures r.Err? ==> exists i :: 0 <= i < |items| && f(items[i]) == Err(r.error)
    decreases |items|
  {
    if items == [] then Ok([])
    else
      var done :- MapAll(items[..|items| - 1], f);
      var last :- f(items[|items| - 1]);
      Ok(done + [last])
  }

  /** Success of `MapAll` is success on every item; the list then has one entry per
      item, in order. */
  lemma {:induction false} MapAllOk<T>(items: seq<Json>, f: Json -> Result<T>)
    ensures MapAll(items, f).Ok? <==> forall i :: 0 <= i < |items| ==> f(items[i]).Ok?
    ensures MapAll(items, f).Ok? ==>
      |MapAll(items, f).value| == |items| &&
      forall i :: 0 <= i < |items| ==> f(items[i]) == Ok(MapAll(items, f).value[i])
    decreases |items|
  {
    if items != [] {
      var front := items[..|items| - 1];
      MapAllOk(front, f);
      assert forall i :: 0 <= i < |front| ==> front[i] == items[i];
    }
  }

  /** `MapAll` raises the exception of the first item that raises. */
  lemma {:induction false} MapAllFirstError<T>(items: seq<Json>, f: Json -> Result<T>, k: nat)
    requires k < |items| && f(items[k]).Err?
    requires forall i :: 0 <= i < k ==> f(items[i]).Ok?
    ensures MapAll(items, f) == Err(f(items[k]).error)
    decreases |items|
  {
    var front := items[..|items| - 1];
    if k < |front| {
      MapAllFirstError(front, f, k);
    } else {
      MapAllOk(front, f);
      assert forall i :: 0 <= i < |front| ==> front[i] == items[i];
    }
  }

  /** Once a prefix raises, the whole list raises the same exception. */
  lemma {:induction false} MapAllPrefixError<T>(items: seq<Json>, f: Json -> Result<T>, k: nat)
    requires k <= |items| && MapAll(items[..k], f).Err?
    ensures MapAll(items, f) == MapAll(items[..k], f)
    decreases |items| - k
  {
    if k == |items| {
      assert items[..k] == items;
    } else {
      assert items[..k + 1][..k] == items[..k];
      MapAllPrefixError(items, f, k + 1);
    }
  }

  /** `_to_containers`: the result of `for item in data['items']: _to_container(item)`.
      Iterating a dict yields its keys and iterating a str its characters; each such
      str already raises when indexed by 'name', so only an empty one maps to []. */
  function ContainersFrom(data: Json): (r: Result<seq<Container>>)
    ensures !data.JObj? ==> r == Err(TypeError)
    ensures data.JObj? && "items" !in data.fields ==> r == Err(KeyError("items"))
    ensures r.Ok? && data.fields["items"].JArr? ==> |r.value| == |data.fields["items"].elems|
    ensures r.Ok? && !data.fields["items"].JArr? ==> r.value == []
    // an `items` value that is not a list maps only when it yields no item at all
    ensures data.JObj? && "items" in data.fields && !data.fields["items"].JArr? ==>
      (r.Ok? <==> data.fields["items"] == JObj(map[]) || data.fields["items"] == JStr(""))
  {
    var items :- Subscript(data, "items");
    match items
    case JArr(elems) => MapAll(elems, ToContainer)
    case JObj(fields) => if fields == map[] then Ok([]) else Err(TypeError)
    case JStr(s) => if s == "" then Ok([]) else Err(TypeError)
    case _ => Err(TypeError)
  }

  /** `_to_objects`: as `ContainersFrom`, with `_to_object`, whose `.get` raises
      AttributeError on a str item. */
  function ObjectsFrom(data: Json, container: Container): (r: Result<seq<StorageObject>>)
    ensures !data.JObj? ==> r == Err(TypeError)
    ensures data.JObj? && "items" !in data.fields ==> r == Err(KeyError("items"))
    ensures r.Ok? && data.fields["items"].JArr? ==> |r.value| == |data.fields["items"].elems|
    ensures r.Ok? && !data.fields["items"].JArr? ==> r.value == []
    // an `items` value that is not a list maps only when it yields no item at all
    ensures data.JObj? && "items" in data.fields && !data.fields["items"].JArr? ==>
      (r.Ok? <==> data.fields["items"] == JObj(map[]) || data.fields["items"] == JStr(""))
  {
    var items :- Subscript(data, "items");
    match items
    case JArr(elems) => MapAll(elems, item => ToObject(item, container))
    case JObj(fields) => if fields == map[] then Ok([]) else Err(AttributeError)
    case JStr(s) => if s == "" then Ok([]) else Err(AttributeError)
    case _ => Err(TypeError)
  }

  /** The str items that iterating a dict or a str yields raise at once in both mappers. */
  lemma StrItemsRaise(s: string, container: Container)
    ensures ToContainer(JStr(s)) == Err(TypeError)
    ensures ToObject(JStr(s), container) == Err(AttributeError)
  {
  }

  /** A list response maps to one Container per item, in order, or fails as a whole. */
  lemma ContainersFromList(data: Json)
    requires data.JObj? && "items" in data.fields && data.fields["items"].JArr?
    ensures var items := data.fields["items"].elems;
      && (ContainersFrom(data).Ok? <==> forall i :: 0 <= i < |items| ==> items[i].JObj? && "name" in items[i].fields)
      && (ContainersFrom(data).Ok? ==>
            |ContainersFrom(data).value| == |items| &&
            forall i :: 0 <= i < |items| ==>
              ContainersFrom(data).value[i] == Container(items[i].fields["name"], items[i].fields))
  {
    MapAllOk(data.fields["items"].elems, ToContainer);
  }

  /** A list response maps to one object per item, in order, all in `container`. */
  lemma ObjectsFromList(data: Json, container: Container)
    requires data.JObj? && "items" in data.fields && data.fields["items"].JArr?
    ensures var items := data.fields["items"].elems;
      && (ObjectsFrom(data, container).Ok? <==>
            forall i :: 0 <= i < |items| ==>
              items[i].JObj? && "name" in items[i].fields && "size" in items[i].fields && "md5Hash" in items[i].fields)
      && (ObjectsFrom(data, container).Ok? ==>
        |ObjectsFrom(data, container).value| == |items| &&
        forall i :: 0 <= i < |items| ==>
          ToObject(items[i], container) == Ok(ObjectsFrom(data, container).value[i]) &&
          ObjectsFrom(data, container).value[i].container == container)
  {
    MapAllOk(data.fields["items"].elems, item => ToObject(item, container));
  }

  /** A listing response without `items` raises KeyError, whatever else it holds. */
  lemma ListingNeedsItems(data: Json, container: Container)
    requires data.JObj? && "items" !in data.fields
    ensures ContainersFrom(data) == Err(KeyError("items"))
    ensures ObjectsFrom(data, container) == Err(KeyError("items"))
  {
  }

  /** The `for item in ...: values.append(f(item))` loop of both mappers over a list. */
  method AppendAll<T>(elems: seq<Json>, f: Json -> Result<T>) returns (r: Result<seq<T>>)
    ensures r == MapAll(elems, f)
  {
    var values: seq<T> := [];
    var i := 0;
    while i < |elems|
      invariant 0 <= i <= |elems|
      invariant MapAll(elems[..i], f) == Ok(values)
    {
      var value := f(elems[i]);
      assert elems[..i + 1][..i] == elems[..i];
      if value.Err? {
        MapAllPrefixError(elems, f, i + 1);
        return Err(value.error);
      }
      values := values + [value.value];
      i := i + 1;
    }
    assert elems[..i] == elems;
    r := Ok(values);
  }

  /** `_to_containers` as `google_json.py` runs it: look up `items`, then append in a loop. */
  method ToContainers(data: Json) returns (r: Result<seq<Container>>)
    ensures r == ContainersFrom(data)
  {
    var items := Subscript(data, "items");
    if items.Err? {
      return Err(items.error);
    }
    match items.value {
      case JArr(elems) =>
        r := AppendAll(elems, ToContainer);
      case JObj(fields) =>
        r := if fields == map[] then Ok([]) else Err(TypeError);
      case JStr(s) =>
        r := if s == "" then Ok([]) else Err(TypeError);
      case _ =>
        r := Err(TypeError);
    }
  }

  /** `_to_objects` as `google_json.py` runs it: look up `items`, then append in a loop. */
  method ToObjects(data: Json, container: Container) returns (r: Result<seq<StorageObject>>)
    ensures r == ObjectsFrom(data, container)
  {
    var items := Subscript(data, "items");
    if items.Err? {
      return Err(items.error);
    }
    match items.value {
      case JArr(elems) =>
        r := AppendAll(elems, item => ToObject(item, container));
      case JObj(fields) =>
        r := if fields == map[] then Ok([]) else Err(AttributeError);
      case JStr(s) =>
        r := if s == "" then Ok([]) else Err(AttributeError);
      case _ =>
        r := Err(TypeError);
    }
  }

  /** `delete_*`: the deletion is reported only for an empty body, the empty string. */
  function Deleted(body: Json): (deleted: bool)
    ensures deleted <==> body.JStr? && |body.s| == 0
  {
    body == JStr("")
  }

  // ---------------------------------------------------------------------------
  // Action paths

  /** The resources the driver addresses. */
  datatype Route =
    | Buckets
    | Bucket(bucket: string)
    | Objects(bucket: string)
    | Object(bucket: string, name: string)

  /** Bucket names hold no '/'; object names are arbitrary. */
  predicate WellFormed(route: Route)
  {
    match route
    case Buckets => true
    case Bucket(b) => '/' !in b
    case Objects(b) => '/' !in b
    case Object(b, _) => '/' !in b
  }

  /** The action path of a route, as the driver formats it. */
  function RouteAction(route: Route): (action: string)
    // every path lies under the bucket collection, a bucket's paths under the bucket
    ensures "/b" <= action
    ensures !route.Buckets? ==> "/b/" + route.bucket <= action
  {
    match route
    case Buckets => "/b"
    case Bucket(b) => "/b/" + b
    case Objects(b) => "/b/" + b + "/o"
    case Object(b, o) => "/b/" + b + "/o/" + o
  }

  /** The index of the first '/' in `s`, if any. */
  function FindSlash(s: string): (r: Option<nat>)
    ensures r.Some? ==> r.value < |s| && s[r.value] == '/' && '/' !in s[..r.value]
    ensures r.None? ==> '/' !in s
  {
    if s == [] then None
    else if s[0] == '/' then Some(0)
    else
      match FindSlash(s[1..])
      case None => None
      case Some(i) =>
        assert s[..i + 1] == [s[0]] + s[1..][..i];
        Some(i + 1)
  }

  /** Reads a route back from an action path; the bucket ends at the first '/'. */
  function ParseAction(action: string): Option<Route>
  {
    if action == "/b" then Some(Buckets)
    else if |action| < 3 || action[..3] != "/b/" then None
    else
      var rest := action[3..];
      match FindSlash(rest)
      case None => Some(Bucket(rest))
      case Some(i) =>
        var tail := rest[i..];
        if tail == "/o" then Some(Objects(rest[..i]))
        else if |tail| >= 3 && tail[..3] == "/o/" then Some(Object(rest[..i], tail[3..]))
        else None
  }

  /** The first '/' of `b + tail` is the first of `tail` when `b` has none. */
  lemma FindSlashAfter(b: string, tail: string)
    requires '/' !in b && |tail| > 0 && tail[0] == '/'
    ensures FindSlash(b + tail) == Some(|b|)
  {
    var s := b + tail;
    assert s[|b|] == '/';
    assert forall j :: 0 <= j < |b| ==> s[j] == b[j];
    assert forall i :: |b| < i <= |s| ==> s[..i][|b|] == '/';
  }

  /** Every well-formed route is read back from its action path. */
  lemma RouteRoundTrip(route: Route)
    requires WellFormed(route)
    ensures ParseAction(RouteAction(route)) == Some(route)
  {
    var action := RouteAction(route);
    match route
    case Buckets =>
    case Bucket(b) =>
      assert action[..3] == "/b/" && action[3..] == b;
    case Objects(b) =>
      assert action[..3] == "/b/" && action[3..] == b + "/o";
      FindSlashAfter(b, "/o");
      assert (b + "/o")[..|b|] == b && (b + "/o")[|b|..] == "/o";
    case Object(b, o) =>
      var rest := b + ("/o/" + o);
      assert action[..3] == "/b/" && action[3..] == rest;
      FindSlashAfter(b, "/o/" + o);
      assert rest[..|b|] == b && rest[|b|..] == "/o/" + o;
      assert ("/o/" + o)[..3] == "/o/" && ("/o/" + o)[3..] == o;
  }

  /** Whatever is read from an action path is a well-formed route that formats back to it. */
  lemma ParseSound(action: string)
    requires ParseAction(action).Some?
    ensures WellFormed(ParseAction(action).value)
    ensures RouteAction(ParseAction(action).value) == action
  {
  }

  /** Distinct well-formed routes never share an action path. */
  lemma RouteActionInjective(r1: Route, r2: Route)
    requires WellFormed(r1) && WellFormed(r2)
    ensures RouteAction(r1) == RouteAction(r2) <==> r1 == r2
  {
    RouteRoundTrip(r1);
    RouteRoundTrip(r2);
  }

  /** `delete_object`'s action: the object path without its leading '/', so it reads
      back as no route at all. */
  function DeleteObjectAction(bucket: string, name: string): (action: string)
    ensures "/" + action == RouteAction(Object(bucket, name))
    ensures ParseAction(action).None?
  {
    var action := "b/" + bucket + "/o/" + name;
    assert action[0] == 'b';
    action
  }

  // ---------------------------------------------------------------------------
  // The driver

  class StorageDriver {
    /** `self.project`: the project id sent when buckets are listed or created. */
    const project: Json
    const connection: Connection

    constructor (project: Json)
      ensures this.project == project
      ensures fresh(connection) && connection.gcsParams == null
    {
      this.project := project;
      connection := new Connection();
    }

    /** `iterate_containers`: GET /b with the project; all buckets of the response. */
    method IterateContainers(response: Response) returns (sent: Request, r: Result<seq<Container>>)
      modifies connection, connection.gcsParams
      ensures sent == old(connection.Outgoing(Request(RouteAction(Buckets), GET, map["project" := project], None)))
      ensures r == match old(connection.Outcome(response))
        case Err(e) => Err(e)
        case Ok(_) => ContainersFrom(response.body)
      ensures connection.AfterRequest(old(connection.gcsParams), old(connection.Bag()), response.body)
    {
      var received;
      sent, received := connection.Request(Request(RouteAction(Buckets), GET, map["project" := project], None), response);
      if received.Err? {
        return sent, Err(received.error);
      }
      r := ToContainers(received.value.body);
    }

    /** `iterate_container_objects`: GET /b/<bucket>/o; all objects of the response. */
    method IterateContainerObjects(container: Container, response: Response)
      returns (sent: Request, r: Result<seq<StorageObject>>)
      modifies connection, connection.gcsParams
      ensures sent == old(connection.Outgoing(Request(RouteAction(Objects(Text(container.name))), GET, map[], None)))
      ensures r == match old(connection.Outcome(response))
        case Err(e) => Err(e)
        case Ok(_) => ObjectsFrom(response.body, container)
      ensures connection.AfterRequest(old(connection.gcsParams), old(connection.Bag()), response.body)
    {
      var received;
      sent, received := connection.Request(Request(RouteAction(Objects(Text(container.name))), GET, map[], None), response);
      if received.Err? {
        return sent, Err(received.error);
      }
      r := ToObjects(received.value.body, container);
    }

    /** `get_container`: GET /b/<name>; the record is always built or a KeyError raised,
        so the "does not exist" branch of the Python code is never taken. */
    method GetContainer(name: string, response: Response) returns (sent: Request, r: Result<Container>)
      modifies connection, connection.gcsParams
      ensures sent == old(connection.Outgoing(Request(RouteAction(Bucket(name)), GET, map[], None)))
      ensures r == match old(connection.Outcome(response))
        case Err(e) => Err(e)
        case Ok(_) => ToContainer(response.body)
      ensures connection.AfterRequest(old(connection.gcsParams), old(connection.Bag()), response.body)
    {
      var received;
      sent, received := connection.Request(Request(RouteAction(Bucket(name)), GET, map[], None), response);
      if received.Err? {
        return sent, Err(received.error);
      }
      r := ToContainer(received.value.body);
    }

    /** `get_object`: resolves the bucket first, then GET /b/<bucket>/o/<object>. The first
        request consumes any page parameters, so the second goes out as built. */
    method GetObject(bucketName: string, objectName: string, bucketResponse: Response, objectResponse: Response)
      returns (sent: seq<Request>, r: Result<StorageObject>)
      modifies connection, connection.gcsParams
      ensures 1 <= |sent| <= 2
      ensures sent[0] == old(connection.Outgoing(Request(RouteAction(Bucket(bucketName)), GET, map[], None)))
      ensures |sent| == 2 <==> old(connection.Outcome(bucketResponse)).Ok? && ToContainer(bucketResponse.body).Ok?
      ensures |sent| == 2 ==> sent[1] == Request(RouteAction(Object(bucketName, objectName)), GET, map[], None)
      ensures r == match old(connection.Outcome(bucketResponse))
        case Err(e) => Err(e)
        case Ok(_) =>
          match ToContainer(bucketResponse.body)
          case Err(e) => Err(e)
          case Ok(container) => ToObject(objectResponse.body, container)
      ensures connection.AfterRequest(old(connection.gcsParams), old(connection.Bag()), bucketResponse.body)
    {
      var first, container := GetContainer(bucketName, bucketResponse);
      sent := [first];
      if container.Err? {
        return sent, Err(container.error);
      }
      assert !connection.Carrying();
      var second, received := connection.Request(Request(RouteAction(Object(bucketName, objectName)), GET, map[], None), objectResponse);
      sent := sent + [second];
      r := ToObject(received.value.body, container.value);
    }

    /** `delete_object`: DELETE b/<bucket>/o/<object> (no leading '/'); true only for an
        empty body. */
    method DeleteObject(obj: StorageObject, response: Response) returns (sent: Request, r: Result<bool>)
      modifies connection, connection.gcsParams
      ensures sent == old(connection.Outgoing(
        Request(DeleteObjectAction(Text(obj.container.name), Text(obj.name)), DELETE, map[], None)))
      ensures r == match old(connection.Outcome(response))
        case Err(e) => Err(e)
        case Ok(_) => Ok(Deleted(response.body))
      ensures connection.AfterRequest(old(connection.gcsParams), old(connection.Bag()), response.body)
    {
      var received;
      sent, received := connection.Request(
        Request(DeleteObjectAction(Text(obj.container.name), Text(obj.name)), DELETE, map[], None), response);
      if received.Err? {
        return sent, Err(received.error);
      }
      r := Ok(Deleted(received.value.body));
    }

    /** `create_container`: POST /b with the project and a body naming the bucket. */
    method CreateContainer(name: string, response: Response) returns (sent: Request, r: Result<Container>)
      modifies connection, connection.gcsParams
      ensures sent == old(connection.Outgoing(
        Request(RouteAction(Buckets), POST, map["project" := project], Some(map["name" := JStr(name)]))))
      ensures r == match old(connection.Outcome(response))
        case Err(e) => Err(e)
        case Ok(_) => ToContainer(response.body)
      ensures connection.AfterRequest(old(connection.gcsParams), old(connection.Bag()), response.body)
    {
      var received;
      sent, received := connection.Request(
        Request(RouteAction(Buckets), POST, map["project" := project], Some(map["name" := JStr(name)])), response);
      if received.Err? {
        return sent, Err(received.error);
      }
      r := ToContainer(received.value.body);
    }

    /** `delete_container`: DELETE /b/<bucket>; true only for an empty body. */
    method DeleteContainer(container: Container, response: Response) returns (sent: Request, r: Result<bool>)
      modifies connection, connection.gcsParams
      ensures sent == old(connection.Outgoing(Request(RouteAction(Bucket(Text(container.name))), DELETE, map[], None)))
      ensures r == match old(connection.Outcome(response))
        case Err(e) => Err(e)
        case Ok(_) => Ok(Deleted(response.body))
      ensures connection.AfterRequest(old(connection.gcsParams), old(connection.Bag()), response.body)
    {
      var received;
      sent, received := connection.Request(Request(RouteAction(Bucket(Text(container.name))), DELETE, map[], None), response);
      if received.Err? {
        return sent, Err(received.error);
      }
      r := Ok(Deleted(received.value.body));
    }

    /** `download_object`: GET /b/<bucket>/o/<object> with `alt=media`; the response is
        dropped and nothing is returned. */
    method DownloadObject(obj: StorageObject, response: Response) returns (sent: Request, r: Result<()>)
      modifies connection, connection.gcsParams
      ensures sent == old(connection.Outgoing(
        Request(RouteAction(Object(Text(obj.container.name), Text(obj.name))), GET, map["alt" := JStr("media")], None)))
      ensures r == match old(connection.Outcome(response))
        case Err(e) => Err(e)
        case Ok(_) => Ok(())
      ensures connection.AfterRequest(old(connection.gcsParams), old(connection.Bag()), response.body)
    {
      var received;
      sent, received := connection.Request(
        Request(RouteAction(Object(Text(obj.container.name), Text(obj.name))), GET, map["alt" := JStr("media")], None),
        response);
      if received.Err? {
        return sent, Err(received.error);
      }
      r := Ok(());
    }
  }
}
