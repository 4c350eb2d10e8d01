/**
 * GCSConnection: the page-token carry-over around each request.
 *
 * The connection owns one nullable slot, `gcsParams`, that may point to a dict of
 * extra query parameters. Before a request is sent the dict is merged into the
 * outgoing parameters; after the response arrives the dict itself is updated in
 * place (the next page token is stored as `pageToken`, or a stale `pageToken` is
 * dropped) and the slot is emptied. A caller that still holds the same dict sees
 * the update, which is why the dict is a heap object here.
 */
module GcsConnection {
  import opened PyJson

  /** The version of the JSON API the driver speaks. */
  const API_VERSION := "v1"

  datatype HttpMethod = GET | POST | DELETE

  /** What the driver asks the transport to send: action path, HTTP verb, query
      parameters (none given is the empty map) and an optional JSON body. */
  datatype Request = Request(
    action: string,
    verb: HttpMethod,
    params: map<string, Json>,
    data: Option<map<string, Json>>)

  /** The parsed body of a successful response (`response.object`): a JSON value,
      or the empty string for an empty body. */
  datatype Response = Response(body: Json)

  /** A Python dict object; several references may share it. */
  class Dict {
    var entries: map<string, Json>

    constructor (entries: map<string, Json>)
      ensures this.entries == entries
    {
      this.entries := entries;
    }
  }

  /** `a` and `b` hold the same keys with the same values, except possibly `key`. */
  ghost predicate AgreeExcept(a: map<string, Json>, b: map<string, Json>, key: string)
  {
    (forall k :: k != key && k in a ==> k in b && b[k] == a[k]) &&
    (forall k :: k != key && k in b ==> k in a)
  }

  /** The body holds a next page token in the sense of Python's `'nextPageToken' in body`. */
  ghost predicate MentionsToken(body: Json)
  {
    match body
    case JObj(fields) => "nextPageToken" in fields
    case JStr(s) => exists i: nat :: OccursAt(s, "nextPageToken", i)
    case JArr(elems) => exists i :: 0 <= i < |elems| && elems[i] == JStr("nextPageToken")
    case _ => false
  }

  /** The new contents of a set, non-empty page-parameter dict after a response with
      body `body`, or the exception raised while looking into the body. */
  function CarryOver(entries: map<string, Json>, body: Json): (r: Result<map<string, Json>>)
    // a next page token is stored as `pageToken`, nothing else changes
    ensures body.JObj? && "nextPageToken" in body.fields ==>
      r.Ok? && "pageToken" in r.value && r.value["pageToken"] == body.fields["nextPageToken"] &&
      AgreeExcept(entries, r.value, "pageToken")
    // without one, a stale `pageToken` is removed, nothing else changes
    ensures !MentionsToken(body) && !(body.JNull? || body.JBool? || body.JNum?) ==>
      r.Ok? && "pageToken" !in r.value && AgreeExcept(entries, r.value, "pageToken")
    ensures !MentionsToken(body) && "pageToken" !in entries && !(body.JNull? || body.JBool? || body.JNum?) ==>
      r == Ok(entries)
    // a JSON object body never raises; a scalar body, or a str or list that mentions
    // the token name but cannot be indexed by it, raises TypeError
    ensures r.Err? <==> body.JNull? || body.JBool? || body.JNum? || (MentionsToken(body) && !body.JObj?)
    ensures r.Err? ==> r.error == TypeError
  {
    match Contains(body, "nextPageToken")
    case Err(e) => Err(e)
    case Ok(true) =>
      (match Subscript(body, "nextPageToken")
       case Err(e) => Err(e)
       case Ok(token) => Ok(entries["pageToken" := token]))
    case Ok(false) =>
      Ok(if "pageToken" in entries then entries - {"pageToken"} else entries)
  }

  /** On a JSON object body the carry-over never raises: it stores the token or drops a stale one. */
  lemma CarryOverObject(entries: map<string, Json>, fields: map<string, Json>)
    ensures CarryOver(entries, JObj(fields)) ==
      if "nextPageToken" in fields then Ok(entries["pageToken" := fields["nextPageToken"]])
      else if "pageToken" in entries then Ok(entries - {"pageToken"})
      else Ok(entries)
  {
  }

  class Connection {
    /** `self.gcs_params`: None, or a dict shared with whoever put it there. */
    var gcsParams: Dict?
    /** `self.request_path`: the versioned prefix the base connection puts before every action. */
    const requestPath: string

    constructor ()
      ensures requestPath == "/storage/v1"
      ensures gcsParams == null
    {
      requestPath := "/storage/" + API_VERSION;
      gcsParams := null;
    }

    /** Python truthiness of `self.gcs_params`: not None and of non-zero length. */
    function Carrying(): (truthy: bool)
      reads this, gcsParams
      ensures truthy <==> gcsParams != null && exists k :: k in gcsParams.entries
    {
      gcsParams != null && gcsParams.entries != map[]
    }

    /** The contents of the slot's dict, empty when the slot is None. */
    ghost function Bag(): map<string, Json>
      reads this, gcsParams
    {
      if gcsParams == null then map[] else gcsParams.entries
    }

    /** The request as it leaves after `PreConnectHook` in the current state. */
    function Outgoing(req: Request): Request
      reads this, gcsParams
    {
      if Carrying() then req.(params := req.params + gcsParams.entries) else req
    }

    /** What `Request` returns for `response` in the current state. */
    function Outcome(response: Response): Result<Response>
      reads this, gcsParams
    {
      if !Carrying() then Ok(response)
      else match CarryOver(gcsParams.entries, response.body)
        case Ok(_) => Ok(response)
        case Err(e) => Err(e)
    }

    /** The slot and the dict `slot` it held on entry, with contents `entries`, are as
        one `Request` that received `body` leaves them. */
    ghost predicate AfterRequest(slot: Dict?, entries: map<string, Json>, body: Json)
      reads this, slot
    {
      if slot != null && entries != map[] then
        match CarryOver(entries, body)
        case Ok(next) => gcsParams == null && slot.entries == next
        case Err(_) => gcsParams == slot && slot.entries == entries
      else
        gcsParams == slot && (slot != null ==> slot.entries == entries)
    }

    /** Merges the page parameters into the (already prepared) query parameters, in place. */
    method PreConnectHook(params: Dict) returns (merged: Dict)
      modifies params
      ensures merged == params
      ensures old(Carrying()) ==> params.entries == old(params.entries) + old(gcsParams.entries)
      ensures !old(Carrying()) ==> params.entries == old(params.entries)
      ensures gcsParams != null ==> gcsParams.entries == old(gcsParams.entries)
    {
      if gcsParams != null && gcsParams.entries != map[] {
        params.entries := params.entries + gcsParams.entries;
      }
      merged := params;
    }

    /** Sends `req` (the transport answers `response`), then carries the page token over. */
    method Request(req: Request, response: Response) returns (sent: Request, r: Result<Response>)
      modifies this, gcsParams
      ensures sent == old(Outgoing(req))
      ensures r == old(Outcome(response))
      ensures AfterRequest(old(gcsParams), old(Bag()), response.body)
    {
      var params := new Dict(req.params);
      params := PreConnectHook(params);
      sent := req.(params := params.entries);
      if gcsParams != null && gcsParams.entries != map[] {
        var mentions := Contains(response.body, "nextPageToken");
        if mentions.Err? {
          return sent, Err(mentions.error);
        }
        if mentions.value {
          var token := Subscript(response.body, "nextPageToken");
          if token.Err? {
            return sent, Err(token.error);
          }
          gcsParams.entries := gcsParams.entries["pageToken" := token.value];
        } else if "pageToken" in gcsParams.entries {
          gcsParams.entries := gcsParams.entries - {"pageToken"};
        }
        gcsParams := null;
      }
      r := Ok(response);
    }
  }

  /** `params.update(d)` with a one-entry dict is a single assignment. */
  lemma UpdateWithOne(params: map<string, Json>, k: string, v: Json)
    ensures params + map[k := v] == params[k := v]
  {
  }

  /** `params.update(d)` with a two-entry dict is two assignments in order. */
  lemma UpdateWithTwo(params: map<string, Json>, k1: string, v1: Json, k2: string, v2: Json)
    ensures params + map[k1 := v1][k2 := v2] == params[k1 := v1][k2 := v2]
  {
  }

  /** A caller hands its dict `bag` to the connection and requests one page, which
      answers the JSON object `fields`. */
  method RequestPage(connection: Connection, bag: Dict, req: Request, fields: map<string, Json>)
    returns (sent: Request)
    requires bag.entries != map[]
    modifies connection, bag
    ensures sent.params == req.params + old(bag.entries)
    ensures connection.gcsParams == null
    ensures "nextPageToken" in fields ==> bag.entries == old(bag.entries)["pageToken" := fields["nextPageToken"]]
    ensures "nextPageToken" !in fields ==> bag.entries == old(bag.entries) - {"pageToken"}
  {
    connection.gcsParams := bag;
    assert connection.Carrying();
    ghost var entries := bag.entries;
    CarryOverObject(entries, fields);
    var page;
    sent, page := connection.Request(req, Response(JObj(fields)));
    if "nextPageToken" !in fields && "pageToken" !in entries {
      assert entries - {"pageToken"} == entries;
    }
  }

  /** A caller lists two pages with a page size: it keeps the dict, hands it to the
      connection before each request, and the token of page one travels in request two;
      afterwards its dict is back to what it put in. */
  method TwoPages(req: Request, pageSize: Json, token: Json) returns (first: Request, second: Request, bag: Dict)
    ensures first.params == req.params["maxResults" := pageSize]
    ensures second.params == req.params["maxResults" := pageSize]["pageToken" := token]
    ensures bag.entries == map["maxResults" := pageSize]
  {
    var connection := new Connection();
    var start := map["maxResults" := pageSize];
    var carried := start["pageToken" := token];
    bag := new Dict(start);
    assert "maxResults" in bag.entries;
    first := RequestPage(connection, bag, req, map["nextPageToken" := token]);
    UpdateWithOne(req.params, "maxResults", pageSize);
    assert bag.entries == carried && "maxResults" in carried;
    second := RequestPage(connection, bag, req, map[]);
    UpdateWithTwo(req.params, "maxResults", pageSize, "pageToken", token);
    assert carried - {"pageToken"} == start;
  }
}
