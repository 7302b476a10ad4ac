/** The seed export endpoint: a GET handler that lists every server of the
    registry in one page, enriches each entry with its details, falls back to
    the bare listing entry when a detail lookup fails, and writes the result as
    one JSON array.

    The registry is an oracle (its listing for a given cursor and limit, and a
    detail lookup per ID); the handler reports the calls it makes on it, in
    order, so that what it asks of the registry can be stated. The response
    writer is a small recorder object that the handler changes step by step. */
module SeedExport {
  import opened Model

  const MethodGet := "GET"

  /** The single page the handler asks for: an empty cursor and a limit meant
      to be larger than the registry. */
  const ListCursor := ""
  const ListLimit := 10000

  const StatusOK := 200
  const StatusMethodNotAllowed := 405
  const StatusInternalServerError := 500

  /** What `List` returns: the page of servers and a next cursor, or an error. */
  datatype ListResult = Listed(servers: seq<Server>, nextCursor: string) | ListFailed

  /** The two registry operations the handler uses; `getById` yields None when
      the lookup returns an error. */
  datatype Registry = Registry(
    list: (string, int) -> ListResult,
    getById: string -> Option<ServerDetail>)

  /** A call made on the registry. */
  datatype Call = ListCall(cursor: string, limit: int) | GetByIdCall(id: string)

  /** One slot of the exported array. `Unset` is the nil a freshly made slot
      holds before the loop fills it; `Degraded` is the bare listing entry
      used when the detail lookup failed. */
  datatype Entry = Unset | Detail(detail: ServerDetail) | Degraded(server: Server)

  datatype Body = NoBody | Text(text: string) | Json(entries: seq<Entry>)

  datatype Response = Response(status: int, header: map<string, string>, body: Body)

  /** A finished response together with the registry calls that produced it. */
  datatype Exchange = Exchange(response: Response, calls: seq<Call>)

  /** The slot for one listed server, given the outcome of its detail lookup. */
  function EntryFor(server: Server, found: Option<ServerDetail>): Entry
  {
    match found
    case Some(d) => Detail(d)
    case None => Degraded(server)
  }

  /** The exported entries of a listing, position by position. */
  function Enrich(servers: seq<Server>, getById: string -> Option<ServerDetail>): seq<Entry>
  {
    seq(|servers|, i requires 0 <= i < |servers| => EntryFor(servers[i], getById(servers[i].id)))
  }

  /** One detail lookup per listed server, in listing order. */
  function Lookups(servers: seq<Server>): seq<Call>
  {
    seq(|servers|, i requires 0 <= i < |servers| => GetByIdCall(servers[i].id))
  }

  /** What `http.Error` leaves in a response: the status, a plain-text content
      type, the no-sniff header and the message followed by a newline. */
  function ErrorResponse(header: map<string, string>, message: string, status: int): Response
  {
    Response(status,
      header["Content-Type" := "text/plain; charset=utf-8"]["X-Content-Type-Options" := "nosniff"],
      Text(message + "\n"))
  }

  /** The headers set before the body is encoded. */
  function SeedHeaders(header: map<string, string>): map<string, string>
  {
    header["Content-Type" := "application/json"]
          ["Access-Control-Allow-Origin" := "*"]
          ["Access-Control-Allow-Methods" := "GET"]
          ["Access-Control-Allow-Headers" := "Content-Type"]
  }

  /** The response and the registry calls of one request, starting from the
      headers the writer already holds; `encodeOk` is whether encoding the
      array succeeds. */
  function Respond(header: map<string, string>, requestMethod: string, registry: Registry, encodeOk: bool): Exchange
  {
    if requestMethod != MethodGet then
      Exchange(ErrorResponse(header["Allow" := "GET"], "Method not allowed", StatusMethodNotAllowed), [])
    else
      match registry.list(ListCursor, ListLimit)
      case ListFailed =>
        Exchange(ErrorResponse(header, "Internal server error", StatusInternalServerError), [ListCall(ListCursor, ListLimit)])
      case Listed(servers, _) =>
        var calls := [ListCall(ListCursor, ListLimit)] + Lookups(servers);
        if encodeOk then
          Exchange(Response(StatusOK, SeedHeaders(header), Json(Enrich(servers, registry.getById))), calls)
        else
          Exchange(ErrorResponse(SeedHeaders(header), "Internal server error", StatusInternalServerError), calls)
  }

  /** The per-entry loop: a slot per listed server, filled by index with the
      detail when its lookup succeeds and with the bare server otherwise; a
      failed lookup moves on to the next server. */
  method CollectDetails(servers: seq<Server>, getById: string -> Option<ServerDetail>)
    returns (entries: seq<Entry>, calls: seq<Call>)
    ensures |entries| == |servers| && |calls| == |servers|
    ensures forall i :: 0 <= i < |servers| ==> calls[i] == GetByIdCall(servers[i].id)
    ensures forall i :: 0 <= i < |servers| ==>
      match getById(servers[i].id)
      case Some(d) => entries[i] == Detail(d)
      case None => entries[i] == Degraded(servers[i])
    ensures forall i :: 0 <= i < |entries| ==> entries[i] != Unset
  {
    var details := new Entry[|servers|];
    calls := [];
    for i := 0 to |servers|
      invariant |calls| == i
      invariant forall j :: 0 <= j < i ==> calls[j] == GetByIdCall(servers[j].id)
      invariant forall j :: 0 <= j < i ==> details[j] == EntryFor(servers[j], getById(servers[j].id))
    {
      var server := servers[i];
      var detail := getById(server.id);
      calls := calls + [GetByIdCall(server.id)];
      if detail.None? {
        details[i] := Degraded(server);
        continue;
      }
      details[i] := Detail(detail.value);
    }
    entries := details[..];
  }

  /** The response writer the handler is given: a status, a header map and
      what has been written. */
  class ResponseRecorder {
    var status: int
    var header: map<string, string>
    var body: Body

    constructor ()
      ensures status == StatusOK && header == map[] && body == NoBody
    {
      status, header, body := StatusOK, map[], NoBody;
    }

    function Snapshot(): Response
      reads this
    {
      Response(status, header, body)
    }

    /** `Header().Set`. */
    method SetHeader(key: string, value: string)
      modifies this
      ensures header == old(header)[key := value]
      ensures status == old(status) && body == old(body)
    {
      header := header[key := value];
    }

    /** `http.Error`. */
    method Error(message: string, code: int)
      modifies this
      ensures Snapshot() == ErrorResponse(old(header), message, code)
    {
      header := header["Content-Type" := "text/plain; charset=utf-8"]["X-Content-Type-Options" := "nosniff"];
      status := code;
      body := Text(message + "\n");
    }

    /** A successful encode: the first write commits status 200. */
    method WriteJson(entries: seq<Entry>)
      modifies this
      ensures status == StatusOK && body == Json(entries)
      ensures header == old(header)
    {
      status := StatusOK;
      body := Json(entries);
    }
  }

  /** The handler. The registry is consulted as the calls returned say; the
      writer ends as `Respond` describes. */
  method SeedHandler(w: ResponseRecorder, requestMethod: string, registry: Registry, encodeOk: bool)
    returns (calls: seq<Call>)
    requires w.body == NoBody
    modifies w
    ensures Exchange(w.Snapshot(), calls) == Respond(old(w.header), requestMethod, registry, encodeOk)
  {
    calls := [];
    if requestMethod != MethodGet {
      w.SetHeader("Allow", "GET");
      w.Error("Method not allowed", StatusMethodNotAllowed);
      return;
    }

    var listing := registry.list(ListCursor, ListLimit);
    calls := calls + [ListCall(ListCursor, ListLimit)];
    if listing.ListFailed? {
      w.Error("Internal server error", StatusInternalServerError);
      return;
    }

    var servers := listing.servers;
    var entries, lookups := CollectDetails(servers, registry.getById);
    calls := calls + lookups;
    assert entries == Enrich(servers, registry.getById);
    assert lookups == Lookups(servers);

    w.SetHeader("Content-Type", "application/json");
    w.SetHeader("Access-Control-Allow-Origin", "*");
    w.SetHeader("Access-Control-Allow-Methods", "GET");
    w.SetHeader("Access-Control-Allow-Headers", "Content-Type");

    if !encodeOk {
      w.Error("Internal server error", StatusInternalServerError);
      return;
    }
    w.WriteJson(entries);
  }

  // Properties of a request, stated on Respond.

  /** Any method but GET is refused with 405 and `Allow: GET`, whatever the
      registry holds, and the registry is not called. */
  lemma NonGetIsRefused(header: map<string, string>, requestMethod: string, registry: Registry, encodeOk: bool)
    requires requestMethod != MethodGet
    ensures var x := Respond(header, requestMethod, registry, encodeOk);
      && x.response.status == StatusMethodNotAllowed
      && "Allow" in x.response.header && x.response.header["Allow"] == "GET"
      && x.response.body == Text("Method not allowed\n")
      && x.calls == []
  {
  }

  /** A GET lists exactly once, first, with the empty cursor and the limit
      10000; every later call is a detail lookup. */
  lemma GetListsOnceFirst(header: map<string, string>, registry: Registry, encodeOk: bool)
    ensures var x := Respond(header, MethodGet, registry, encodeOk);
      && |x.calls| >= 1
      && x.calls[0] == ListCall("", 10000)
      && forall k :: 1 <= k < |x.calls| ==> x.calls[k].GetByIdCall?
  {
  }

  /** A failed listing ends the request with 500, no lookup and no array. */
  lemma ListFailureIsFatal(header: map<string, string>, registry: Registry, encodeOk: bool)
    requires registry.list(ListCursor, ListLimit).ListFailed?
    ensures var x := Respond(header, MethodGet, registry, encodeOk);
      && x.response.status == StatusInternalServerError
      && x.calls == [ListCall(ListCursor, ListLimit)]
      && !x.response.body.Json?
  {
  }

  /** After a successful listing, lookup i asks for the ID of listed server i:
      one lookup per entry, in listing order. */
  lemma LookupsFollowListing(header: map<string, string>, registry: Registry, encodeOk: bool, servers: seq<Server>, next: string)
    requires registry.list(ListCursor, ListLimit) == Listed(servers, next)
    ensures var x := Respond(header, MethodGet, registry, encodeOk);
      && |x.calls| == 1 + |servers|
      && forall i :: 0 <= i < |servers| ==> x.calls[1 + i] == GetByIdCall(servers[i].id)
  {
    var calls := Respond(header, MethodGet, registry, encodeOk).calls;
    assert calls == [ListCall(ListCursor, ListLimit)] + Lookups(servers);
    forall i | 0 <= i < |servers|
      ensures calls[1 + i] == GetByIdCall(servers[i].id)
    {
      assert calls[1 + i] == Lookups(servers)[i];
    }
  }

  /** After a successful listing and encode the status is 200, whatever the
      lookups return, and the array has one entry per listed server, in
      listing order: the detail where the lookup succeeded, otherwise exactly
      the listed server. */
  lemma ExportFollowsListing(header: map<string, string>, registry: Registry, servers: seq<Server>, next: string)
    requires registry.list(ListCursor, ListLimit) == Listed(servers, next)
    ensures var r := Respond(header, MethodGet, registry, true).response;
      && r.status == StatusOK
      && r.body.Json?
      && |r.body.entries| == |servers|
      && forall i :: 0 <= i < |servers| ==>
           match registry.getById(servers[i].id)
           case Some(d) => r.body.entries[i] == Detail(d)
           case None => r.body.entries[i] == Degraded(servers[i])
  {
  }

  /** Failure isolation: an entry depends only on its own lookup, so two
      registries with the same listing that agree on the lookup of server j
      export the same entry j, however their other lookups differ. */
  lemma EntryDependsOnlyOnItsLookup(header: map<string, string>, r1: Registry, r2: Registry, servers: seq<Server>, next: string, j: nat)
    requires r1.list(ListCursor, ListLimit) == Listed(servers, next)
    requires r2.list(ListCursor, ListLimit) == Listed(servers, next)
    requires j < |servers|
    requires r1.getById(servers[j].id) == r2.getById(servers[j].id)
    ensures var a := Respond(header, MethodGet, r1, true).response;
      var b := Respond(header, MethodGet, r2, true).response;
      && a.status == b.status == StatusOK
      && a.body.Json? && b.body.Json?
      && |a.body.entries| == |b.body.entries| == |servers|
      && a.body.entries[j] == b.body.entries[j]
  {
  }

  /** A successful export carries the JSON content type and the three CORS
      headers, and keeps every other header the writer held. */
  lemma SuccessHeaders(header: map<string, string>, registry: Registry, servers: seq<Server>, next: string)
    requires registry.list(ListCursor, ListLimit) == Listed(servers, next)
    ensures var h := Respond(header, MethodGet, registry, true).response.header;
      && h.Keys == header.Keys + {"Content-Type", "Access-Control-Allow-Origin", "Access-Control-Allow-Methods", "Access-Control-Allow-Headers"}
      && h["Content-Type"] == "application/json"
      && h["Access-Control-Allow-Origin"] == "*"
      && h["Access-Control-Allow-Methods"] == "GET"
      && h["Access-Control-Allow-Headers"] == "Content-Type"
      && forall k :: k in header && k !in {"Content-Type", "Access-Control-Allow-Origin", "Access-Control-Allow-Methods", "Access-Control-Allow-Headers"} ==> h[k] == header[k]
  {
  }

  /** A failed encode is a 500 even though the lookups all ran. */
  lemma EncodeFailureIsFatal(header: map<string, string>, registry: Registry, servers: seq<Server>, next: string)
    requires registry.list(ListCursor, ListLimit) == Listed(servers, next)
    ensures var x := Respond(header, MethodGet, registry, false);
      && x.response.status == StatusInternalServerError
      && !x.response.body.Json?
      && |x.calls| == 1 + |servers|
  {
  }

  /** The next cursor returned by the listing plays no part in the response. */
  lemma NextCursorIgnored(header: map<string, string>, r1: Registry, r2: Registry, servers: seq<Server>, c1: string, c2: string, encodeOk: bool)
    requires r1.list(ListCursor, ListLimit) == Listed(servers, c1)
    requires r2.list(ListCursor, ListLimit) == Listed(servers, c2)
    requires forall k :: 0 <= k < |servers| ==> r1.getById(servers[k].id) == r2.getById(servers[k].id)
    ensures Respond(header, MethodGet, r1, encodeOk) == Respond(header, MethodGet, r2, encodeOk)
  {
    assert Enrich(servers, r1.getById) == Enrich(servers, r2.getById);
  }

  /** The handler's successful-export test: one listed server whose lookup
      yields a detail with one package is exported as a one-element array
      holding that detail, after exactly the listing and that one lookup. */
  lemma SuccessfulExportScenario(header: map<string, string>, registry: Registry)
    requires registry.list("", 10000) == Listed([Server("test-id-1", "test-server-1")], "")
    requires registry.getById("test-id-1")
      == Some(ServerDetail(Server("test-id-1", "test-server-1"), [Package("npm", "test-package", "1.0.0")]))
    ensures var x := Respond(header, "GET", registry, true);
      && x.response.status == StatusOK
      && x.response.header["Content-Type"] == "application/json"
      && x.response.body.Json? && |x.response.body.entries| == 1
      && x.response.body.entries[0].Detail?
      && x.response.body.entries[0].detail.server.name == "test-server-1"
      && |x.response.body.entries[0].detail.packages| == 1
      && x.calls == [ListCall("", 10000), GetByIdCall("test-id-1")]
  {
    assert Lookups([Server("test-id-1", "test-server-1")]) == [GetByIdCall("test-id-1")];
  }
}
