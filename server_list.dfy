/**
 * Management of the tool-server (MCP) list kept in the backend's JSON
 * configuration file: URL normalisation, add, delete and update, and the
 * responses that hide stored API keys. The file is the sequence of records
 * it holds; `None` stands for a file that does not exist.
 */
module ServerList {
  import opened Wrappers
  import opened Json
  import opened Http
  import Text

  /** The body of a POST or PUT on the tool-server endpoints. */
  datatype ServerRequest = ServerRequest(name: string, url: string, apiKey: Option<string>)

  /** Successful responses; `servers` is what is written back to the file. */
  datatype Added = Added(servers: seq<Record>, server: Record, totalServers: nat)
  datatype Deleted = Deleted(servers: seq<Record>, remainingServers: nat)
  datatype Updated = Updated(servers: seq<Record>, server: Record)
  datatype Listing = Listing(count: nat, servers: seq<Record>)

  const NoServersConfigured := "No MCP servers configured"

  function NotFoundDetail(name: string): string {
    "MCP server '" + name + "' not found"
  }

  function DuplicateDetail(req: ServerRequest): string {
    "MCP server with name '" + req.name + "' or URL '" + req.url + "' already exists"
  }

  // ---------------------------------------------------------------------
  // URL normalisation

  /**
   * Trailing slashes are removed, a trailing "/sse" is dropped, and "/mcp"
   * is appended unless the URL already ends with it. The result always ends
   * with "/mcp", and what precedes that suffix is a prefix of the input.
   */
  function NormalizeUrl(url: string): (r: string)
    ensures Text.EndsWith(r, "/mcp")
    ensures Text.IsPrefix(r[..|r| - 4], url)
  {
    var trimmed := Text.RStripChar(url, '/');
    var base := if Text.EndsWith(trimmed, "/sse") then trimmed[..|trimmed| - 4] else trimmed;
    if Text.EndsWith(base, "/mcp") then base
    else
      var stem := Text.RStripChar(base, '/');
      assert (stem + "/mcp")[..|stem|] == stem;
      stem + "/mcp"
  }

  lemma RStripNoTrailing(s: string, c: char)
    requires s == [] || s[|s| - 1] != c
    ensures Text.RStripChar(s, c) == s
  {
  }

  /** Normalising an already normalised URL changes nothing. */
  lemma NormalizeUrlIdempotent(url: string)
    ensures NormalizeUrl(NormalizeUrl(url)) == NormalizeUrl(url)
  {
    var r := NormalizeUrl(url);
    assert r[|r| - 1] == 'p';
    RStripNoTrailing(r, '/');
    assert !Text.EndsWith(r, "/sse");
  }

  /** A URL that already ends with "/mcp" (after trailing slashes) only loses those slashes. */
  lemma NormalizeUrlKeepsMcp(url: string)
    requires Text.EndsWith(Text.RStripChar(url, '/'), "/mcp")
    ensures NormalizeUrl(url) == Text.RStripChar(url, '/')
  {
    var t := Text.RStripChar(url, '/');
    assert t[|t| - 4..] != "/sse";
  }

  /**
   * A trailing "/sse" endpoint is dropped: what remains is kept when it
   * already ends with "/mcp", and otherwise loses its trailing slashes and
   * gets "/mcp" appended.
   */
  lemma NormalizeUrlReplacesSse(url: string, base: string)
    requires Text.RStripChar(url, '/') == base + "/sse"
    ensures NormalizeUrl(url) ==
      if Text.EndsWith(base, "/mcp") then base else Text.RStripChar(base, '/') + "/mcp"
  {
    var t := Text.RStripChar(url, '/');
    assert Text.EndsWith(t, "/sse");
    assert t[..|t| - 4] == base;
  }

  /** Any other URL gets "/mcp" appended after its trailing slashes are removed. */
  lemma NormalizeUrlAppendsMcp(url: string)
    requires !Text.EndsWith(Text.RStripChar(url, '/'), "/sse")
    requires !Text.EndsWith(Text.RStripChar(url, '/'), "/mcp")
    ensures NormalizeUrl(url) == Text.RStripChar(url, '/') + "/mcp"
  {
    RStripNoTrailing(Text.RStripChar(url, '/'), '/');
  }

  // ---------------------------------------------------------------------
  // Records and their public views

  /** The record stored for a request: its name, the normalised URL and, when non-empty, its key. */
  function ServerConfig(req: ServerRequest): (r: Record)
    ensures r.Keys == {"name", "url"} + (if Given(req.apiKey) then {"api_key"} else {})
    ensures r["name"] == Str(req.name) && r["url"] == Str(NormalizeUrl(req.url))
    ensures "api_key" in r ==> r["api_key"] == Str(req.apiKey.value)
  {
    var base := map["name" := Str(req.name), "url" := Str(NormalizeUrl(req.url))];
    if Given(req.apiKey) then base["api_key" := Str(req.apiKey.value)] else base
  }

  /** The record with its "api_key" entry removed, as returned after an add. */
  function WithoutApiKey(r: Record): (s: Record)
    ensures s.Keys == r.Keys - {"api_key"}
    ensures forall k :: k in s ==> s[k] == r[k]
  {
    r - {"api_key"}
  }

  /** The record as listed or returned after an update: no key, but whether one is stored. */
  function PublicView(r: Record): (s: Record)
    ensures s.Keys == r.Keys - {"api_key"} + {"has_api_key"}
    ensures s["has_api_key"] == Bool(Truthy(GetOrNull(r, "api_key")))
    ensures forall k :: k in r && k != "api_key" && k != "has_api_key" ==> s[k] == r[k]
  {
    WithoutApiKey(r)["has_api_key" := Bool(Truthy(GetOrNull(r, "api_key")))]
  }

  /** GET on the server list: every configured record, each through PublicView. */
  function ListServers(configured: seq<Record>): (l: Listing)
    ensures l.count == |configured| == |l.servers|
    ensures forall i :: 0 <= i < |l.servers| ==> "api_key" !in l.servers[i]
    ensures forall i :: 0 <= i < |l.servers| ==>
      "has_api_key" in l.servers[i] && l.servers[i]["has_api_key"] == Bool(Truthy(GetOrNull(configured[i], "api_key")))
    ensures forall i :: 0 <= i < |l.servers| ==> l.servers[i] == PublicView(configured[i])
  {
    Listing(|configured|, seq(|configured|, i requires 0 <= i < |configured| => PublicView(configured[i])))
  }

  function Stored(file: Option<seq<Record>>): seq<Record> {
    if file.Some? then file.value else []
  }

  // ---------------------------------------------------------------------
  // Add

  /** The duplicate test of an add: same name, or a stored url equal to the url as submitted. */
  predicate Clashes(r: Record, req: ServerRequest) {
    HasText(r, "name", req.name) || HasText(r, "url", req.url)
  }

  predicate AnyClash(servers: seq<Record>, req: ServerRequest) {
    exists j :: 0 <= j < |servers| && Clashes(servers[j], req)
  }

  /**
   * Adds a server: rejected with 400 and nothing written if a stored record
   * clashes; otherwise exactly the new record is appended.
   */
  method AddServer(file: Option<seq<Record>>, req: ServerRequest) returns (result: Result<Added, HttpError>)
    ensures result.Failure? <==> AnyClash(Stored(file), req)
    ensures result.Failure? ==> result.error == HttpError(BadRequest, DuplicateDetail(req))
    ensures result.Success? ==>
      && result.value.servers == Stored(file) + [ServerConfig(req)]
      && result.value.totalServers == |Stored(file)| + 1
      && result.value.server == WithoutApiKey(ServerConfig(req))
  {
    var serverConfig := ServerConfig(req);
    var servers := if file.Some? then file.value else [];
    var i := 0;
    while i < |servers|
      invariant 0 <= i <= |servers|
      invariant forall j :: 0 <= j < i ==> !Clashes(servers[j], req)
    {
      if Clashes(servers[i], req) {
        return Failure(HttpError(BadRequest, DuplicateDetail(req)));
      }
      i := i + 1;
    }
    servers := servers + [serverConfig];
    return Success(Added(servers, WithoutApiKey(serverConfig), |servers|));
  }

  /** Both records carry `key` with the same value. */
  predicate SameEntry(a: Record, b: Record, key: string) {
    key in a && key in b && a[key] == b[key]
  }

  /** No two records share a name and no two share a url. */
  predicate DistinctEndpoints(servers: seq<Record>) {
    forall i, j :: 0 <= i < j < |servers| ==>
      !SameEntry(servers[i], servers[j], "name") && !SameEntry(servers[i], servers[j], "url")
  }

  /**
   * The duplicate test compares stored urls, which are always normalised,
   * with the url as submitted. A list without duplicate names or urls keeps
   * that property across an add only when the submitted url is already in
   * normal form.
   */
  lemma AddKeepsEndpointsDistinctForNormalUrls(servers: seq<Record>, req: ServerRequest)
    requires DistinctEndpoints(servers)
    requires !AnyClash(servers, req)
    requires NormalizeUrl(req.url) == req.url
    ensures DistinctEndpoints(servers + [ServerConfig(req)])
  {
    var s' := servers + [ServerConfig(req)];
    forall i, j | 0 <= i < j < |s'|
      ensures !SameEntry(s'[i], s'[j], "name") && !SameEntry(s'[i], s'[j], "url")
    {
      if j == |servers| {
        assert !Clashes(servers[i], req);
      }
    }
  }

  /** A base without a trailing slash or "/mcp" has its "/sse" endpoint stored as its "/mcp" endpoint. */
  lemma SseOfPlainBaseNormalized(base: string)
    requires base != [] && base[|base| - 1] != '/'
    requires !Text.EndsWith(base, "/mcp")
    ensures NormalizeUrl(base + "/sse") == base + "/mcp"
  {
    var url := base + "/sse";
    assert url[|url| - 1] == 'e';
    RStripNoTrailing(url, '/');
    RStripNoTrailing(base, '/');
    NormalizeUrlReplacesSse(url, base);
  }

  /** The url "http://host/sse" is stored as "http://host/mcp". */
  lemma SseUrlNormalized()
    ensures NormalizeUrl("http://host/sse") == "http://host/mcp"
  {
    var base := "http://host";
    assert base[|base| - 4..] == "host";
    SseOfPlainBaseNormalized(base);
    assert base + "/sse" == "http://host/sse";
    assert base + "/mcp" == "http://host/mcp";
  }

  /**
   * A url not already in normal form, submitted twice under two names,
   * passes the duplicate test the second time, because the first add
   * stored the url in normal form: the list then holds two records for the
   * same endpoint.
   */
  lemma AddAdmitsDuplicateEndpoint(n1: string, n2: string, url: string, k1: Option<string>, k2: Option<string>)
    requires n1 != n2
    requires NormalizeUrl(url) != url
    ensures var stored := [ServerConfig(ServerRequest(n1, url, k1))];
            var second := ServerRequest(n2, url, k2);
            && DistinctEndpoints(stored)
            && !AnyClash(stored, second)
            && !DistinctEndpoints(stored + [ServerConfig(second)])
  {
    var c1 := ServerConfig(ServerRequest(n1, url, k1));
    var second := ServerRequest(n2, url, k2);
    assert !Clashes(c1, second);
    var s' := [c1] + [ServerConfig(second)];
    assert SameEntry(s'[0], s'[1], "url");
  }

  /** The "/sse" endpoint of a host is such a url: adding it as "docs" and then as "docs2" is accepted twice. */
  lemma SseUrlAdmittedTwice()
    ensures var url := "http://host/sse";
            var stored := [ServerConfig(ServerRequest("docs", url, None))];
            var second := ServerRequest("docs2", url, None);
            && !AnyClash(stored, second)
            && !DistinctEndpoints(stored + [ServerConfig(second)])
  {
    SseUrlNormalized();
    assert "http://host/mcp" != "http://host/sse";
    AddAdmitsDuplicateEndpoint("docs", "docs2", "http://host/sse", None, None);
  }

  /** A url already in normal form, submitted again under another name, is rejected by the same test. */
  lemma AddRejectsRepeatedNormalUrl(n1: string, n2: string, url: string, k1: Option<string>, k2: Option<string>)
    requires NormalizeUrl(url) == url
    ensures AnyClash([ServerConfig(ServerRequest(n1, url, k1))], ServerRequest(n2, url, k2))
  {
    assert Clashes([ServerConfig(ServerRequest(n1, url, k1))][0], ServerRequest(n2, url, k2));
  }

  /** The intended duplicate test: the stored url is compared with the normalised one. */
  predicate ClashesEndpoint(r: Record, req: ServerRequest) {
    HasText(r, "name", req.name) || HasText(r, "url", NormalizeUrl(req.url))
  }

  /** With the intended test, an accepted add never introduces a duplicate name or url. */
  lemma CheckedAddKeepsEndpointsDistinct(servers: seq<Record>, req: ServerRequest)
    requires DistinctEndpoints(servers)
    requires forall j :: 0 <= j < |servers| ==> !ClashesEndpoint(servers[j], req)
    ensures DistinctEndpoints(servers + [ServerConfig(req)])
  {
    var s' := servers + [ServerConfig(req)];
    forall i, j | 0 <= i < j < |s'|
      ensures !SameEntry(s'[i], s'[j], "name") && !SameEntry(s'[i], s'[j], "url")
    {
      if j == |servers| {
        assert !ClashesEndpoint(servers[i], req);
      }
    }
  }

  /**
   * The add with the intended duplicate test: a list without duplicate
   * names or urls keeps that property.
   */
  function AddServerNormalized(file: Option<seq<Record>>, req: ServerRequest): (r: Result<Added, HttpError>)
    ensures r.Failure? <==> exists j :: 0 <= j < |Stored(file)| && ClashesEndpoint(Stored(file)[j], req)
    ensures r.Success? ==> r.value.servers == Stored(file) + [ServerConfig(req)]
    ensures DistinctEndpoints(Stored(file)) && r.Success? ==> DistinctEndpoints(r.value.servers)
  {
    var servers := Stored(file);
    if exists j :: 0 <= j < |servers| && ClashesEndpoint(servers[j], req) then
      Failure(HttpError(BadRequest, DuplicateDetail(req)))
    else
      var added := servers + [ServerConfig(req)];
      assert DistinctEndpoints(servers) ==> DistinctEndpoints(added) by {
        if DistinctEndpoints(servers) {
          CheckedAddKeepsEndpointsDistinct(servers, req);
        }
      }
      Success(Added(added, WithoutApiKey(ServerConfig(req)), |added|))
  }

  // ---------------------------------------------------------------------
  // Delete

  predicate Named(r: Record, name: string) {
    HasText(r, "name", name)
  }

  /** The records whose "name" entry is not the given name, in their original order. */
  function KeepOthers(servers: seq<Record>, name: string): (kept: seq<Record>)
    ensures |kept| <= |servers|
    ensures forall i :: 0 <= i < |kept| ==> !Named(kept[i], name)
  {
    if servers == [] then []
    else if Named(servers[0], name) then KeepOthers(servers[1..], name)
    else [servers[0]] + KeepOthers(servers[1..], name)
  }

  /** Filtering distributes over concatenation, so the kept records stay in order. */
  lemma {:induction false} KeepOthersConcat(a: seq<Record>, b: seq<Record>, name: string)
    ensures KeepOthers(a + b, name) == KeepOthers(a, name) + KeepOthers(b, name)
  {
    if a == [] {
      assert a + b == b;
    } else {
      assert (a + b)[0] == a[0];
      assert (a + b)[1..] == a[1..] + b;
      KeepOthersConcat(a[1..], b, name);
    }
  }

  /** Each record not carrying the name is kept as often as it occurs; named ones never are. */
  lemma {:induction false} KeepOthersCounts(servers: seq<Record>, name: string, r: Record)
    ensures multiset(KeepOthers(servers, name))[r] == if Named(r, name) then 0 else multiset(servers)[r]
  {
    if servers != [] {
      var rest := servers[1..];
      KeepOthersCounts(rest, name, r);
      assert servers == [servers[0]] + rest;
      assert multiset(servers) == multiset{servers[0]} + multiset(rest);
      if !Named(servers[0], name) {
        assert multiset(KeepOthers(servers, name)) == multiset{servers[0]} + multiset(KeepOthers(rest, name));
      }
    }
  }

  /** The filter keeps the length exactly when no record carries the name. */
  lemma {:induction false} KeepOthersLength(servers: seq<Record>, name: string)
    ensures |KeepOthers(servers, name)| == |servers| <==> forall i :: 0 <= i < |servers| ==> !Named(servers[i], name)
    ensures (forall i :: 0 <= i < |servers| ==> !Named(servers[i], name)) ==> KeepOthers(servers, name) == servers
  {
    if servers != [] {
      KeepOthersLength(servers[1..], name);
      assert forall i :: 1 <= i < |servers| ==> servers[i] == servers[1..][i - 1];
    }
  }

  /**
   * Deletes every record with the given name, keeping the others in order;
   * 404 when there is no file or no record has that name.
   */
  function DeleteServer(file: Option<seq<Record>>, name: string): (r: Result<Deleted, HttpError>)
    ensures file.None? ==> r == Failure(HttpError(NotFound, NoServersConfigured))
    ensures file.Some? ==>
      (r.Failure? <==> forall i :: 0 <= i < |file.value| ==> !Named(file.value[i], name))
    ensures file.Some? && r.Failure? ==> r.error == HttpError(NotFound, NotFoundDetail(name))
    ensures r.Success? ==>
      && r.value.servers == KeepOthers(file.value, name)
      && r.value.remainingServers == |r.value.servers| < |file.value|
  {
    if file.None? then Failure(HttpError(NotFound, NoServersConfigured))
    else
      var servers := KeepOthers(file.value, name);
      KeepOthersLength(file.value, name);
      if |servers| == |file.value| then Failure(HttpError(NotFound, NotFoundDetail(name)))
      else Success(Deleted(servers, |servers|))
  }

  /** Deleting by name after a successful add gives back the list as it was before the add. */
  lemma AddThenDelete(file: Option<seq<Record>>, req: ServerRequest, added: Added)
    requires !AnyClash(Stored(file), req)
    requires added.servers == Stored(file) + [ServerConfig(req)]
    requires file.Some?
    ensures DeleteServer(Some(added.servers), req.name) == Success(Deleted(file.value, |file.value|))
  {
    var s := file.value;
    assert forall i :: 0 <= i < |s| ==> !Named(s[i], req.name) by {
      forall i | 0 <= i < |s| ensures !Named(s[i], req.name) {
        assert !Clashes(s[i], req);
      }
    }
    KeepOthersLength(s, req.name);
    KeepOthersConcat(s, [ServerConfig(req)], req.name);
    assert KeepOthers([ServerConfig(req)], req.name) == [];
    assert KeepOthers(added.servers, req.name) == s;
    assert Named(added.servers[|s|], req.name);
    KeepOthersLength(added.servers, req.name);
  }

  // ---------------------------------------------------------------------
  // Update

  /** `s[k] = x` when `k` is an index of `s`; `s` itself otherwise. */
  function ReplaceAt(s: seq<Record>, k: int, x: Record): seq<Record> {
    if 0 <= k < |s| then s[k := x] else s
  }

  /** `k` is the position of the first record with the given name. */
  predicate FirstNamed(servers: seq<Record>, name: string, k: int) {
    && 0 <= k < |servers|
    && Named(servers[k], name)
    && forall j :: 0 <= j < k ==> !Named(servers[j], name)
  }

  /**
   * Replaces the first record with the given name by the new record, leaving
   * every other position as it was; 404 when there is no file or no match.
   */
  method UpdateServer(file: Option<seq<Record>>, name: string, req: ServerRequest)
    returns (result: Result<Updated, HttpError>)
    ensures file.None? ==> result == Failure(HttpError(NotFound, NoServersConfigured))
    ensures file.Some? ==>
      (result.Failure? <==> forall i :: 0 <= i < |file.value| ==> !Named(file.value[i], name))
    ensures file.Some? && result.Failure? ==> result.error == HttpError(NotFound, NotFoundDetail(name))
    ensures result.Success? ==>
      exists k :: FirstNamed(file.value, name, k) && result.value.servers == file.value[k := ServerConfig(req)]
    ensures result.Success? ==> result.value.server == PublicView(ServerConfig(req))
  {
    var serverConfig := ServerConfig(req);
    if file.None? {
      return Failure(HttpError(NotFound, NoServersConfigured));
    }
    var stored := file.value;
    var servers := stored;
    var found := false;
    var updatedIndex := -1;
    var i := 0;
    while i < |servers|
      invariant 0 <= i <= |servers| == |stored|
      invariant !found ==> updatedIndex == -1 && forall j :: 0 <= j < i ==> !Named(stored[j], name)
      invariant found ==> FirstNamed(stored, name, updatedIndex)
      invariant servers == ReplaceAt(stored, updatedIndex, serverConfig)
    {
      if Named(servers[i], name) {
        servers := servers[i := serverConfig];
        found := true;
        updatedIndex := i;
        break;
      }
      i := i + 1;
    }
    if !found {
      return Failure(HttpError(NotFound, NotFoundDetail(name)));
    }
    assert FirstNamed(file.value, name, updatedIndex);
    return Success(Updated(servers, PublicView(servers[updatedIndex])));
  }
}
