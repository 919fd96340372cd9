/**
 * The fixed registry of bundled tool servers: a name-to-server table in
 * declaration order, looked up case-insensitively. The server modules are
 * opaque values.
 */
module Registry {
  import opened Wrappers
  import Text

  datatype McpServer = MathMcp | WeatherMcp | WebMcp | PeopleMcp | JackMcp

  /** `MCP_SERVERS`, as its entries in insertion order. */
  const McpServers: seq<(string, McpServer)> := [
    ("math", MathMcp),
    ("weather", WeatherMcp),
    ("web", WebMcp),
    ("people", PeopleMcp),
    ("jack", JackMcp)
  ]

  /** `dict.get` on an entry list: the server of the first entry with that name. */
  function Lookup(entries: seq<(string, McpServer)>, name: string): (r: Option<McpServer>)
    ensures r.None? <==> forall i :: 0 <= i < |entries| ==> entries[i].0 != name
    ensures r.Some? ==> exists i :: 0 <= i < |entries| && entries[i] == (name, r.value)
  {
    if entries == [] then None
    else if entries[0].0 == name then Some(entries[0].1)
    else
      var r := Lookup(entries[1..], name);
      assert forall i :: 1 <= i < |entries| ==> entries[i] == entries[1..][i - 1];
      r
  }

  function Keys(entries: seq<(string, McpServer)>): (ks: seq<string>)
    ensures |ks| == |entries|
    ensures forall i :: 0 <= i < |entries| ==> ks[i] == entries[i].0
  {
    if entries == [] then [] else [entries[0].0] + Keys(entries[1..])
  }

  /** `get_mcp_server`: the server registered under the lower-cased name, if any. */
  function GetMcpServer(name: string): (r: Option<McpServer>)
    ensures r.None? <==> Text.Lower(name) !in ListAvailableServers()
  {
    Lookup(McpServers, Text.Lower(name))
  }

  /** `list_available_servers`: the registered names in declaration order. */
  function ListAvailableServers(): (names: seq<string>)
    ensures names == ["math", "weather", "web", "people", "jack"]
  {
    Keys(McpServers)
  }

  /** Lookup ignores case: a name and its lower-cased form find the same server. */
  lemma GetMcpServerIgnoresCase(name: string)
    ensures GetMcpServer(name) == GetMcpServer(Text.Lower(name))
  {
    Text.LowerIdempotent(name);
  }

  /** Every listed name resolves, and each registered name finds its own server. */
  lemma ListedServersResolve()
    ensures forall n :: n in ListAvailableServers() ==> GetMcpServer(n).Some?
    ensures forall i :: 0 <= i < |McpServers| ==> GetMcpServer(McpServers[i].0) == Some(McpServers[i].1)
  {
    ListedNamesResolve();
    forall i | 0 <= i < |McpServers|
      ensures GetMcpServer(McpServers[i].0) == Some(McpServers[i].1)
    {
      EntryResolves(i);
    }
  }

  lemma ListedNamesResolve()
    ensures forall n :: n in ListAvailableServers() ==> GetMcpServer(n).Some?
  {
    forall n | n in ListAvailableServers() ensures GetMcpServer(n).Some? {
      LowercaseName(n);
    }
  }

  /** The name of the entry at index i finds that entry's server. */
  lemma EntryResolves(i: nat)
    requires i < |McpServers|
    ensures GetMcpServer(McpServers[i].0) == Some(McpServers[i].1)
  {
    LowercaseName(McpServers[i].0);
  }

  lemma LowercaseName(n: string)
    requires n in ["math", "weather", "web", "people", "jack"]
    ensures Text.Lower(n) == n
  {
    assert forall i :: 0 <= i < |n| ==> 'a' <= n[i] <= 'z';
  }
}
