/**
 * Merging of the configured tool servers from their sources: the
 * MCP_SERVERS environment variable, the servers file, and servers passed
 * by the caller. Each source is given already read and parsed.
 */
module Config {
  import opened Wrappers
  import opened Json

  /** A source of server records: not set (or no file), not parseable, or parsed to a list. */
  datatype Source = Unset | Unparseable | Parsed(servers: seq<Record>)

  /** What a source contributes: its records when it parsed, nothing otherwise. */
  function Contribution(source: Source): seq<Record> {
    if source.Parsed? then source.servers else []
  }

  /** What the caller's list contributes: nothing when absent or empty. */
  function Extra(additional: Option<seq<Record>>): seq<Record> {
    if additional.Some? then additional.value else []
  }

  /**
   * `Config.load_mcp_servers`: environment servers, then file servers, then
   * additional servers, without de-duplication. A source that fails to
   * parse is skipped and does not affect the others.
   */
  method LoadMcpServers(env: Source, file: Source, additional: Option<seq<Record>>)
    returns (servers: seq<Record>)
    ensures |servers| == |Contribution(env)| + |Contribution(file)| + |Extra(additional)|
    ensures servers[..|Contribution(env)|] == Contribution(env)
    ensures servers[|Contribution(env)|..|Contribution(env)| + |Contribution(file)|] == Contribution(file)
    ensures servers[|Contribution(env)| + |Contribution(file)|..] == Extra(additional)
    ensures env == Unset && file == Unset && Extra(additional) == [] ==> servers == []
  {
    servers := [];
    if env.Parsed? {
      servers := servers + env.servers;
    }
    if file.Parsed? {
      servers := servers + file.servers;
    }
    if additional.Some? && additional.value != [] {
      servers := servers + additional.value;
    }
  }
}
