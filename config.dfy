/** The per-client bus configuration: a copy of the server's keyword
    configuration into which the client's handshake settings are merged. */
module SessionConfig {
  import opened Events

  type Config = map<string, Value>

  const BitrateKey: string := "bitrate"
  const FiltersKey: string := "can_filters"

  /** `dict.setdefault`: the key keeps the value it has, or gets `v` if absent. */
  function SetDefault(c: Config, key: string, v: Value): (r: Config)
    ensures r.Keys == c.Keys + {key}
    ensures key in c ==> r[key] == c[key]
    ensures key !in c ==> r[key] == v
    ensures forall k :: k in c && k != key ==> r[k] == c[k]
  {
    if key in c then c else c[key := v]
  }

  /** The configuration the bus is opened with, after `setdefault("bitrate", …)`
      and `config["can_filters"] = …` on the copy of the server configuration. */
  function Merged(server: Config, bitrate: int, filters: seq<Filter>): (r: Config)
    ensures r.Keys == server.Keys + {BitrateKey, FiltersKey}
    ensures BitrateKey in server ==> r[BitrateKey] == server[BitrateKey]
    ensures BitrateKey !in server ==> r[BitrateKey] == IntValue(bitrate)
    ensures r[FiltersKey] == FiltersValue(filters)
    ensures forall k :: k in server && k != BitrateKey && k != FiltersKey ==> r[k] == server[k]
  {
    SetDefault(server, BitrateKey, IntValue(bitrate))[FiltersKey := FiltersValue(filters)]
  }
}
