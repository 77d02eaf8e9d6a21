/** mergeConfigWithDefaultPort of springbootapplication_controller.go: decode the raw config
    into a tree, make sure `server.port` is there (a user value wins, 8080 otherwise), and
    render the result. JSON decoding and YAML encoding are not modelled; they are passed in. */
module ConfigMerge {
  import opened Wrappers
  import opened Api

  const DefaultInternalPort := 8080

  /** A decoded JSON value. json.Unmarshal yields JFloat (float64) for every number; JInt is
      the Go int the merge itself writes. */
  datatype Json =
    | JNull
    | JBool(b: bool)
    | JFloat(f: real)
    | JInt(i: int)
    | JString(s: string)
    | JArray(items: seq<Json>)
    | JObject(fields: map<string, Json>)

  type Document = map<string, Json>

  /** The decoder of a raw JSON object and the YAML encoder, as the caller provides them. */
  datatype Codec = Codec(decode: Bytes -> Option<Document>, encode: Document -> Option<string>)

  /** Go's int(f) for a float64: truncation toward zero. */
  function Truncate(f: real): (n: int)
    ensures f >= 0.0 ==> n as real <= f < n as real + 1.0
    ensures f < 0.0 ==> n as real - 1.0 < f <= n as real
  {
    if f >= 0.0 then f.Floor else -((-f).Floor)
  }

  /** The `server` map of a document; a missing or non-object `server` counts as empty. */
  function ServerOf(d: Document): map<string, Json> {
    if "server" in d && d["server"].JObject? then d["server"].fields else map[]
  }

  /** The port mergeConfigWithDefaultPort returns: the user's numeric server.port
      (truncated), or 8080 when there is none or it is not a number. */
  function EffectivePort(d: Document): (port: int)
    ensures var s := ServerOf(d);
      && ("port" in s && s["port"].JInt? ==> port == s["port"].i)
      && ("port" in s && s["port"].JFloat? ==> port == Truncate(s["port"].f))
      && (!("port" in s && (s["port"].JInt? || s["port"].JFloat?)) ==> port == DefaultInternalPort)
  {
    var server := ServerOf(d);
    if "port" in server && server["port"].JInt? then server["port"].i
    else if "port" in server && server["port"].JFloat? then Truncate(server["port"].f)
    else DefaultInternalPort
  }

  /** The merged tree: every top-level key but `server` untouched, `server` an object that
      always holds `port`; a port the user set is kept as it was, an absent one becomes 8080. */
  function MergedDocument(d: Document): (r: Document)
    ensures r.Keys == d.Keys + {"server"}
    ensures forall k :: k in d && k != "server" ==> r[k] == d[k]
    ensures r["server"].JObject? && "port" in r["server"].fields
    ensures var s := ServerOf(d);
      && ("port" in s ==> r["server"].fields == s)
      && ("port" !in s ==> r["server"].fields == s["port" := JInt(DefaultInternalPort)])
  {
    var server := ServerOf(d);
    var server' := if "port" in server then server else server["port" := JInt(EffectivePort(d))];
    d["server" := JObject(server')]
  }

  /** The document the merge starts from: an absent or empty raw config is an empty map. */
  function Decoded(raw: Option<Bytes>, codec: Codec): Option<Document> {
    if raw.Some? && |raw.value| > 0 then codec.decode(raw.value) else Some(map[])
  }

  /** What mergeConfigWithDefaultPort returns: the rendered config, the port, and an error;
      a decode or encode failure yields ("", 0) and the error. */
  function MergeOutcome(raw: Option<Bytes>, codec: Codec): (r: (string, int, Option<Error>))
    ensures Decoded(raw, codec).None? ==> r == ("", 0, Some(DecodeFailed))
    ensures Decoded(raw, codec).Some? ==>
      var merged := MergedDocument(Decoded(raw, codec).value);
      match codec.encode(merged)
      case None => r == ("", 0, Some(EncodeFailed))
      case Some(yaml) => r == (yaml, EffectivePort(Decoded(raw, codec).value), None)
  {
    match Decoded(raw, codec)
    case None => ("", 0, Some(DecodeFailed))
    case Some(d) =>
      match codec.encode(MergedDocument(d))
      case None => ("", 0, Some(EncodeFailed))
      case Some(yaml) => (yaml, EffectivePort(d), None)
  }

  /** mergeConfigWithDefaultPort, building the merged tree and its `server` map step by step. */
  method MergeConfigWithDefaultPort(raw: Option<Bytes>, codec: Codec) returns (text: string, port: int, err: Option<Error>)
    ensures (text, port, err) == MergeOutcome(raw, codec)
  {
    var merged: Document := map[];
    if raw.Some? && |raw.value| > 0 {
      var decoded := codec.decode(raw.value);
      if decoded.None? {
        return "", 0, Some(DecodeFailed);
      }
      merged := decoded.value;
    }

    var server: map<string, Json>;
    if "server" in merged && merged["server"].JObject? {
      server := merged["server"].fields;
    } else {
      server := map[];
    }

    if "port" in server && server["port"].JInt? {
      port := server["port"].i;
    } else if "port" in server && server["port"].JFloat? {
      port := Truncate(server["port"].f);
    } else {
      port := DefaultInternalPort;
    }

    if "port" !in server {
      server := server["port" := JInt(port)];
    }
    merged := merged["server" := JObject(server)];

    var yaml := codec.encode(merged);
    if yaml.None? {
      return "", 0, Some(EncodeFailed);
    }
    return yaml.value, port, None;
  }

  /** An empty config merges to {server: {port: 8080}} and port 8080. */
  lemma EmptyConfigGetsDefaultPort()
    ensures MergedDocument(map[]) == map["server" := JObject(map["port" := JInt(DefaultInternalPort)])]
    ensures EffectivePort(map[]) == DefaultInternalPort
  {
  }

  /** A user port wins: a numeric server.port stays in the tree as written, and the returned
      port is that number. */
  lemma UserPortWins(d: Document, n: int)
    requires "server" in d && d["server"].JObject? && "port" in d["server"].fields
    requires d["server"].fields["port"] == JFloat(n as real)
    ensures MergedDocument(d)["server"] == d["server"]
    ensures EffectivePort(d) == n
  {
  }

  /** The returned port is the one the merged tree holds whenever that entry is a number,
      and merging again changes neither the tree nor the port. */
  lemma MergeIsStable(d: Document)
    ensures var s := MergedDocument(d)["server"].fields;
      (s["port"].JInt? ==> EffectivePort(d) == s["port"].i)
      && (s["port"].JFloat? ==> EffectivePort(d) == Truncate(s["port"].f))
    ensures MergedDocument(MergedDocument(d)) == MergedDocument(d)
    ensures EffectivePort(MergedDocument(d)) == EffectivePort(d)
  {
  }
}
