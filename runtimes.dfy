/** `RuntimesClient`: the compute-runtime endpoints, each one delegation to a base-client verb. */
module Runtimes {
  import opened Options
  import opened Js
  import opened Config
  import opened Base
  import H = Headers
  import FormUrlencoded

  const RuntimesPath := "/api/runtimes/v1/runtimes"
  const SnapshotsPath := "/api/runtimes/v1/runtime-snapshots"
  const EnvironmentsPath := "/api/runtimes/v1/environments"
  const PingPath := "/api/runtimes/v1/ping"

  /** The query of `deleteRuntime`: `{ reason }` for a non-empty reason, no query otherwise. */
  function ReasonQuery(reason: Option<string>): Option<Record<Scalar>> {
    if Present(reason) then Some([(ReasonKey, SStr(reason.value))]) else None
  }

  const ReasonKey := "reason"

  /** The keys and the flag value of the download URL's query. */
  const DownloadKey := "download"
  const DownloadFlag := "1"
  const TokenKey := "token"

  class RuntimesClient {
    /** The `ApiClient` part of this client (the class extends `ApiClient`). */
    const api: ApiClient

    constructor (config: RequestConfig)
      ensures fresh(api) && api.config == config
    {
      api := new ApiClient(config);
    }

    function GetEnvironments(): Call {
      api.Get(EnvironmentsPath, None)
    }

    function CreateRuntime(request: Json): Call {
      api.Post(RuntimesPath, Some(request), None)
    }

    function GetRuntimes(): Call {
      api.Get(RuntimesPath, None)
    }

    function GetRuntime(podName: string): Call {
      api.Get(RuntimesPath + "/" + podName, None)
    }

    function DeleteRuntime(podName: string, reason: Option<string>): Call {
      api.Delete(RuntimesPath + "/" + podName, ReasonQuery(reason))
    }

    function UpdateRuntime(podName: string, request: Json): Call {
      api.Put(RuntimesPath + "/" + podName, Some(request), None)
    }

    function GetSnapshots(): Call {
      api.Get(SnapshotsPath, None)
    }

    function CreateSnapshot(request: Json): Call {
      api.Post(SnapshotsPath, Some(request), None)
    }

    function GetSnapshot(id: string): Call {
      api.Get(SnapshotsPath + "/" + id, None)
    }

    function UpdateSnapshot(id: string, request: Json): Call {
      api.Patch(SnapshotsPath + "/" + id, Some(request), None)
    }

    function DeleteSnapshot(id: string): Call {
      api.Delete(SnapshotsPath + "/" + id, None)
    }

    /**
     * `getSnapshotDownloadUrl(id, config)`: a template filled in from the
     * `config` argument (not from the client's configuration), with no
     * encoding of `id` or of the token.
     */
    function GetSnapshotDownloadUrl(id: string, config: ConfigValue): string {
      config.baseUrl + SnapshotsPath + "/" + id
      + "?" + (DownloadKey + "=" + DownloadFlag + "&" + TokenKey + "=" + config.token.GetOr(""))
    }

    function Ping(): Call {
      api.Get(PingPath, None)
    }
  }

  /**
   * The environment listing sends `GET <baseUrl>/api/runtimes/v1/environments`
   * with no body and no query, `Accept: application/json`, and the bearer
   * token whenever the configuration has one.
   */
  lemma EnvironmentsRequest(rc: RuntimesClient, stringify: Json -> string)
    ensures var d, cfg := Describe(rc.GetEnvironments(), stringify), rc.api.config.Value();
      && d.httpMethod == "GET"
      && d.url == cfg.baseUrl + EnvironmentsPath
      && d.body.None?
      && H.Get(d.headers, AcceptHeader) == Some(ApplicationJson)
      && H.Get(d.headers, AuthorizationHeader) == (if Present(cfg.token) then Some("Bearer " + cfg.token.value) else None)
  {
    var cfg := rc.api.config.Value();
    var opts := RequestOptions(Some("GET"), None, None, None);
    HeaderRules(cfg, opts, AcceptHeader);
    HeaderRules(cfg, opts, AuthorizationHeader);
  }

  /** The query part `deleteRuntime` adds to its URL: the serialized reason, or nothing. */
  lemma ReasonSuffix(reason: Option<string>)
    ensures Present(reason) ==> QuerySuffix(ReasonQuery(reason)) == "?" + FormUrlencoded.Serialize([(ReasonKey, reason.value)])
    ensures !Present(reason) ==> QuerySuffix(ReasonQuery(reason)) == ""
  {
    if Present(reason) {
      var q: Record<Scalar> := [(ReasonKey, SStr(reason.value))];
      assert QueryPairs(q) == [(ReasonKey, reason.value)];
      QueryStringNonEmpty(q);
    }
  }

  /**
   * `deleteRuntime` sends the reason as its only query pair when it is
   * non-empty, and otherwise no query and no `?`; the pod name is in the
   * path verbatim and there is never a body.
   */
  lemma DeleteRuntimeRequest(rc: RuntimesClient, podName: string, reason: Option<string>, stringify: Json -> string)
    ensures var d, base := Describe(rc.DeleteRuntime(podName, reason), stringify), rc.api.config.baseUrl;
      && d.httpMethod == "DELETE"
      && d.body.None?
      && (Present(reason) ==>
            d.url == base + (RuntimesPath + "/" + podName) + ("?" + FormUrlencoded.Serialize([(ReasonKey, reason.value)])))
      && (!Present(reason) ==> d.url == base + (RuntimesPath + "/" + podName))
  {
    DeleteRuntimeShape(rc, podName, reason, stringify);
    ReasonSuffix(reason);
  }

  lemma DeleteRuntimeShape(rc: RuntimesClient, podName: string, reason: Option<string>, stringify: Json -> string)
    ensures var d := Describe(rc.DeleteRuntime(podName, reason), stringify);
      && d.httpMethod == "DELETE"
      && d.body.None?
      && d.url == rc.api.config.baseUrl + (RuntimesPath + "/" + podName) + QuerySuffix(ReasonQuery(reason))
  {
  }

  /** Parsing the query of `deleteRuntime` back gives exactly the reason. */
  lemma DeleteRuntimeReasonRoundTrip(reason: string)
    requires reason != ""
    ensures var q := QueryString([(ReasonKey, SStr(reason))]);
      q[0] == '?' && FormUrlencoded.ParseString(q[1..]) == Some([(ReasonKey, reason)])
  {
    var q: Record<Scalar> := [(ReasonKey, SStr(reason))];
    assert QueryPairs(q) == [(ReasonKey, reason)];
    QueryStringRoundTrip(q);
  }

  /** `getRuntime`, `deleteRuntime` (without a reason) and `updateRuntime` put the pod name in the path verbatim. */
  lemma PodNameVerbatim(rc: RuntimesClient, podName: string, request: Json, stringify: Json -> string)
    ensures var url := rc.api.config.baseUrl + (RuntimesPath + "/" + podName);
      && Describe(rc.GetRuntime(podName), stringify).url == url
      && Describe(rc.DeleteRuntime(podName, None), stringify).url == url
      && Describe(rc.UpdateRuntime(podName, request), stringify).url == url
  {
  }

  /**
   * `createRuntime` and `createSnapshot` POST the request unchanged,
   * `updateRuntime` PUTs it, `updateSnapshot` PATCHes it, and
   * `deleteSnapshot` sends DELETE with neither body nor query.
   */
  lemma SnapshotAndRuntimeBodies(rc: RuntimesClient, id: string, podName: string, request: Json, stringify: Json -> string)
    requires Truthy(request)
    ensures var d := Describe(rc.CreateRuntime(request), stringify);
      d.httpMethod == "POST" && d.url == rc.api.config.baseUrl + RuntimesPath && d.body == Some(stringify(request))
    ensures var d := Describe(rc.CreateSnapshot(request), stringify);
      d.httpMethod == "POST" && d.url == rc.api.config.baseUrl + SnapshotsPath && d.body == Some(stringify(request))
    ensures var d := Describe(rc.UpdateRuntime(podName, request), stringify);
      d.httpMethod == "PUT" && d.body == Some(stringify(request))
    ensures var d := Describe(rc.UpdateSnapshot(id, request), stringify);
      d.httpMethod == "PATCH" && d.url == rc.api.config.baseUrl + (SnapshotsPath + "/" + id)
      && d.body == Some(stringify(request))
    ensures var d := Describe(rc.DeleteSnapshot(id), stringify);
      d.httpMethod == "DELETE" && d.url == rc.api.config.baseUrl + (SnapshotsPath + "/" + id) && d.body.None?
  {
  }

  /**
   * `getRuntimes`, `getSnapshots`, `getSnapshot` and `ping` are `GET`s of
   * their paths with neither body nor query, the snapshot id verbatim.
   */
  lemma ReadRequests(rc: RuntimesClient, id: string, stringify: Json -> string)
    ensures var d := Describe(rc.GetRuntimes(), stringify);
      d.httpMethod == "GET" && d.url == rc.api.config.baseUrl + RuntimesPath && d.body.None?
    ensures var d := Describe(rc.GetSnapshots(), stringify);
      d.httpMethod == "GET" && d.url == rc.api.config.baseUrl + SnapshotsPath && d.body.None?
    ensures var d := Describe(rc.GetSnapshot(id), stringify);
      d.httpMethod == "GET" && d.url == rc.api.config.baseUrl + (SnapshotsPath + "/" + id) && d.body.None?
    ensures var d := Describe(rc.Ping(), stringify);
      d.httpMethod == "GET" && d.url == rc.api.config.baseUrl + PingPath && d.body.None?
  {
  }

  /** The two pairs of the download URL, serialized, when the token needs no escaping. */
  lemma DownloadPairsSerialize(token: string)
    requires FormUrlencoded.IsUnreservedString(token)
    ensures FormUrlencoded.Serialize([(DownloadKey, DownloadFlag), (TokenKey, token)])
         == DownloadKey + "=" + DownloadFlag + "&" + TokenKey + "=" + token
  {
    DownloadKeysUnreserved();
    FormUrlencoded.SerializeTwoUnreserved(DownloadKey, DownloadFlag, TokenKey, token);
  }

  lemma DownloadKeysUnreserved()
    ensures FormUrlencoded.IsUnreservedString(DownloadKey)
    ensures FormUrlencoded.IsUnreservedString(DownloadFlag)
    ensures FormUrlencoded.IsUnreservedString(TokenKey)
  {
  }

  /**
   * The download URL's query is what the form-urlencoded serializer would
   * write, and parses back to `download=1` and the token, whenever the
   * token needs no escaping (as a JWT's characters do not).
   */
  lemma DownloadUrlQuery(rc: RuntimesClient, id: string, config: ConfigValue)
    requires FormUrlencoded.IsUnreservedString(config.token.GetOr(""))
    ensures var token := config.token.GetOr("");
      var pairs := [(DownloadKey, DownloadFlag), (TokenKey, token)];
      && rc.GetSnapshotDownloadUrl(id, config)
         == config.baseUrl + SnapshotsPath + "/" + id + "?" + FormUrlencoded.Serialize(pairs)
      && FormUrlencoded.ParseString(FormUrlencoded.Serialize(pairs)) == Some(pairs)
  {
    var token := config.token.GetOr("");
    DownloadPairsSerialize(token);
    FormUrlencoded.ParseSerialize([(DownloadKey, DownloadFlag), (TokenKey, token)]);
  }
}
