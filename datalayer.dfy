/**
 * `DatalayerClient` (`index.ts`): the runtimes client and the spacer
 * client over one shared configuration object, its update, which reaches
 * the object twice, and the two factory functions.
 */
module Datalayer {
  import opened Options
  import opened Js
  import opened Config
  import opened Base
  import opened Runtimes
  import opened Spacer
  import H = Headers

  class DatalayerClient {
    const runtimes: RuntimesClient
    const spacer: SpacerClient
    const config: RequestConfig

    /** The runtimes client and every spacer sub-client hold `config` itself. */
    ghost predicate Shared() {
      runtimes.api.config == config && spacer.config == config && spacer.Shared()
    }

    constructor (config: RequestConfig)
      ensures this.config == config && Shared()
      ensures config.Value() == old(config.Value())
    {
      this.config := config;
      runtimes := new RuntimesClient(config);
      spacer := new SpacerClient(config);
    }

    /**
     * `updateConfig(p)`: `Object.assign` on the shared object, then the
     * spacer's own update, which applies `p` to the same object once more.
     * The result is one merge, and the runtimes client, never called,
     * reads it too.
     */
    method UpdateConfig(p: PartialConfig)
      requires Shared()
      modifies config
      ensures config.Value() == Merge(old(config.Value()), p)
      ensures runtimes.api.config.Value() == config.Value()
      ensures Shared()
    {
      config.Assign(p);
      spacer.UpdateConfig(p);
      MergeIdempotent(old(config.Value()), p);
    }

    /** `{ ...this.config }`. */
    method GetConfig() returns (c: RequestConfig)
      ensures fresh(c) && c.Value() == config.Value()
    {
      c := config.Copy();
    }
  }

  /** `createSpacerClient(config)`: `new SpacerClient(config)`. */
  method CreateSpacerClient(config: RequestConfig) returns (s: SpacerClient)
    ensures fresh(s) && s.config == config && s.Shared()
    ensures config.Value() == old(config.Value())
  {
    s := new SpacerClient(config);
  }

  /** `createDatalayerClient(config)`: `new DatalayerClient(config)`, with no check of the base URL. */
  method CreateDatalayerClient(config: RequestConfig) returns (d: DatalayerClient)
    ensures fresh(d) && d.config == config && d.Shared()
    ensures config.Value() == old(config.Value())
  {
    d := new DatalayerClient(config);
  }

  const ExampleBaseUrl := "https://x"
  const ExampleToken := "abc"
  const UpdatedToken := "t2"

  /**
   * A client over `{ baseUrl: "https://x", token: "abc" }` lists the
   * environments at `https://x/api/runtimes/v1/environments` with
   * `Authorization: Bearer abc` and `Accept: application/json`; after
   * `updateConfig({ token: "t2" })` the same runtimes client sends
   * `Bearer t2` to the same URL.
   */
  method TokenUpdateScenario(stringify: Json -> string) returns (before: Descriptor, after: Descriptor)
    ensures before.httpMethod == "GET" && before.body.None?
    ensures before.url == ExampleBaseUrl + "/api/runtimes/v1/environments"
    ensures H.Get(before.headers, AuthorizationHeader) == Some("Bearer " + ExampleToken)
    ensures H.Get(before.headers, AcceptHeader) == Some(ApplicationJson)
    ensures after.url == before.url
    ensures H.Get(after.headers, AuthorizationHeader) == Some("Bearer " + UpdatedToken)
  {
    var config := new RequestConfig(ConfigValue(ExampleBaseUrl, Some(ExampleToken), None));
    var client := CreateDatalayerClient(config);
    EnvironmentsRequest(client.runtimes, stringify);
    before := Describe(client.runtimes.GetEnvironments(), stringify);
    client.UpdateConfig(PartialConfig(None, Some(Some(UpdatedToken)), None));
    EnvironmentsRequest(client.runtimes, stringify);
    after := Describe(client.runtimes.GetEnvironments(), stringify);
  }

  /** Changing the object `getConfig` returned leaves the client's configuration as it was. */
  method MutateCopy(client: DatalayerClient, p: PartialConfig) returns (copy: RequestConfig)
    ensures fresh(copy) && copy.Value() == Merge(client.config.Value(), p)
    ensures unchanged(client.config)
  {
    copy := client.GetConfig();
    copy.Assign(p);
  }
}
