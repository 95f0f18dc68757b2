/**
 * `SpacerClient`: seven sub-clients built over the one configuration
 * object it is given, and the in-place update that all of them observe.
 */
module Spacer {
  import opened Config
  import opened Base
  import opened Assignments

  class SpacerClient {
    const config: RequestConfig
    const spaces: ApiClient
    const notebooks: ApiClient
    const documents: ApiClient
    const assignments: AssignmentsClient
    const courses: ApiClient
    const exercises: ApiClient
    const datasets: ApiClient

    /** Every sub-client holds this client's configuration object itself. */
    ghost predicate Shared() {
      && spaces.config == config
      && notebooks.config == config
      && documents.config == config
      && assignments.api.config == config
      && courses.config == config
      && exercises.config == config
      && datasets.config == config
    }

    /** The constructor keeps the object it is given, without copying or checking it. */
    constructor (config: RequestConfig)
      ensures this.config == config && Shared()
      ensures config.Value() == old(config.Value())
    {
      this.config := config;
      spaces := new ApiClient(config);
      notebooks := new ApiClient(config);
      documents := new ApiClient(config);
      assignments := new AssignmentsClient(config);
      courses := new ApiClient(config);
      exercises := new ApiClient(config);
      datasets := new ApiClient(config);
    }

    /** `Object.assign(this.config, p)`: the shared object is updated in place. */
    method UpdateConfig(p: PartialConfig)
      requires Shared()
      modifies config
      ensures config.Value() == Merge(old(config.Value()), p)
      ensures Shared()
    {
      config.Assign(p);
    }

    /** `{ ...this.config }`: an equal object that is not the shared one. */
    method GetConfig() returns (c: RequestConfig)
      ensures fresh(c) && c.Value() == config.Value()
    {
      c := config.Copy();
    }
  }

  /**
   * After an update every one of the seven sub-clients reads the merged
   * values, since each holds the object that was updated.
   */
  method UpdateReachesSubClients(s: SpacerClient, p: PartialConfig)
    requires s.Shared()
    modifies s.config
    ensures var v := Merge(old(s.config.Value()), p);
      && s.spaces.config.Value() == v
      && s.notebooks.config.Value() == v
      && s.documents.config.Value() == v
      && s.assignments.api.config.Value() == v
      && s.courses.config.Value() == v
      && s.exercises.config.Value() == v
      && s.datasets.config.Value() == v
  {
    s.UpdateConfig(p);
  }

  /** An update with an empty partial leaves every field as it was. */
  method UpdateWithNothing(s: SpacerClient)
    requires s.Shared()
    modifies s.config
    ensures s.config.Value() == old(s.config.Value())
  {
    s.UpdateConfig(NoChanges);
    MergeNothing(old(s.config.Value()));
  }
}
