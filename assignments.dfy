/** `AssignmentsClient`: the assignment endpoints of the spacer service. */
module Assignments {
  import opened Options
  import opened Js
  import opened Base
  import H = Headers

  const AssignmentsPath := "/api/spacer/v1/assignments"

  /** `request || {}`: the body of a reset. */
  function ResetBody(request: Option<Json>): Json {
    if TruthyOpt(request) then request.value else JObj([])
  }

  class AssignmentsClient {
    /** The `ApiClient` part of this client (the class extends `ApiClient`). */
    const api: ApiClient

    constructor (config: Config.RequestConfig)
      ensures fresh(api) && api.config == config
    {
      api := new ApiClient(config);
    }

    function CreateAssignment(request: Json): Call {
      api.Post(AssignmentsPath, Some(request), None)
    }

    function GetAssignment(id: string): Call {
      api.Get(AssignmentsPath + "/" + id, None)
    }

    function GradeAssignment(id: string, studentId: string, request: Json): Call {
      api.Put(AssignmentsPath + "/" + id + "/students/" + studentId + "/grade", Some(request), None)
    }

    function ResetAssignment(id: string, request: Option<Json>): Call {
      api.Post(AssignmentsPath + "/" + id + "/reset", Some(ResetBody(request)), None)
    }
  }

  /** The default body is always truthy, whatever was passed. */
  lemma ResetBodyTruthy(request: Option<Json>)
    ensures Truthy(ResetBody(request))
    ensures TruthyOpt(request) ==> ResetBody(request) == request.value
    ensures !TruthyOpt(request) ==> ResetBody(request) == JObj([])
  {
  }

  /**
   * A reset always sends a JSON body: the request when one is given, `{}`
   * otherwise, POSTed to `/api/spacer/v1/assignments/<id>/reset`.
   */
  lemma ResetAssignmentRequest(ac: AssignmentsClient, id: string, request: Option<Json>, stringify: Json -> string)
    ensures var d := Describe(ac.ResetAssignment(id, request), stringify);
      && d.httpMethod == "POST"
      && d.url == ac.api.config.baseUrl + (AssignmentsPath + "/" + id + "/reset")
      && d.body.Some?
      && (TruthyOpt(request) ==> d.body == Some(stringify(request.value)))
      && (request.None? ==> d.body == Some(stringify(JObj([]))))
  {
    ResetBodyTruthy(request);
  }

  /** A reset always carries `Content-Type: application/json`, since its body is never falsy. */
  lemma ResetAssignmentContentType(ac: AssignmentsClient, id: string, request: Option<Json>, stringify: Json -> string)
    ensures H.Get(Describe(ac.ResetAssignment(id, request), stringify).headers, ContentTypeHeader) == Some(ApplicationJson)
  {
    var opts := RequestOptions(Some("POST"), Some(ResetBody(request)), None, None);
    ResetBodyTruthy(request);
    HeaderRules(ac.api.config.Value(), opts, ContentTypeHeader);
    H.HasGet([], ContentTypeHeader);
  }

  /**
   * `createAssignment` POSTs to the collection, `getAssignment` GETs one
   * assignment without a body, and `gradeAssignment` PUTs the request to
   * the student's grade path, identifiers inserted verbatim.
   */
  lemma AssignmentRequests(ac: AssignmentsClient, id: string, studentId: string, request: Json, stringify: Json -> string)
    requires Truthy(request)
    ensures var d := Describe(ac.CreateAssignment(request), stringify);
      d.httpMethod == "POST" && d.url == ac.api.config.baseUrl + AssignmentsPath && d.body == Some(stringify(request))
    ensures var d := Describe(ac.GetAssignment(id), stringify);
      d.httpMethod == "GET" && d.url == ac.api.config.baseUrl + (AssignmentsPath + "/" + id) && d.body.None?
    ensures var d := Describe(ac.GradeAssignment(id, studentId, request), stringify);
      && d.httpMethod == "PUT"
      && d.url == ac.api.config.baseUrl + (AssignmentsPath + "/" + id + "/students/" + studentId + "/grade")
      && d.body == Some(stringify(request))
  {
  }
}
