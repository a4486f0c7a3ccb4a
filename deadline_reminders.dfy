/**
 * The deadline-reminder HTTP endpoint: how a request's method and body decide the
 * response's status, headers and JSON payload. Parsing the body is an argument: the
 * parsed fields, or the message of the exception that parsing or destructuring threw.
 */
module DeadlineReminders {
  import opened Wrappers
  import opened Text

  /** The JSON body's fields; `None` is a missing field. */
  datatype ReminderRequest = ReminderRequest(
    userEmail: Option<string>,
    userName: Option<string>,
    opportunityTitle: Option<string>,
    deadline: Option<string>,
    applyUrl: Option<string>)

  datatype HttpRequest = HttpRequest(httpMethod: string, body: Result<ReminderRequest, string>)

  /** The response body: none (preflight) or one of the JSON objects the handler writes. */
  datatype Payload =
    | NoBody
    | ErrorMessage(error: string)
    | Scheduled(message: string, recipient: string, opportunity: string, deadline: string)
    | Failure(failure: string)
  {
    /** The JSON `success` field, where there is one. */
    function SuccessField(): Option<bool> {
      match this
      case Scheduled(_, _, _, _) => Some(true)
      case Failure(_) => Some(false)
      case _ => None
    }
  }

  datatype HttpResponse = HttpResponse(status: int, headers: map<string, string>, body: Payload)

  const PreflightHeaders := map[
    "Access-Control-Allow-Origin" := "*",
    "Access-Control-Allow-Methods" := "POST, GET, OPTIONS",
    "Access-Control-Allow-Headers" := "Content-Type, Authorization"]

  const JsonHeaders := map["Content-Type" := "application/json", "Access-Control-Allow-Origin" := "*"]

  /** All four of these fields are truthy; `applyUrl` is not checked. */
  predicate HasRequiredFields(r: ReminderRequest) {
    Truthy(r.userEmail) && Truthy(r.userName) && Truthy(r.opportunityTitle) && Truthy(r.deadline)
  }

  /** The handler; `formatLongDate` renders the deadline text as a long en-US date. */
  function HandleRequest(req: HttpRequest, formatLongDate: string -> string): (resp: HttpResponse)
    ensures "Access-Control-Allow-Origin" in resp.headers && resp.headers["Access-Control-Allow-Origin"] == "*"
    ensures resp.body.NoBody? <==> req.httpMethod == "OPTIONS"
    ensures resp.status == 405 <==> req.httpMethod != "OPTIONS" && req.httpMethod != "POST"
    ensures resp.status == 400 <==> req.httpMethod == "POST" && req.body.Ok? && !HasRequiredFields(req.body.value)
    ensures resp.status == 500 <==> req.httpMethod == "POST" && req.body.Err?
    ensures resp.body.SuccessField() == Some(true) <==>
      req.httpMethod == "POST" && req.body.Ok? && HasRequiredFields(req.body.value)
    ensures resp.status == 405 ==> resp.body == ErrorMessage("Method not allowed")
    ensures resp.status == 400 ==> resp.body == ErrorMessage("Missing required fields")
  {
    if req.httpMethod == "OPTIONS" then
      HttpResponse(200, PreflightHeaders, NoBody)
    else if req.httpMethod != "POST" then
      HttpResponse(405, JsonHeaders, ErrorMessage("Method not allowed"))
    else if req.body.Err? then
      var msg := if req.body.error != "" then req.body.error else "Failed to process deadline reminder";
      HttpResponse(500, JsonHeaders, Failure(msg))
    else if !HasRequiredFields(req.body.value) then
      HttpResponse(400, JsonHeaders, ErrorMessage("Missing required fields"))
    else
      var r := req.body.value;
      HttpResponse(200, JsonHeaders, Scheduled("Deadline reminder scheduled successfully", r.userEmail.value,
                                               r.opportunityTitle.value, formatLongDate(r.deadline.value)))
  }

  /** The method is checked before the body is read: for any method but POST the body does not matter. */
  lemma MethodCheckedBeforeBody(httpMethod: string, b1: Result<ReminderRequest, string>,
                                b2: Result<ReminderRequest, string>, formatLongDate: string -> string)
    requires httpMethod != "POST"
    ensures HandleRequest(HttpRequest(httpMethod, b1), formatLongDate) == HandleRequest(HttpRequest(httpMethod, b2), formatLongDate)
  {
  }

  /** `applyUrl` never affects the response. */
  lemma ApplyUrlUnchecked(httpMethod: string, r: ReminderRequest, url: Option<string>, formatLongDate: string -> string)
    ensures HandleRequest(HttpRequest(httpMethod, Ok(r)), formatLongDate) ==
            HandleRequest(HttpRequest(httpMethod, Ok(r.(applyUrl := url))), formatLongDate)
  {
  }

  /** A valid request is answered with its recipient, opportunity and formatted deadline. */
  lemma ScheduledEchoesRequest(r: ReminderRequest, formatLongDate: string -> string)
    requires HasRequiredFields(r)
    ensures var resp := HandleRequest(HttpRequest("POST", Ok(r)), formatLongDate);
      resp.status == 200 && resp.body.Scheduled? &&
      resp.body.message == "Deadline reminder scheduled successfully" &&
      resp.body.recipient == r.userEmail.value && resp.body.opportunity == r.opportunityTitle.value &&
      resp.body.deadline == formatLongDate(r.deadline.value)
  {
  }

  /** A failure reports the exception's message, or the default text when the message is empty. */
  lemma FailureReportsMessage(httpMethod: string, msg: string, formatLongDate: string -> string)
    requires httpMethod == "POST"
    ensures var resp := HandleRequest(HttpRequest(httpMethod, Err(msg)), formatLongDate);
      resp.body == Failure(if msg == "" then "Failed to process deadline reminder" else msg)
  {
  }
}
