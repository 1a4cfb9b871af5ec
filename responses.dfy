/** The response envelope every helper returns: the JSON body and the HTTP
    status code (helpers.py, `generate_success_response` and
    `generate_failure_response`). */
module Responses {
  import opened Wrappers
  import opened JsonValues

  /** The `http.client` statuses the helpers answer with. */
  datatype Status = OK | Created | BadRequest | InternalServerError {
    function Value(): (code: int) {
      match this
      case OK => 200
      case Created => 201
      case BadRequest => 400
      case InternalServerError => 500
    }
  }

  function StatusOf(code: int): (s: Option<Status>)
    ensures s.Some? ==> s.value.Value() == code
    ensures forall st: Status :: st.Value() == code ==> s == Some(st)
  {
    if code == 200 then Some(OK)
    else if code == 201 then Some(Created)
    else if code == 400 then Some(BadRequest)
    else if code == 500 then Some(InternalServerError)
    else None
  }

  /** The `(body, status.value)` pair a helper returns. */
  datatype Reply = Reply(body: Json, code: int)

  /** What a client reads back out of a reply. */
  datatype Outcome = Succeeded(status: Status, data: Json) | Failed(status: Status, message: string)

  /** Reads a reply as a client would: a success body is exactly
      `{"status": "success", "data": ...}`, a failure body exactly
      `{"message": <string>}`. Anything else is not an envelope. */
  function Classify(r: Reply): (o: Option<Outcome>) {
    match StatusOf(r.code)
    case None => None
    case Some(st) =>
      if r.body.Obj? && r.body.members.Keys == {"status", "data"} && r.body.members["status"] == Str("success") then
        Some(Succeeded(st, r.body.members["data"]))
      else if r.body.Obj? && r.body.members.Keys == {"message"} && r.body.members["message"].Str? then
        Some(Failed(st, r.body.members["message"].s))
      else
        None
  }

  function GenerateSuccessResponse(status: Status, data: Json): (r: Reply)
    ensures r.code == status.Value()
    ensures Classify(r) == Some(Succeeded(status, data))
  {
    Reply(Obj(map["status" := Str("success"), "data" := data]), status.Value())
  }

  function GenerateFailureResponse(status: Status, message: string): (r: Reply)
    ensures r.code == status.Value()
    ensures Classify(r) == Some(Failed(status, message))
  {
    Reply(Obj(map["message" := Str(message)]), status.Value())
  }

  /** A reply is never both a success and a failure, and each envelope
      determines the status and payload it was built from. */
  lemma EnvelopesAreDistinct(s1: Status, d: Json, s2: Status, m: string)
    ensures GenerateSuccessResponse(s1, d) != GenerateFailureResponse(s2, m)
  {
    assert Classify(GenerateSuccessResponse(s1, d)) != Classify(GenerateFailureResponse(s2, m));
  }
}
