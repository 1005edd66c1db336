/** The two call endpoints of the backend as both call screens use them:
    the request bodies, and how a started call's identifier is read. */
module CallApi {
  import opened Js
  import opened Http

  const InitiatedText := "Call initiated successfully"
  const InvalidResponseText := "Invalid response from server. Please try again."
  const InitiateFailedText := "Failed to initiate call"
  const EndedText := "Call ended successfully"
  const EndFailedText := "Failed to end call"

  /** The call identifier a successful /initiateCall answer carries, if any:
      `response.data && response.data.callSid`. */
  function SidOf(r: Response): (sid: Json)
    ensures Truthy(sid) <==> Truthy(r.data) && Truthy(OptGet(r.data, "callSid"))
    ensures Truthy(sid) ==> sid == OptGet(r.data, "callSid")
  {
    if Truthy(r.data) then OptGet(r.data, "callSid") else r.data
  }

  /** The /initiateCall request for a typed number: the body carries it
      trimmed, and nothing else. */
  function InitiateRequest(number: string): (e: Event)
    ensures e.Request? && e.verb == Post && e.path == "/initiateCall"
    ensures e.payload.JObj? && e.payload.fields.Keys == {"phoneNumber"}
    ensures e.payload.fields["phoneNumber"] == JStr(Trim(number))
  {
    Request(Post, "/initiateCall", JObj(map["phoneNumber" := JStr(Trim(number))]))
  }

  /** The /endCall request for a call identifier: the identifier is the
      body's only field. */
  function EndRequest(sid: Json): (e: Event)
    ensures e.Request? && e.verb == Post && e.path == "/endCall"
    ensures e.payload.JObj? && e.payload.fields.Keys == {"callSid"} && e.payload.fields["callSid"] == sid
  {
    Request(Post, "/endCall", JObj(map["callSid" := sid]))
  }

  /** Whitespace around a number never reaches the backend, and a number
      already trimmed is sent as it is. */
  lemma InitiateSendsTrimmed(number: string)
    ensures var sent := InitiateRequest(number).payload.fields["phoneNumber"].s;
            sent == Trim(sent) && (sent == [] || (!IsJsSpace(sent[0]) && !IsJsSpace(sent[|sent| - 1])))
    ensures Trim(number) == number ==> InitiateRequest(number).payload.fields["phoneNumber"] == JStr(number)
  {
    TrimShape(number);
    TrimIdempotent(number);
  }
}
