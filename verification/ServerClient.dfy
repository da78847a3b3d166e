/** How one HTTP exchange with the server is judged. */
module ServerClient {

  /** What came back from the POST: a response, or an exception of the HTTP library. */
  datatype Reply = Response(status: nat) | NoResponse

  datatype SendResult = Delivered | AuthRejected | DeliveryFailed

  function Send(reply: Reply): (result: SendResult)
    ensures result.Delivered? <==> reply.Response? && reply.status < 400
    ensures result.AuthRejected? <==> reply.Response? && reply.status in {401, 403}
  {
    match reply
    case NoResponse => DeliveryFailed
    case Response(status) =>
      if status == 401 || status == 403 then AuthRejected
      else if status >= 400 then DeliveryFailed
      else Delivered
  }

  /** The documented rule: only a 2xx status acknowledges the message. */
  predicate DocumentedAck(reply: Reply) {
    reply.Response? && 200 <= reply.status < 300
  }

  /** A redirect is taken for a delivery although the documentation says it is not. */
  lemma RedirectIsAcked()
    ensures Send(Response(302)).Delivered? && !DocumentedAck(Response(302))
  {
  }

  /** Code and documentation agree exactly outside the 1xx and 3xx statuses. */
  lemma AckAgreesWithDocumentation(reply: Reply)
    ensures (Send(reply).Delivered? <==> DocumentedAck(reply))
       <==> (reply.Response? ==> 200 <= reply.status < 300 || reply.status >= 400)
  {
  }
}
