/** DiscordApiForwarder: how an HTTP answer becomes delivery or an error. */
module ApiForwarder {
  /** `NoAnswer` is a transport failure or the timeout of the request. */
  datatype Response = Answer(status: nat) | NoAnswer

  datatype Failure = ForwardingError(retryable: bool, status: nat) | OtherError

  datatype Outcome = Delivered | Failed(error: Failure)

  const RETRYABLE_CLIENT_STATUSES: set<nat> := {401, 403, 404, 405, 408, 425, 429}

  predicate IsRetryableStatus(status: nat) {
    status in RETRYABLE_CLIENT_STATUSES || status >= 500
  }

  /** A conflict means that an earlier attempt arrived and its answer was lost. */
  function Forward(r: Response): Outcome {
    match r
    case NoAnswer => Failed(OtherError)
    case Answer(status) =>
      if 200 <= status < 300 || status == 409 then Delivered
      else Failed(ForwardingError(IsRetryableStatus(status), status))
  }

  ghost predicate FromForwarder(o: Outcome) {
    exists r :: Forward(r) == o
  }

  /** Which answers count as delivered, are retried, and reject the event for good. */
  lemma AnswersAre(status: nat)
    ensures Forward(Answer(status)).Delivered? <==> status == 409 || 200 <= status <= 299
    ensures Forward(Answer(status)) == Failed(ForwardingError(true, status)) <==>
              status in {401, 403, 404, 405, 408, 425, 429} || 500 <= status
    ensures Forward(Answer(status)) == Failed(ForwardingError(false, status)) <==>
              (status < 200 || 300 <= status < 500) && status !in {401, 403, 404, 405, 408, 409, 425, 429}
    ensures Forward(NoAnswer) == Failed(OtherError)
  {
  }
}
