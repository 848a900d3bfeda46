/** The answers the controllers send: a status code and a JSON body of the form
    `{ success: true, data }`, `{ success: true, message }` or `{ success: false, error }`. */
module Replies {
  import opened Outcomes

  datatype Body<+T> = Data(data: T) | Message(message: string) | Failure(error: string) {
    /** The body's `success` flag. */
    predicate Success() {
      !Failure?
    }
  }

  datatype HttpReply<+T> = HttpReply(status: nat, body: Body<T>)

  /** The handler shape every controller action but the profile reads shares:
      on a result, `ok` with the value as data; on a thrown error, `failed` with its message. */
  function Answer<T>(result: Result<T, Error>, ok: nat, failed: nat): HttpReply<T> {
    match result
    case Ok(v) => HttpReply(ok, Data(v))
    case Err(e) => HttpReply(failed, Failure(e.message))
  }

  /** With distinct codes, the status tells success from failure, the body's
      flag agrees, and the body carries exactly the value or the error's message. */
  lemma AnswerCases<T>(result: Result<T, Error>, ok: nat, failed: nat)
    requires ok != failed
    ensures var a := Answer(result, ok, failed);
      && (a.status == ok <==> result.Ok?)
      && (a.status == failed <==> result.Err?)
      && (a.body.Success() <==> result.Ok?)
      && (result.Ok? ==> a.body == Data(result.value))
      && (result.Err? ==> a.body == Failure(result.error.message))
  {
  }
}
