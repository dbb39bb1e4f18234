/** The mail relay, reduced to what the detector can observe: whether a
    notification went out, and which error it raised when it did not. */
module Notifier {
  import opened Wrappers
  import opened Episodes

  /** What the relay does with one message: deliver it, reject the login,
      or fail in some other way. */
  datatype SendOutcome = Delivered | LoginRejected | TransportFailed

  /** The errors of a run, each re-raised to the caller. */
  datatype Failure = FetchError | AuthError | SendError

  /** The mailbox of the recipient: the episodes notified so far, in order. */
  class Mailer {
    var sent: seq<Episode>

    constructor ()
      ensures sent == []
    {
      sent := [];
    }

    /** `send_email`: one message about one episode. A rejected login
        raises `AuthError`, any other failure `SendError`; in both cases
        nothing reaches the recipient. */
    method SendEmail(e: Episode, outcome: SendOutcome) returns (failure: Option<Failure>)
      modifies this
      ensures failure == None <==> outcome == Delivered
      ensures outcome == LoginRejected ==> failure == Some(AuthError)
      ensures outcome == TransportFailed ==> failure == Some(SendError)
      ensures sent == if outcome == Delivered then old(sent) + [e] else old(sent)
    {
      match outcome
      case Delivered =>
        sent := sent + [e];
        failure := None;
      case LoginRejected =>
        failure := Some(AuthError);
      case TransportFailed =>
        failure := Some(SendError);
    }
  }
}
