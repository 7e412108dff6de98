/**
 * How the two credential screens read the reply of the credentials endpoint: an error in the
 * body or an exception shows the error view, otherwise the credentials are listed.  The view
 * tests the error string for truthiness, so an empty one counts as no error.
 */
module CredentialsView {
  import opened Wrappers
  import opened CredentialsRoute

  /** While the request runs, after it failed, and with the credentials it returned. */
  datatype View = Loading | Failed(error: string) | Loaded(credentials: seq<Credential>)

  /**
   * How the request ended: the body it answered with, or a thrown value with its message
   * (None when what was thrown is not an `Error`).
   */
  datatype Reply = Body(credentials: seq<Credential>, error: Option<string>) | Threw(message: Option<string>)

  /** `credentials.map((c) => c.tool)`: the tool of each credential, in order. */
  function ToolsOf(credentials: seq<Credential>): (r: seq<string>)
    ensures |r| == |credentials| && forall i :: 0 <= i < |r| ==> r[i] == credentials[i].tool
  {
    seq(|credentials|, i requires 0 <= i < |credentials| => credentials[i].tool)
  }

  const CheckFailedMsg := "Failed to check credentials"

  /** The error the request leaves in the state, None for none. */
  function ErrorOf(reply: Reply): Option<string> {
    match reply
    case Body(_, e) => e
    case Threw(m) => Some(m.GetOr(CheckFailedMsg))
  }

  /**
   * The view once the request is over: the error view for a non-empty error, else the
   * credentials of a body without an error, and else the empty initial list.
   */
  function Settle(reply: Reply): (r: View)
    ensures !r.Loading?
    ensures r.Failed? <==> ErrorOf(reply).Some? && ErrorOf(reply).value != ""
    ensures r.Failed? ==> r.error == ErrorOf(reply).value
    ensures r.Loaded? && reply.Body? ==> r.credentials == reply.credentials
    ensures r.Loaded? && reply.Threw? ==> r.credentials == []
  {
    match reply
    case Body(creds, e) =>
      if e.Some? && e.value != "" then Failed(e.value) else Loaded(creds)
    case Threw(m) =>
      var msg := m.GetOr(CheckFailedMsg);
      if msg != "" then Failed(msg) else Loaded([])
  }

  /**
   * What Continue hands on: nothing while loading (there is no button), [] after a failure
   * ("Continue anyway"), and otherwise the tool of every credential found, whether the user
   * selected that tool or not.
   */
  function ContinueTools(view: View): (r: Option<seq<string>>)
    ensures view.Loading? <==> r.None?
    ensures view.Failed? ==> r == Some([])
    ensures view.Loaded? ==> r == Some(ToolsOf(view.credentials))
  {
    match view
    case Loading => None
    case Failed(_) => Some([])
    case Loaded(credentials) => Some(ToolsOf(credentials))
  }

  /**
   * The credentials of a body that carries an error are never listed, and a body without one
   * is listed as it came; a thrown value that is not an `Error` shows the default message.
   */
  lemma SettleCases(creds: seq<Credential>, e: string)
    ensures e != "" ==> Settle(Body(creds, Some(e))) == Failed(e)
    ensures Settle(Body(creds, None)) == Loaded(creds)
    ensures Settle(Threw(None)) == Failed(CheckFailedMsg)
  {
  }

  /** An exception with an empty message is not shown: the screen lists no credentials at all. */
  lemma EmptyMessageListsNothing()
    ensures Settle(Threw(Some(""))) == Loaded([])
  {
  }
}
