/**
  The submit handler of the account settings page, as an incremental state
  machine over abstract calls to the upload endpoint and the identity provider.

  Every `await` of the handler is one `Issue` step. Whether a call throws, and
  the url the upload endpoint answers with, come from an `Oracle`; the first
  throw aborts the run, and nothing already issued is undone.
*/
module Settings {
  import opened Wrappers
  import opened Js

  /** The submitted form values. The password fields are optional. */
  datatype Inputs = Inputs(
    username: string,
    email: string,
    oldPass: Option<string>,
    newPass: Option<string>,
    newPassConfirm: Option<string>)

  /** The identity provider's signed-in user: its id and its email, which may be null. */
  datatype User = User(uid: string, email: Option<string>)

  /** The asset kind sent with every avatar upload. */
  const AvatarKind: string := "avatar"

  /** One outgoing call: the upload request, or one identity-provider mutation. */
  datatype Call =
    | Upload(kind: string, filename: string, content: string)
    | SetPhoto(url: string)
    | SetName(name: string)
    | Reauth(identifier: string, secret: string)
    | SetPassword(password: string)
    | SetEmail(address: string)

  /** A thrown value: an `Error` instance carries a message, anything else does not. */
  datatype Thrown = ErrorObject(message: string) | OtherValue

  /** The call at position `at` of the run throws `thrown`. */
  datatype Failure = Failure(at: nat, thrown: Thrown)

  /** The environment's answers: the url in the upload response, and the call that throws, if any. */
  datatype Oracle = Oracle(uploadedUrl: string, failure: Option<Failure>)

  /** What the user sees: the success notice (with a page reload), an error notice, or nothing. */
  datatype Outcome = Success | Failed(message: string) | Silent

  /** The calls issued, in order, and the outcome of one submission. */
  datatype Run = Run(trace: seq<Call>, outcome: Outcome)

  /** The handler between two awaits: still running, or unwinding from a throw. */
  datatype State = Running(trace: seq<Call>) | Aborted(trace: seq<Call>, thrown: Thrown)

  /** The call at position `i` throws. */
  predicate FailsAt(o: Oracle, i: nat) {
    o.failure.Some? && o.failure.value.at == i
  }

  /** Awaits call `c`: a running handler records it and aborts if it throws;
      an aborted handler issues nothing more. */
  function Issue(st: State, c: Call, o: Oracle): (r: State)
    ensures st.Running? ==> r.trace == st.trace + [c]
    ensures st.Aborted? ==> r == st
    ensures r.Aborted? <==> st.Aborted? || FailsAt(o, |st.trace|)
  {
    match st
    case Aborted(_, _) => st
    case Running(t) =>
      if FailsAt(o, |t|) then Aborted(t + [c], o.failure.value.thrown)
      else Running(t + [c])
  }

  /** The gate of the password step: all three password fields supplied and the new one differs from the old. */
  predicate ChangesPassword(data: Inputs) {
    && TruthyOpt(data.oldPass)
    && TruthyOpt(data.newPass)
    && TruthyOpt(data.newPassConfirm)
    && data.oldPass != data.newPass
  }

  /** The gate of the email step: the submitted email differs from the user's (a null email always differs)
      and the current password was supplied. */
  predicate ChangesEmail(data: Inputs, user: User) {
    Some(data.email) != user.email && TruthyOpt(data.oldPass)
  }

  /** The identifier of the re-authentication credential: the user's email, or `""` when it is null or empty. */
  function CredentialId(user: User): (r: string)
    ensures user.email.Some? && Truthy(user.email.value) ==> r == user.email.value
    ensures !(user.email.Some? && Truthy(user.email.value)) ==> r == ""
  {
    OrEmpty(user.email)
  }

  /** The avatar step: upload a chosen image and point the photo URL at the answer, or clear the photo URL. */
  function UpdateAvatar(st: State, img: string, user: User, o: Oracle): State {
    if Truthy(img) then
      var uploaded := Issue(st, Upload(AvatarKind, user.uid, img), o);
      Issue(uploaded, SetPhoto(o.uploadedUrl), o)
    else
      Issue(st, SetPhoto(""), o)
  }

  /** The display-name step, taken on every submission. */
  function UpdateName(st: State, data: Inputs, o: Oracle): State {
    Issue(st, SetName(data.username), o)
  }

  /** The password step: re-authenticate with the old password, then set the new one. */
  function UpdatePassword(st: State, data: Inputs, user: User, o: Oracle): State {
    if ChangesPassword(data) then
      var reauthed := Issue(st, Reauth(CredentialId(user), data.oldPass.value), o);
      Issue(reauthed, SetPassword(data.newPass.value), o)
    else
      st
  }

  /** The email step: re-authenticate with the old password, then set the new email. */
  function UpdateEmail(st: State, data: Inputs, user: User, o: Oracle): State {
    if ChangesEmail(data, user) then
      var reauthed := Issue(st, Reauth(CredentialId(user), data.oldPass.value), o);
      Issue(reauthed, SetEmail(data.email), o)
    else
      st
  }

  /** The notice for a caught value: its message for an `Error`, nothing otherwise. */
  function Notice(thrown: Thrown): (r: Outcome)
    ensures r != Success
    ensures thrown.ErrorObject? ==> r == Failed(thrown.message)
    ensures thrown.OtherValue? ==> r == Silent
  {
    match thrown
    case ErrorObject(m) => Failed(m)
    case OtherValue => Silent
  }

  /** The result of a finished handler: success when nothing threw, otherwise the catch block's notice. */
  function Report(st: State): (r: Outcome)
    ensures r.Success? <==> st.Running?
  {
    match st
    case Running(_) => Success
    case Aborted(_, thrown) => Notice(thrown)
  }

  /** The submit handler: without a signed-in user nothing happens; otherwise the avatar, name,
      password and email steps run in this order, the first throw ending the run. */
  function OnSubmit(data: Inputs, img: string, currentUser: Option<User>, o: Oracle): (r: Run)
    ensures currentUser.None? ==> r.trace == [] && r.outcome == Silent
    ensures r.outcome.Success? ==> currentUser.Some?
  {
    match currentUser
    case None => Run([], Silent)
    case Some(user) =>
      var afterAvatar := UpdateAvatar(Running([]), img, user, o);
      var afterName := UpdateName(afterAvatar, data, o);
      var afterPassword := UpdatePassword(afterName, data, user, o);
      var afterEmail := UpdateEmail(afterPassword, data, user, o);
      Run(afterEmail.trace, Report(afterEmail))
  }

  /** The form's own checks, run before the handler is called: the name and email fields are required,
      and the confirmation must equal the new password. */
  predicate PassesValidation(data: Inputs) {
    && data.username != ""
    && data.email != ""
    && data.newPassConfirm == data.newPass
  }

  /** A submission: the handler runs only on a form that passes validation; otherwise nothing is issued. */
  function HandleSubmit(data: Inputs, img: string, currentUser: Option<User>, o: Oracle): (r: Option<Run>)
    ensures r.Some? <==> data.username != "" && data.email != "" && data.newPassConfirm == data.newPass
    ensures r.Some? ==> r.value == OnSubmit(data, img, currentUser, o)
  {
    if PassesValidation(data) then Some(OnSubmit(data, img, currentUser, o)) else None
  }
}
