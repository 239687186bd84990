/**
  A defect of the handler when one submission changes both the password and
  the email: the email step re-authenticates with the old password although
  the password step has just replaced it, so an identity provider that checks
  credentials rejects it. Modelled here by replaying a trace against the
  password in force at each call, together with a corrected email step.
*/
module StaleSecret {
  import opened Wrappers
  import opened Js
  import opened Settings
  import opened Plan

  /** The password in force after `trace`, starting from `initial`: the last password update wins. */
  function PasswordAfter(trace: seq<Call>, initial: string): string
    decreases |trace|
  {
    if trace == [] then initial
    else if trace[|trace| - 1].SetPassword? then trace[|trace| - 1].password
    else PasswordAfter(trace[..|trace| - 1], initial)
  }

  /** Every re-authentication of `trace` presents the password in force at that point. */
  predicate LiveSecrets(trace: seq<Call>, initial: string)
    decreases |trace|
  {
    if trace == [] then true
    else
      var before := trace[..|trace| - 1];
      && LiveSecrets(before, initial)
      && (trace[|trace| - 1].Reauth? ==> trace[|trace| - 1].secret == PasswordAfter(before, initial))
  }

  /** Awaiting one call keeps the secrets live when a re-authentication presents the password in
      force, and only a password update changes that password. */
  lemma IssueKeepsSecretsLive(st: State, c: Call, o: Oracle, initial: string)
    requires LiveSecrets(st.trace, initial)
    requires c.Reauth? ==> c.secret == PasswordAfter(st.trace, initial)
    ensures LiveSecrets(Issue(st, c, o).trace, initial)
    ensures PasswordAfter(Issue(st, c, o).trace, initial)
         == if st.Running? && c.SetPassword? then c.password else PasswordAfter(st.trace, initial)
  {
    if st.Running? {
      assert (st.trace + [c])[..|st.trace|] == st.trace;
    }
  }

  /** As written: when both gated steps run and nothing throws, the second re-authentication
      presents the old password after the password was changed to the new one. */
  lemma StaleSecretAsWritten(data: Inputs, img: string, user: User, o: Oracle)
    requires ChangesPassword(data) && ChangesEmail(data, user)
    requires o.failure.None?
    ensures !LiveSecrets(OnSubmit(data, img, Some(user), o).trace, data.oldPass.value)
  {
    var oldSecret := data.oldPass.value;
    var url := o.uploadedUrl;
    var head := AvatarCalls(img, user, url) + [SetName(data.username)] + PasswordCalls(data, user);
    var reauth := head + [Reauth(CredentialId(user), oldSecret)];
    var plan := PlanFor(data, img, user, url);
    OnSubmitMatchesReference(data, img, Some(user), o);
    assert OnSubmit(data, img, Some(user), o).trace == plan;
    assert head[|head| - 1] == SetPassword(data.newPass.value);
    assert PasswordAfter(head, oldSecret) == data.newPass.value;
    assert plan == reauth + [SetEmail(data.email)];
    assert plan[..|plan| - 1] == reauth;
    assert reauth[..|reauth| - 1] == head;
    assert !LiveSecrets(reauth, oldSecret);
  }

  /** One submission that shows it: the password goes from "oldpass1" to "newpass2" and the email changes. */
  lemma StaleSecretExample()
    ensures var data := Inputs("alice", "new@example.com", Some("oldpass1"), Some("newpass2"), Some("newpass2"));
            var user := User("uid-1", Some("old@example.com"));
            !LiveSecrets(OnSubmit(data, "", Some(user), Oracle("", None)).trace, "oldpass1")
  {
    var data := Inputs("alice", "new@example.com", Some("oldpass1"), Some("newpass2"), Some("newpass2"));
    var user := User("uid-1", Some("old@example.com"));
    StaleSecretAsWritten(data, "", user, Oracle("", None));
  }

  /** The secret the email step should present: the new password when the password step ran
      before it, the old one otherwise. */
  function EmailSecret(data: Inputs): string
    requires TruthyOpt(data.oldPass)
  {
    if ChangesPassword(data) then data.newPass.value else data.oldPass.value
  }

  /** The corrected email step: as in the handler, but re-authenticating with the live password. */
  function UpdateEmailFixed(st: State, data: Inputs, user: User, o: Oracle): State {
    if ChangesEmail(data, user) then
      var reauthed := Issue(st, Reauth(CredentialId(user), EmailSecret(data)), o);
      Issue(reauthed, SetEmail(data.email), o)
    else
      st
  }

  /** The corrected handler: the handler with the corrected email step. */
  function OnSubmitFixed(data: Inputs, img: string, currentUser: Option<User>, o: Oracle): Run {
    match currentUser
    case None => Run([], Silent)
    case Some(user) =>
      var afterAvatar := UpdateAvatar(Running([]), img, user, o);
      var afterName := UpdateName(afterAvatar, data, o);
      var afterPassword := UpdatePassword(afterName, data, user, o);
      var afterEmail := UpdateEmailFixed(afterPassword, data, user, o);
      Run(afterEmail.trace, Report(afterEmail))
  }

  /** Corrected: when the old password is the user's password, every re-authentication the corrected
      handler issues presents the password in force, whatever throws. */
  lemma FixedPresentsLiveSecrets(data: Inputs, img: string, currentUser: Option<User>, o: Oracle)
    ensures LiveSecrets(OnSubmitFixed(data, img, currentUser, o).trace, OrEmpty(data.oldPass))
  {
    if currentUser.Some? {
      var user := currentUser.value;
      var pw := OrEmpty(data.oldPass);
      var s0: State := Running([]);
      var s1 := UpdateAvatar(s0, img, user, o);
      if Truthy(img) {
        var up := Issue(s0, Upload(AvatarKind, user.uid, img), o);
        IssueKeepsSecretsLive(s0, Upload(AvatarKind, user.uid, img), o, pw);
        IssueKeepsSecretsLive(up, SetPhoto(o.uploadedUrl), o, pw);
      } else {
        IssueKeepsSecretsLive(s0, SetPhoto(""), o, pw);
      }
      assert LiveSecrets(s1.trace, pw) && PasswordAfter(s1.trace, pw) == pw;
      var s2 := UpdateName(s1, data, o);
      IssueKeepsSecretsLive(s1, SetName(data.username), o, pw);
      var s3 := UpdatePassword(s2, data, user, o);
      if ChangesPassword(data) {
        var re := Reauth(CredentialId(user), data.oldPass.value);
        var mid := Issue(s2, re, o);
        IssueKeepsSecretsLive(s2, re, o, pw);
        IssueKeepsSecretsLive(mid, SetPassword(data.newPass.value), o, pw);
        assert s3.Running? ==> PasswordAfter(s3.trace, pw) == data.newPass.value;
      }
      if ChangesEmail(data, user) {
        var re := Reauth(CredentialId(user), EmailSecret(data));
        if s3.Running? {
          var mid := Issue(s3, re, o);
          IssueKeepsSecretsLive(s3, re, o, pw);
          IssueKeepsSecretsLive(mid, SetEmail(data.email), o, pw);
        }
      }
    }
  }

  /** The correction changes nothing unless both gated steps run. */
  lemma FixedAgreesOtherwise(data: Inputs, img: string, currentUser: Option<User>, o: Oracle)
    requires currentUser.Some? ==> !(ChangesPassword(data) && ChangesEmail(data, currentUser.value))
    ensures OnSubmitFixed(data, img, currentUser, o) == OnSubmit(data, img, currentUser, o)
  {
  }
}
