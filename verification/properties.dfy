/**
  What the submit handler does, stated over the calls it issues: the gating
  of each step, their order, the re-authentication before each sensitive
  call, the abort on the first throw, and the notice shown at the end.
*/
module Properties {
  import opened Wrappers
  import opened Js
  import opened Settings
  import opened Plan

  /** The number of avatar calls that open every plan. */
  function AvatarLength(img: string): nat {
    if Truthy(img) then 2 else 1
  }

  /** The run is the plan cut after the first throwing call: earlier calls stay issued
      (nothing is rolled back) and nothing after the throw is issued. */
  lemma TraceFollowsPlan(data: Inputs, img: string, user: User, o: Oracle)
    ensures var r := OnSubmit(data, img, Some(user), o);
            var plan := PlanFor(data, img, user, o.uploadedUrl);
            && r.trace <= plan
            && (FailsWithin(o, |plan|) ==> r.trace == plan[..o.failure.value.at + 1])
            && (!FailsWithin(o, |plan|) ==> r.trace == plan)
  {
    OnSubmitMatchesReference(data, img, Some(user), o);
  }

  /** Success (notice and reload) exactly when no issued call threw; on a throw, an error notice
      carrying the message of an `Error`, and no notice at all for any other thrown value. */
  lemma OutcomeReflectsRun(data: Inputs, img: string, user: User, o: Oracle)
    ensures var r := OnSubmit(data, img, Some(user), o);
            var plan := PlanFor(data, img, user, o.uploadedUrl);
            && (r.outcome == Success <==> !FailsWithin(o, |plan|))
            && (FailsWithin(o, |plan|) && o.failure.value.thrown.ErrorObject? ==>
                  r.outcome == Failed(o.failure.value.thrown.message))
            && (FailsWithin(o, |plan|) && o.failure.value.thrown.OtherValue? ==> r.outcome == Silent)
  {
    OnSubmitMatchesReference(data, img, Some(user), o);
  }

  /** The plan opens with the avatar step, which always sets the photo URL exactly once: to the
      uploaded url after one upload when an image is held, and to `""` without an upload otherwise. */
  lemma AvatarStepFirst(data: Inputs, img: string, user: User, url: string)
    ensures var plan := PlanFor(data, img, user, url);
            && Count(plan, KSetPhoto) == 1
            && Count(plan, KUpload) == (if Truthy(img) then 1 else 0)
            && (Truthy(img) ==> plan[0] == Upload(AvatarKind, user.uid, img) && plan[1] == SetPhoto(url))
            && (!Truthy(img) ==> plan[0] == SetPhoto(""))
  {
    GatedCallsCount(data, img, user, url);
  }

  /** The display-name update is planned exactly once, right after the avatar calls, with the
      submitted name. */
  lemma NameAfterAvatar(data: Inputs, img: string, user: User, url: string)
    ensures var plan := PlanFor(data, img, user, url);
            && plan[AvatarLength(img)] == SetName(data.username)
            && Count(plan, KSetName) == 1
            && forall i :: 0 <= i < AvatarLength(img) ==> plan[i].Upload? || plan[i].SetPhoto?
  {
    GatedCallsCount(data, img, user, url);
  }

  /** The number of calls of kind `k` in a plan is the sum over its four steps. */
  lemma PlanCount(data: Inputs, img: string, user: User, url: string, k: Kind)
    ensures Count(PlanFor(data, img, user, url), k)
         == Count(AvatarCalls(img, user, url), k) + (if k == KSetName then 1 else 0)
          + Count(PasswordCalls(data, user), k) + Count(EmailCalls(data, user), k)
  {
    var a := AvatarCalls(img, user, url);
    var n := [SetName(data.username)];
    var p := PasswordCalls(data, user);
    var e := EmailCalls(data, user);
    CountAppend(a, n, k);
    CountAppend(a + n, p, k);
    CountAppend(a + n + p, e, k);
    CountOne(SetName(data.username), k);
  }

  /** Counts each kind of call in the avatar, password and email steps. */
  lemma StepCounts(data: Inputs, img: string, user: User, url: string, k: Kind)
    ensures Count(AvatarCalls(img, user, url), k)
         == (if k == KSetPhoto || (k == KUpload && Truthy(img)) then 1 else 0)
    ensures Count(PasswordCalls(data, user), k)
         == (if ChangesPassword(data) && (k == KReauth || k == KSetPassword) then 1 else 0)
    ensures Count(EmailCalls(data, user), k)
         == (if ChangesEmail(data, user) && (k == KReauth || k == KSetEmail) then 1 else 0)
  {
    if Truthy(img) {
      CountTwo(Upload(AvatarKind, user.uid, img), SetPhoto(url), k);
    } else {
      CountOne(SetPhoto(""), k);
    }
    if ChangesPassword(data) {
      CountTwo(Reauth(CredentialId(user), data.oldPass.value), SetPassword(data.newPass.value), k);
    }
    if ChangesEmail(data, user) {
      CountTwo(Reauth(CredentialId(user), data.oldPass.value), SetEmail(data.email), k);
    }
  }

  /** The length of a plan and the number of calls of each kind in it. */
  lemma GatedCallsCount(data: Inputs, img: string, user: User, url: string)
    ensures var plan := PlanFor(data, img, user, url);
            var pw := if ChangesPassword(data) then 1 else 0;
            var em := if ChangesEmail(data, user) then 1 else 0;
            && |plan| == AvatarLength(img) + 1 + 2 * pw + 2 * em
            && Count(plan, KUpload) == (if Truthy(img) then 1 else 0)
            && Count(plan, KSetPhoto) == 1
            && Count(plan, KSetName) == 1
            && Count(plan, KReauth) == pw + em
            && Count(plan, KSetPassword) == pw
            && Count(plan, KSetEmail) == em
  {
    PlanCount(data, img, user, url, KUpload);
    StepCounts(data, img, user, url, KUpload);
    PlanCount(data, img, user, url, KSetPhoto);
    StepCounts(data, img, user, url, KSetPhoto);
    PlanCount(data, img, user, url, KSetName);
    StepCounts(data, img, user, url, KSetName);
    PlanCount(data, img, user, url, KReauth);
    StepCounts(data, img, user, url, KReauth);
    PlanCount(data, img, user, url, KSetPassword);
    StepCounts(data, img, user, url, KSetPassword);
    PlanCount(data, img, user, url, KSetEmail);
    StepCounts(data, img, user, url, KSetEmail);
  }

  /** The password step is planned if and only if the old, new and confirmation passwords are all
      supplied and the new one differs from the old; it re-authenticates with the user's email (or `""`)
      and the old password, then sets the new password. Otherwise it plans nothing. */
  lemma PasswordStepIff(data: Inputs, img: string, user: User, url: string)
    ensures var plan := PlanFor(data, img, user, url);
            var runs := && data.oldPass.Some? && data.oldPass.value != ""
                        && data.newPass.Some? && data.newPass.value != ""
                        && data.newPassConfirm.Some? && data.newPassConfirm.value != ""
                        && data.oldPass.value != data.newPass.value;
            && Count(plan, KSetPassword) == (if runs then 1 else 0)
            && (runs ==>
                  && plan[AvatarLength(img) + 1] == Reauth(CredentialId(user), data.oldPass.value)
                  && plan[AvatarLength(img) + 2] == SetPassword(data.newPass.value))
  {
    GatedCallsCount(data, img, user, url);
  }

  /** The email step is planned if and only if the submitted email differs from the user's email
      and the old password is supplied; it re-authenticates with the user's email (or `""`) and the
      old password, then sets the submitted email, as the last two calls. */
  lemma EmailStepIff(data: Inputs, img: string, user: User, url: string)
    ensures var plan := PlanFor(data, img, user, url);
            var runs := (user.email.None? || user.email.value != data.email)
                        && data.oldPass.Some? && data.oldPass.value != "";
            && Count(plan, KSetEmail) == (if runs then 1 else 0)
            && (runs ==>
                  && |plan| >= 2
                  && plan[|plan| - 2] == Reauth(CredentialId(user), data.oldPass.value)
                  && plan[|plan| - 1] == SetEmail(data.email))
  {
    GatedCallsCount(data, img, user, url);
  }

  /** A changed email without the old password is skipped silently: no re-authentication, no email
      update, and nothing thrown on its account. */
  lemma EmailChangeWithoutPasswordSkipped(data: Inputs, img: string, user: User, o: Oracle)
    requires Some(data.email) != user.email
    requires !TruthyOpt(data.oldPass)
    ensures var r := OnSubmit(data, img, Some(user), o);
            && Count(r.trace, KReauth) == 0
            && Count(r.trace, KSetEmail) == 0
            && (o.failure.None? ==> r.outcome == Success)
  {
    var plan := PlanFor(data, img, user, o.uploadedUrl);
    GatedCallsCount(data, img, user, o.uploadedUrl);
    TraceFollowsPlan(data, img, user, o);
    OutcomeReflectsRun(data, img, user, o);
    var r := OnSubmit(data, img, Some(user), o);
    assert plan == r.trace + plan[|r.trace|..];
    CountAppend(r.trace, plan[|r.trace|..], KReauth);
    CountAppend(r.trace, plan[|r.trace|..], KSetEmail);
  }

  /** Re-authentication is not shared: one per gated step that runs, so two when both run. */
  lemma ReauthNotShared(data: Inputs, img: string, user: User, url: string)
    ensures Count(PlanFor(data, img, user, url), KReauth) ==
              (if ChangesPassword(data) then 1 else 0) + (if ChangesEmail(data, user) then 1 else 0)
    ensures ChangesPassword(data) && ChangesEmail(data, user) ==>
              Count(PlanFor(data, img, user, url), KReauth) == 2
  {
    GatedCallsCount(data, img, user, url);
  }

  /** Every password or email update issued is immediately preceded by a re-authentication with the
      user's email (or `""`) and the old password. */
  lemma GatedCallsFollowReauth(data: Inputs, img: string, user: User, o: Oracle)
    ensures var r := OnSubmit(data, img, Some(user), o);
            forall i :: 0 <= i < |r.trace| && (r.trace[i].SetPassword? || r.trace[i].SetEmail?) ==>
              && 0 < i
              && r.trace[i - 1].Reauth?
              && r.trace[i - 1].identifier == CredentialId(user)
              && Some(r.trace[i - 1].secret) == data.oldPass
  {
    var r := OnSubmit(data, img, Some(user), o);
    var plan := PlanFor(data, img, user, o.uploadedUrl);
    TraceFollowsPlan(data, img, user, o);
    GatedCallsCount(data, img, user, o.uploadedUrl);
    var a := AvatarCalls(img, user, o.uploadedUrl);
    var n := [SetName(data.username)];
    var p := PasswordCalls(data, user);
    var e := EmailCalls(data, user);
    forall i | 0 <= i < |r.trace| && (r.trace[i].SetPassword? || r.trace[i].SetEmail?)
      ensures 0 < i && r.trace[i - 1].Reauth?
      ensures r.trace[i - 1].identifier == CredentialId(user)
      ensures Some(r.trace[i - 1].secret) == data.oldPass
    {
      var k := |a| + |n|;
      assert plan == (a + n) + p + e;
      assert forall j :: 0 <= j < k ==> plan[j] == (a + n)[j];
      assert forall j :: 0 <= j < k ==> plan[j].Upload? || plan[j].SetPhoto? || plan[j].SetName?;
      assert r.trace[i] == plan[i];
      assert k <= i;
      if i < k + |p| {
        assert plan[i] == p[i - k] && plan[i - 1] == p[i - 1 - k];
      } else {
        assert plan[i] == e[i - k - |p|] && plan[i - 1] == e[i - 1 - k - |p|];
      }
      assert r.trace[i - 1] == plan[i - 1];
    }
  }

  /** A submission that holds no image, keeps the email and leaves the password fields empty issues exactly
      two calls, clearing the photo URL and setting the name, and succeeds when neither throws. */
  lemma NameOnlySubmission(data: Inputs, user: User, o: Oracle)
    requires !TruthyOpt(data.oldPass) && !TruthyOpt(data.newPass) && !TruthyOpt(data.newPassConfirm)
    requires user.email == Some(data.email)
    requires o.failure.None?
    ensures OnSubmit(data, "", Some(user), o) == Run([SetPhoto(""), SetName(data.username)], Success)
  {
    TraceFollowsPlan(data, "", user, o);
    OutcomeReflectsRun(data, "", user, o);
  }
}
