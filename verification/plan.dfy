/**
  A closed-form reference for the submit handler: the full list of calls a
  submission plans, and the run as the prefix of that list up to and including
  the first call that throws. `OnSubmitMatchesReference` proves the
  incremental handler in `Settings` equal to it on every input.
*/
module Plan {
  import opened Wrappers
  import opened Js
  import opened Settings

  /** The kind of a call, ignoring its arguments. */
  datatype Kind = KUpload | KSetPhoto | KSetName | KReauth | KSetPassword | KSetEmail

  function KindOf(c: Call): Kind {
    match c
    case Upload(_, _, _) => KUpload
    case SetPhoto(_) => KSetPhoto
    case SetName(_) => KSetName
    case Reauth(_, _) => KReauth
    case SetPassword(_) => KSetPassword
    case SetEmail(_) => KSetEmail
  }

  /** The number of calls of kind `k` in `s`. */
  function Count(s: seq<Call>, k: Kind): (n: nat)
    ensures n <= |s|
  {
    if s == [] then 0 else (if KindOf(s[0]) == k then 1 else 0) + Count(s[1..], k)
  }

  lemma {:induction false} CountAppend(a: seq<Call>, b: seq<Call>, k: Kind)
    ensures Count(a + b, k) == Count(a, k) + Count(b, k)
    decreases |a|
  {
    if a == [] {
      assert a + b == b;
    } else {
      assert (a + b)[0] == a[0];
      assert (a + b)[1..] == a[1..] + b;
      CountAppend(a[1..], b, k);
    }
  }

  lemma CountOne(c: Call, k: Kind)
    ensures Count([c], k) == if KindOf(c) == k then 1 else 0
  {
    assert [c][1..] == [];
  }

  lemma CountTwo(c: Call, d: Call, k: Kind)
    ensures Count([c, d], k) == (if KindOf(c) == k then 1 else 0) + (if KindOf(d) == k then 1 else 0)
  {
    assert [c, d][1..] == [d];
    CountOne(d, k);
  }

  /** The avatar calls: an upload and the photo URL it answers with, or clearing the photo URL. */
  function AvatarCalls(img: string, user: User, url: string): seq<Call> {
    if Truthy(img) then [Upload(AvatarKind, user.uid, img), SetPhoto(url)] else [SetPhoto("")]
  }

  /** The password calls, present only when the password gate holds. */
  function PasswordCalls(data: Inputs, user: User): seq<Call> {
    if ChangesPassword(data) then
      [Reauth(CredentialId(user), data.oldPass.value), SetPassword(data.newPass.value)]
    else []
  }

  /** The email calls, present only when the email gate holds. */
  function EmailCalls(data: Inputs, user: User): seq<Call> {
    if ChangesEmail(data, user) then
      [Reauth(CredentialId(user), data.oldPass.value), SetEmail(data.email)]
    else []
  }

  /** Every call a submission by `user` makes when nothing throws, in order. */
  function PlanFor(data: Inputs, img: string, user: User, url: string): seq<Call> {
    AvatarCalls(img, user, url) + [SetName(data.username)] + PasswordCalls(data, user) + EmailCalls(data, user)
  }

  /** Some call among the first `n` throws. */
  predicate FailsWithin(o: Oracle, n: nat) {
    o.failure.Some? && o.failure.value.at < n
  }

  /** Running a plan: everything up to and including the first throwing call, then that call's notice. */
  function Execute(plan: seq<Call>, o: Oracle): (r: Run)
    ensures r.trace <= plan
    ensures r.outcome.Success? <==> !FailsWithin(o, |plan|)
    ensures FailsWithin(o, |plan|) ==> |r.trace| == o.failure.value.at + 1
    ensures !FailsWithin(o, |plan|) ==> r.trace == plan
    ensures FailsWithin(o, |plan|) ==> r.outcome == Notice(o.failure.value.thrown)
  {
    if FailsWithin(o, |plan|) then
      Run(plan[..o.failure.value.at + 1], Notice(o.failure.value.thrown))
    else
      Run(plan, Success)
  }

  /** The reference run of a submission. */
  function Reference(data: Inputs, img: string, currentUser: Option<User>, o: Oracle): Run {
    match currentUser
    case None => Run([], Silent)
    case Some(user) => Execute(PlanFor(data, img, user, o.uploadedUrl), o)
  }

  /** Awaiting the calls of `cs` one after the other. */
  function IssueAll(st: State, cs: seq<Call>, o: Oracle): State
    decreases |cs|
  {
    if cs == [] then st else IssueAll(Issue(st, cs[0], o), cs[1..], o)
  }

  /** Once aborted, the handler issues nothing more. */
  lemma {:induction false} IssueAllAborted(t: seq<Call>, thrown: Thrown, cs: seq<Call>, o: Oracle)
    ensures IssueAll(Aborted(t, thrown), cs, o) == Aborted(t, thrown)
    decreases |cs|
  {
    if cs != [] {
      IssueAllAborted(t, thrown, cs[1..], o);
    }
  }

  /** A running handler awaiting `cs` issues them up to and including the first throwing one. */
  lemma {:induction false} IssueAllRunning(t: seq<Call>, cs: seq<Call>, o: Oracle)
    ensures var at := if o.failure.Some? then o.failure.value.at else 0;
            IssueAll(Running(t), cs, o) ==
              if o.failure.Some? && |t| <= at < |t| + |cs|
              then Aborted(t + cs[..at - |t| + 1], o.failure.value.thrown)
              else Running(t + cs)
    decreases |cs|
  {
    if cs == [] {
      assert t + cs == t;
    } else if FailsAt(o, |t|) {
      IssueAllAborted(t + [cs[0]], o.failure.value.thrown, cs[1..], o);
      assert cs[..1] == [cs[0]];
    } else {
      IssueAllRunning(t + [cs[0]], cs[1..], o);
      assert t + [cs[0]] + cs[1..] == t + cs;
      if o.failure.Some? {
        var at := o.failure.value.at;
        if |t| <= at < |t| + |cs| {
          assert t + [cs[0]] + cs[1..][..at - |t|] == t + cs[..at - |t| + 1];
        }
      }
    }
  }

  /** Awaiting `a` then `b` is awaiting `a + b`. */
  lemma {:induction false} IssueAllAppend(st: State, a: seq<Call>, b: seq<Call>, o: Oracle)
    ensures IssueAll(st, a + b, o) == IssueAll(IssueAll(st, a, o), b, o)
    decreases |a|
  {
    if a == [] {
      assert a + b == b;
    } else {
      assert (a + b)[0] == a[0];
      assert (a + b)[1..] == a[1..] + b;
      IssueAllAppend(Issue(st, a[0], o), a[1..], b, o);
    }
  }

  lemma IssueOne(st: State, c: Call, o: Oracle)
    ensures IssueAll(st, [c], o) == Issue(st, c, o)
  {
    assert [c][1..] == [];
  }

  lemma IssueTwo(st: State, c: Call, d: Call, o: Oracle)
    ensures IssueAll(st, [c, d], o) == Issue(Issue(st, c, o), d, o)
  {
    assert [c, d][1..] == [d];
    IssueOne(Issue(st, c, o), d, o);
  }

  /** The four steps of the handler await exactly the planned calls. */
  lemma StepsIssuePlan(data: Inputs, img: string, user: User, o: Oracle)
    ensures UpdateEmail(UpdatePassword(UpdateName(UpdateAvatar(Running([]), img, user, o), data, o), data, user, o), data, user, o)
         == IssueAll(Running([]), PlanFor(data, img, user, o.uploadedUrl), o)
  {
    var a := AvatarCalls(img, user, o.uploadedUrl);
    var n := [SetName(data.username)];
    var p := PasswordCalls(data, user);
    var e := EmailCalls(data, user);
    var s0: State := Running([]);
    var s1 := UpdateAvatar(s0, img, user, o);
    var s2 := UpdateName(s1, data, o);
    var s3 := UpdatePassword(s2, data, user, o);
    var s4 := UpdateEmail(s3, data, user, o);
    if Truthy(img) {
      IssueTwo(s0, Upload(AvatarKind, user.uid, img), SetPhoto(o.uploadedUrl), o);
    } else {
      IssueOne(s0, SetPhoto(""), o);
    }
    assert s1 == IssueAll(s0, a, o);
    IssueOne(s1, SetName(data.username), o);
    assert s2 == IssueAll(s1, n, o);
    if ChangesPassword(data) {
      IssueTwo(s2, Reauth(CredentialId(user), data.oldPass.value), SetPassword(data.newPass.value), o);
    }
    assert s3 == IssueAll(s2, p, o);
    if ChangesEmail(data, user) {
      IssueTwo(s3, Reauth(CredentialId(user), data.oldPass.value), SetEmail(data.email), o);
    }
    assert s4 == IssueAll(s3, e, o);
    IssueAllAppend(s0, a, n, o);
    IssueAllAppend(s0, a + n, p, o);
    IssueAllAppend(s0, a + n + p, e, o);
  }

  /** The incremental handler and the closed-form reference agree on every submission. */
  lemma OnSubmitMatchesReference(data: Inputs, img: string, currentUser: Option<User>, o: Oracle)
    ensures OnSubmit(data, img, currentUser, o) == Reference(data, img, currentUser, o)
  {
    if currentUser.Some? {
      var user := currentUser.value;
      var plan := PlanFor(data, img, user, o.uploadedUrl);
      StepsIssuePlan(data, img, user, o);
      IssueAllRunning([], plan, o);
      assert [] + plan == plan;
      if FailsWithin(o, |plan|) {
        assert [] + plan[..o.failure.value.at + 1] == plan[..o.failure.value.at + 1];
      }
    }
  }
}
