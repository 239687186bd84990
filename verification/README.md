# Account settings submit handler — a Dafny model

This project models the submit handler of the account settings page of SPBUploader (`onSubmit`).
One submitted form becomes a fixed sequence of calls against an upload endpoint and the identity provider:

1. The avatar step. When an image is held, it uploads the image and then sets the photo URL to the url the upload returns. Otherwise it clears the photo URL.
2. The display-name update. It is always issued.
3. The password change. It re-authenticates first, and only runs when the password gate holds.
4. The email change. It re-authenticates first, and only runs when the email gate holds.

The first call that throws ends the run, and nothing already done is undone.
A success notice and a page reload follow only when every call succeeded.
A thrown `Error` shows its message, and any other thrown value shows nothing.

Modules:

- `Wrappers`: `Option`, which stands for `undefined`/`null`.
- `Js`: JavaScript truthiness of strings and the `v || ""` fallback. An absent field and `""` both count as "not supplied".
- `Settings`: the handler as an incremental state machine. `Issue` models one `await`. There is one function per block of the source (`UpdateAvatar`, `UpdateName`, `UpdatePassword`, `UpdateEmail`), plus `OnSubmit`, the form validation (`PassesValidation`) and `HandleSubmit`.
- `Plan`: a closed-form reference for the ordering and the abort rule. It reuses the two gates and the credential identifier from `Settings`; those are pinned separately by `Properties.PasswordStepIff` and `Properties.EmailStepIff`. `PlanFor` lists every call a submission makes when nothing throws. `Execute` cuts that list after the first throwing call. `OnSubmitMatchesReference` proves the handler equal to this reference on every input.
- `Properties`: the gating, ordering, re-authentication and outcome properties, stated over the plan and the issued trace.
- `StaleSecret`: the stale-secret defect described below, with the corrected email step.

The environment is a parameter. An `Oracle` gives the url in the upload response and says which call throws, if any, by its position in the run and the value it throws.

## Model

| member | source | states |
|---|---|---|
| Js.OrEmpty | src/pages/user/settings.tsx:95-98 | the fallback from the email to `""` gives the email when it is a non-empty string, and `""` when it is null or empty |
| Settings.CredentialId | src/pages/user/settings.tsx:103-106 | the re-authentication identifier is the user's email when it is a non-empty string, and `""` when it is null or empty |
| Settings.Notice | src/pages/user/settings.tsx:113-117 | a caught value never yields success; an `Error` yields an error notice carrying its message; any other value yields no notice |
| Settings.Issue | src/pages/user/settings.tsx:64-113 | awaiting a call appends it to a running trace; the call at the oracle's failure position aborts the run; an aborted run issues nothing more |
| Settings.Report | src/pages/user/settings.tsx:110-116 | the success notice and reload happen exactly when the handler ran to the end without a throw |
| Settings.OnSubmit | src/pages/user/settings.tsx:63-118 | without a signed-in user, no call is issued and no notice is shown; success implies a signed-in user |
| Settings.HandleSubmit | src/pages/user/settings.tsx:175-242 | the handler runs if and only if the name is filled (`required`, lines 175-177), the email is filled (`required`, lines 190-192) and the confirmation equals the new password (line 241), and then its run is the submission's result; otherwise nothing is issued |
| Plan.Execute | src/pages/user/settings.tsx:64-117 | a run issues a prefix of its plan; with no throw it issues the whole plan and succeeds; on a throw the throwing call is the last one issued and the notice is the caught value's |
| Plan.IssueAllRunning | src/pages/user/settings.tsx:64-113 | awaiting calls in sequence issues them up to and including the first that throws, and nothing after it |
| Plan.StepsIssuePlan | src/pages/user/settings.tsx:66-109 | the avatar, name, password and email blocks, run in turn from a fresh handler, await exactly the planned calls in that order |
| Plan.OnSubmitMatchesReference | src/pages/user/settings.tsx:63-118 | the handler equals the reference on every form, image, user and oracle: the plan avatar, name, password, email, cut after the first throw |
| Properties.TraceFollowsPlan | src/pages/user/settings.tsx:64-113 | the issued calls are a prefix of the fixed order avatar, name, password, email; the failing call ends the trace; earlier calls stay issued |
| Properties.OutcomeReflectsRun | src/pages/user/settings.tsx:110-117 | success exactly when no call threw; a thrown `Error` gives its message; any other thrown value gives no notice |
| Properties.AvatarStepFirst | src/pages/user/settings.tsx:66-85 | exactly one photo-URL update is planned; with an image, an upload comes first and the photo URL is set to the returned url; without one, the URL is set to `""` and there is no upload |
| Properties.NameAfterAvatar | src/pages/user/settings.tsx:86-88 | the name update with the submitted name is planned exactly once, immediately after the avatar calls |
| Properties.GatedCallsCount | src/pages/user/settings.tsx:66-109 | the length of the plan and the number of uploads, photo, name, re-authentication, password and email calls it holds, in terms of the two gates |
| Properties.PasswordStepIff | src/pages/user/settings.tsx:89-101 | a password update is planned if and only if the old, new and confirmation passwords are all non-empty and old differs from new; it comes right after a re-authentication with (email or `""`, old password) |
| Properties.EmailStepIff | src/pages/user/settings.tsx:102-109 | an email update is planned if and only if the submitted email differs from the user's (null differs) and the old password is non-empty; the plan then ends with a re-authentication and the email update |
| Properties.EmailChangeWithoutPasswordSkipped | src/pages/user/settings.tsx:102-109 | a changed email without the old password issues no re-authentication and no email update, and raises nothing |
| Properties.ReauthNotShared | src/pages/user/settings.tsx:95-108 | one re-authentication is planned per gated step that runs, so two when both run |
| Properties.GatedCallsFollowReauth | src/pages/user/settings.tsx:95-108 | every issued password or email update is immediately preceded by a re-authentication with the user's email (or `""`) and the old password |
| Properties.NameOnlySubmission | src/pages/user/settings.tsx:66-88 | with no image, an unchanged email, empty or absent password fields and no failures, the handler issues exactly "clear photo URL" and "set name", and succeeds |
| StaleSecret.StaleSecretAsWritten | src/pages/user/settings.tsx:95-108 | when both gated steps run, the email step's re-authentication presents a password that is no longer in force |
| StaleSecret.StaleSecretExample | src/pages/user/settings.tsx:102-108 | a concrete form on which the handler presents the stale password |
| StaleSecret.FixedPresentsLiveSecrets | src/pages/user/settings.tsx:102-108 | with the corrected email step, every re-authentication presents the password in force, whatever throws |
| StaleSecret.FixedAgreesOtherwise | src/pages/user/settings.tsx:102-109 | the correction changes nothing unless both gated steps run |

## Findings

| source | as written | input that shows it | evidently intended | confidence | as-written member | corrected member |
|---|---|---|---|---|---|---|
| src/pages/user/settings.tsx:103-108 | the email step re-authenticates with `data.oldPass` even after the password step has set `data.newPass` | old password "oldpass1", new and confirmation "newpass2", email changed from "old@example.com" to "new@example.com" | the second re-authentication presents the password now in force (the new one), so changing both in one submission can succeed | medium, not executed; this depends on the identity provider rejecting the replaced password | StaleSecret.StaleSecretAsWritten | StaleSecret.FixedPresentsLiveSecrets |

The rest of the model keeps the handler as written. The corrected handler `StaleSecret.OnSubmitFixed` differs from it only in the email step's secret (`StaleSecret.FixedAgreesOtherwise`).

## Behaviour worth noting

- The avatar step runs on every submission of a signed-in user. When no image is held, it sets the photo URL to `""` (src/pages/user/settings.tsx:81-85).
- When both the password and the email change, two re-authentications are issued, one per step (src/pages/user/settings.tsx:95-99, 103-107).
- A thrown value that is not an `Error` produces no notice at all (src/pages/user/settings.tsx:113-117).
- A submission with no image, an unchanged email and empty password fields issues two calls: clearing the photo URL and setting the name (src/pages/user/settings.tsx:82-88).
- A confirmation that differs from the new password is caught by the form's validator, and the handler is not called (src/pages/user/settings.tsx:240-242).

## Left out

- Settings.OnSubmit: takes the signed-in user once, as a fixed snapshot, whereas the handler re-reads the current user after every await; a sign-out during the run (which would make line 102 throw a `TypeError`) is not modelled.
- Image selection and compression: the file input, the compression library with its 512 px and 10 MB bounds and its web worker, and `FileReader`. These are a foreign library and browser I/O. The held image is an opaque string `img`.
- The HTTP request to `/api/utils/upload` and JSON parsing of its response. These are network I/O. They form one `Upload` call whose url comes from the oracle.
- A response without a `url` field, which would pass `undefined` as the photo URL. The oracle always supplies a string.
- The identity-provider SDK calls (`updateProfile`, `updatePassword`, `updateEmail`, `reauthenticateWithCredential`) and credential construction. These are foreign code. They appear only as trace events whose failure comes from the oracle.
- The session loading, the effect that seeds `img` from the session picture (lines 120-122), and `router.reload`. These are framework state and navigation. `img` is an input, and the reload is part of the `Success` outcome.
- A throw from `toast.success` or `router.reload` themselves. These are UI calls, assumed not to throw.
- `sendConfirmMail` (lines 41-45). It is an empty stub.
- Browser-native checking of the email field's format before submission. This is browser behaviour outside the page's code.
- Page rendering, styling and the SEO head (lines 124-251). These are UI.
- Two submissions in flight at once. Nothing stops a second submit while a run awaits (the form at line 133 starts a new run on every submit, and the button at line 246 is never disabled), so their calls would interleave; the model covers one submission.
- Cancellation and single-flight re-authentication. The code has neither.
