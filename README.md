# Billeterie2 code issuing and redemption, in Dafny

This project models the core of Billeterie2, a Django application in which owners
issue batches of cryptographically derived ticket codes, and verifiers attached to an
owner redeem them. The model covers the following:

- **Codes and batches** (`CodeModels`): the status domains of `CodeBatch` and `Code`,
  and the defaults of a new `Code`.
  - `generate_crypto_fields` encrypts the message, signs the ciphertext, and takes
    the SHA-256 hex digest of the signature as `secure_index`.
  - The compact JSON payload of `get_payload` reads back as exactly its two fields.
  - The code table, keyed by the unique `secure_index`, lives in `CodeStore`, whose
    methods stand for the ORM writes: create, save, insert and status update.
- **Issuance** (`Issuance`): `batch_create` validates the request, then runs its
  transaction.
  - Inside it, the batch row is inserted and one code per pass is derived and
    inserted. At the end the batch is marked `termine`.
  - Any failure rolls both tables back. The batch instance, if it was created, is
    then saved again as `erreur`.
  - A negative `validity_days` is refused by the column's check constraint inside
    `objects.create`, so `batch` is never bound and nothing is written.
  - An out-of-range expiration (`timedelta` or `datetime` overflow) is raised after
    the insert, so it leaves an `erreur` batch.
- **Redemption** (`Redemption`): `verify_code` strips the index and looks it up among
  the codes of the caller's owner. Expiry wins over everything else; an `utilise`
  code is refused; any other code becomes `utilise`.
  - Django's `batch__created_by=None` is an IS NULL test, so a caller without an owner
    matches the codes of batches whose creator is gone. The lookup models that
    (`Redemption.InScope` on `Option<UserId>`).
  - With a clock that does not run backwards, one index yields at most one success.
  - The used check compares with `utilise` only. So when the clock runs backwards, a
    code that an earlier call marked `expire` is activated again
    (`Redemption.ClockRollbackReactivates` exhibits it). This is a consequence of
    trusting the clock, not a coding slip, so it is not listed as a finding.
- **Statistics** (`Statistics`): the per-status counts of `batch_detail` and the
  dashboard totals, and how one redemption moves them.
- **Accounts** (`AccountModels`, `AccountDecorators`, `AccountViews`,
  `AccountMiddleware`, `AccountForms`):
  - the role column and the role predicates;
  - the three access decorators;
  - the role-based landing redirect;
  - an owner's verifier list and verifier deletion;
  - the middleware's redirect decision, which looks at the user only and never at the
    requested path;
  - the password confirmation;
  - the forced role and owner of the two forms.

Dafny models these things as follows:

- **Time** is whole seconds (`Instant = int`). `timedelta(days=d)` adds `d * 86400`.
- **RSA, SHA-256 and the randomness of `uuid4()`** are parameters.
  - `Crypto` gathers the primitives as functions; its ciphertexts and signatures are
    base64 text and its digests are 64 lower-case hex digits.
  - `unique` gives the random and time part of each pass's message.
  - `qrFails` says which pass raises after its insert: in QR rendering, in image
    storage, or in any other call of the pass (the RSA service included).
- **The clock** is the `now` argument.

## Model

| member | source | states |
|---|---|---|
| CodeModels.ParseBatchStatus | qrgenerator/models.py:16-24 | a batch status value is accepted exactly when it is `en_cours`, `termine` or `erreur`, and is read as the status it names |
| CodeModels.ParseCodeStatus | qrgenerator/models.py:44-52 | a code status value is accepted exactly when it is `non_utilise`, `utilise` or `expire`, and is read as the status it names |
| CodeModels.StatusChoicesRoundTrip | qrgenerator/models.py:16-24 | every batch and code status of the model is one of the declared choices and reads back as itself |
| CodeModels.Derive | qrgenerator/models.py:64-68 | the ciphertext is the encryption of the message, the signature is over the ciphertext (not the message), and the index is the 64-character digest of the signature |
| CodeModels.DerivedTokenChecks | qrgenerator/models.py:64-68 | with a sound RSA service, the derived ciphertext decrypts to the message and the signature verifies against the ciphertext, as the crypto test expects |
| CodeModels.IndexDeterminedBySignature | qrgenerator/models.py:68 | equal signatures give equal `secure_index` |
| CodeModels.Base64Span | qrgenerator/models.py:70-78 | the longest base64 prefix of a text: all of it is base64, and the next character, if any, is not |
| CodeModels.DropPrefix | qrgenerator/models.py:70-78 | the rest of a text after a given prefix, present exactly when the text starts with it |
| CodeModels.DropPrefixOfConcat | qrgenerator/models.py:70-78 | helper (a general sequence fact used by the payload parsing proofs): removing a prefix from prefix + text gives back the text |
| CodeModels.ParsePayload | qrgenerator/models.py:70-78 | a payload that parses is exactly `{"cipher":"<c>","sig":"<s>"}` with base64 `c` and `s` |
| CodeModels.Base64SpanStopsAtQuote | qrgenerator/models.py:72-77 | a base64 value followed by a quote spans exactly the value |
| CodeModels.SplitAtQuote | qrgenerator/models.py:72-77 | a base64 value and what follows its closing quote are recovered by the span |
| CodeModels.Payload | qrgenerator/models.py:70-78 | the compact JSON of two base64 fields parses back to exactly those two fields under `cipher` and `sig` |
| CodeModels.Code.constructor | qrgenerator/models.py:36-54 | a new code belongs to its batch, keeps its due date, starts `non_utilise` and has no index yet |
| CodeModels.Code.GenerateCryptoFields | qrgenerator/models.py:64-68 | the code's ciphertext, signature and index are the derivation of the message; batch, status and due date are untouched |
| CodeModels.Code.GetPayload | qrgenerator/models.py:70-78 | the payload parses back to the code's own ciphertext and signature |
| CodeModels.CodesOfBatch | qrgenerator/models.py:37 | the keys of the codes that belong to a batch, and no others |
| CodeModels.CodeStore.constructor | qrgenerator/models.py:8-54 | both tables start empty |
| CodeModels.CodeStore.CreateBatch | qrgenerator/views.py:50-56 | the insert fails exactly for a negative validity, writing nothing; otherwise the batch is stored under a fresh key and no code changes |
| CodeModels.CodeStore.RollBack | qrgenerator/views.py:47-48 | both tables return to the rows held when the transaction began; the key counters keep their values |
| CodeModels.CodeStore.SaveBatch | qrgenerator/views.py:80-81 | the batch row under the key becomes the given row; nothing else changes |
| CodeModels.CodeStore.InsertCode | qrgenerator/models.py:40-42 | the insert fails exactly when the code has no index, its index is already stored, or its batch is missing; otherwise the row is stored under its index with the instance's fields and status and the given creation time |
| CodeModels.CodeStore.SetStatus | qrgenerator/views.py:244-245 | only the status of the one code changes |
| Redemption.SpaceRunFrom | qrgenerator/views.py:197 | the run of whitespace starting at a position, followed by a non-whitespace character or the end |
| Redemption.SpaceRunTo | qrgenerator/views.py:197 | the run of whitespace ending at a position, preceded by a non-whitespace character or the lower bound |
| Redemption.Strip | qrgenerator/views.py:197 | `strip()` is empty exactly for all-whitespace input, is a slice of the input with only whitespace outside it, leaves no whitespace at either end, and returns text without surrounding whitespace unchanged |
| Redemption.StripIdempotent | qrgenerator/views.py:197 | stripping twice is stripping once |
| Redemption.Step | qrgenerator/views.py:240-279 | past its date a code becomes `expire` and the call fails; otherwise an `utilise` code is refused unchanged and any other code becomes `utilise` with success; only the status changes |
| Redemption.Verify | qrgenerator/views.py:228-284 | the table keeps its keys, only the row under the stripped index can change, only in its status, and never back to `non_utilise` |
| Redemption.VerifyCode | qrgenerator/views.py:194-289 | the store's code table and the answer are those of `Verify`, and nothing else in the store changes |
| Redemption.BlankIndexChangesNothing | qrgenerator/views.py:197-231 | an index that is empty after strip fails with a missing-index answer and changes no record |
| Redemption.OutOfScopeChangesNothing | qrgenerator/views.py:236-284 | an index that matches no code of the caller's owner changes no record and is answered not-found (or missing) |
| Redemption.ExpiryDominates | qrgenerator/views.py:243-253 | at an instant past the due date the code becomes `expire` whatever its status and the call fails; the due instant itself is not expired |
| Redemption.UsedCodeUnchanged | qrgenerator/views.py:256-264 | a non-expired `utilise` code is answered already-used and not mutated |
| Redemption.SuccessExactlyWhenRedeemable | qrgenerator/views.py:228-279 | a call succeeds if and only if the stripped index finds a code of the caller's owner that is not past its date and not `utilise`, and then that code alone becomes `utilise` |
| Redemption.RunVerify | qrgenerator/views.py:194-289 | one answer per call of a sequence of calls, by any callers, each on the table the previous call left |
| Redemption.SuccessSpends | qrgenerator/views.py:256-279 | a successful call leaves the activated code `utilise`, hence spent |
| Redemption.SpentStays | qrgenerator/views.py:243-264 | a call on a used code, or on an expired code already past its date, fails and leaves it spent |
| Redemption.RunVerifyCons | qrgenerator/views.py:194-289 | the successes of a run are those of its first call plus those of the rest |
| Redemption.NoSuccessOnceSpent | qrgenerator/views.py:243-279 | once the code is used, or expired with a due date already passed, no later call on its index succeeds, whoever makes it, while the clock does not go back |
| Redemption.AtMostOneSuccess | qrgenerator/views.py:243-279 | with a clock that does not run backwards, calls that all submit the same index, from any callers, succeed at most once |
| Redemption.OwnerCallerLeavesOwnCodes | qrgenerator/views.py:236-238 | a caller without an owner, as an owner account is, never changes a code of their own batches, and any success is on a batch with no creator |
| Redemption.StripKeepsPlainText | qrgenerator/views.py:197 | a text that neither starts nor ends with whitespace is its own strip |
| Redemption.VerifySingleCode | qrgenerator/views.py:236-279 | on a table holding only the code under a given index, of a batch of the caller's owner, a call submitting that index without surrounding whitespace is that code's step |
| Redemption.ClockRollbackReactivates | qrgenerator/views.py:243-279 | a code due at 10 succeeds at 5, is marked `expire` at 20, and succeeds again at 5: two successes on one index when the clock goes back |
| Issuance.ReadBatchForm | qrgenerator/views.py:37-41 | a request passes the checks exactly when it carries a non-empty name and a quantity in 1..10000; an absent validity reads as 30 days |
| Issuance.DecimalString | qrgenerator/views.py:63 | the decimal rendering of the batch key is non-empty and all digits |
| Issuance.DecimalStringInjective | qrgenerator/views.py:63 | different batch keys render differently |
| Issuance.ColonAfterKey | qrgenerator/views.py:63 | the first colon of a message is the one right after the batch key |
| Issuance.MessageInjective | qrgenerator/views.py:63 | two messages are equal only for the same batch key and the same unique part |
| Issuance.IndexAt | qrgenerator/views.py:63-68 | the index of a pass's code is a 64-character hex digest |
| Issuance.Expiration | qrgenerator/views.py:59 | the shared due date is not before the creation instant for a non-negative validity, later for a positive one, and representable exactly when the addition does not overflow |
| Issuance.LoopSucceedsStep | qrgenerator/views.py:61-77 | passes that all complete, followed by one more that completes, all complete |
| Issuance.LoopFailsAt | qrgenerator/views.py:61-77 | one pass that raises makes the whole loop fail |
| Issuance.InsertPass | qrgenerator/views.py:65-69 | one pass's code is the derivation of its message, stored unused with the shared due date; the insert fails exactly when the derived index is already stored |
| Issuance.ProgressFresh | qrgenerator/models.py:40-42 | a pass's index is new to the table exactly when it is new to the table the loop started from and differs from every earlier pass's index |
| Issuance.EnumeratesStep | qrgenerator/views.py:61 | the indexes of the passes so far, with the next, distinct one, are one more |
| Issuance.KeysAddedStep | qrgenerator/views.py:69 | storing one more pass's code under its new index keeps the table the start table plus the passes' indexes |
| Issuance.ExtendsInsert | qrgenerator/views.py:69 | helper (a general map fact used by `Issuance.KeysAddedStep`): inserting a new key keeps every earlier row and extends the added key set by that key |
| Issuance.CodesIssuedStep | qrgenerator/views.py:65-69 | after one more pass, every pass's code is stored with its derived fields, unused and with the shared due date |
| Issuance.ProgressStep | qrgenerator/views.py:61-77 | one more completed pass extends what the loop has done by that pass |
| Issuance.ProgressDone | qrgenerator/views.py:61-77 | when the loop started from no code of the batch, the batch's codes are exactly those the passes added |
| Issuance.IssuePass | qrgenerator/views.py:62-76 | one pass, QR step included, completes exactly when its index is new to the table and to the earlier passes and its QR step does not raise; then the progress grows by this pass's code |
| Issuance.IssueCodes | qrgenerator/views.py:59-77 | the loop completes exactly when no pass raises and no derived index repeats or exists; then every earlier code is kept and the batch has exactly `quantity` new codes, one per pass, unused and sharing one due date |
| Issuance.BatchCreate | qrgenerator/views.py:34-96 | an empty name or a quantity outside 1..10000 writes nothing; a negative validity writes nothing; otherwise it succeeds exactly when the expiration is representable and the loop completes, giving a `termine` batch with exactly `quantity` new codes; every other failure leaves the code table as it was and the batch saved as `erreur` |
| Issuance.CompleteBatch | qrgenerator/views.py:58-92 | after the batch insert: it succeeds exactly when the expiration is representable and the loop completes, leaving a `termine` batch and exactly `quantity` new codes; otherwise the code table is rolled back and the batch is saved as `erreur` |
| Statistics.WithStatus | qrgenerator/views.py:120-125 | the codes of a set with a given status, and no others |
| Statistics.StatusPartition | qrgenerator/views.py:120-125 | the sizes of the three status classes of a set add up to its size |
| Statistics.BatchDetailStats | qrgenerator/views.py:120-125 | the batch's total is its number of codes, each status count is the number of its codes with that status, and the three counts add up to the total |
| Statistics.BatchDetail | qrgenerator/views.py:100-133 | a batch that is missing or of another creator is a 404; otherwise the page lists exactly the batch's codes with the requested status (all when none is requested, none for an undeclared status) beside the batch's statistics |
| Statistics.OwnedCodes | qrgenerator/views.py:303 | the codes of the batches created by the owner, and no others |
| Statistics.ActiveCodes | qrgenerator/views.py:304-308 | the codes that are `non_utilise` and due strictly after now, and no others |
| Statistics.Dashboard | qrgenerator/views.py:296-312 | the owner's batch and code counts; active codes are exactly the unused codes due after now; used codes are the `utilise` ones; active and used together never exceed the total |
| Statistics.SubsetSize | qrgenerator/views.py:301-312 | helper (a general set fact used by `Statistics.Dashboard`): a subset is no larger than its superset |
| Statistics.CardExceptOne | qrgenerator/views.py:301-312 | helper (a general set fact used by `Statistics.StatusChangeCounts`): two sets that agree except at one element differ in size by that element's membership |
| Statistics.StatusChangeCounts | qrgenerator/views.py:301-312 | setting one code's status leaves the owner's totals alone, changes nothing for a code of another owner, and moves the used and active counts by that code's membership before and after |
| Statistics.VerifyMovesDashboard | qrgenerator/views.py:301-312 | an activation adds one used code and removes the code from the active ones if it was active; an expiry removes it from the used and active counts it was in; every other answer leaves the dashboard as it was |
| AccountModels.NewUser | accounts/models.py:11 | a new user's role defaults to OWNER, so it is an owner, not a verifier and not an administrator |
| AccountModels.RolePredicates | accounts/models.py:21-28 | owner and verifier exclude each other; a superuser owner is both owner and administrator; a declared role makes one of the predicates hold |
| AccountModels.UserTable.constructor | accounts/models.py:5-19 | the user table starts empty |
| AccountModels.UserTable.Insert | accounts/forms.py:55-56 | saving an unsaved user inserts it under a fresh key |
| AccountModels.UserTable.Update | accounts/forms.py:16 | saving a stored user replaces its row |
| AccountDecorators.AdminRequired | accounts/decorators.py:5-16 | the view runs, with the request unchanged, exactly for an authenticated administrator; everything else is denied |
| AccountDecorators.OwnerRequired | accounts/decorators.py:19-30 | the view runs, with the request unchanged, exactly for an authenticated owner or administrator; everything else is denied |
| AccountDecorators.VerifierAllowed | accounts/decorators.py:33-50 | as written, every authenticated request reaches the view unchanged, an anonymous one is denied, and no request is redirected |
| AccountDecorators.VerifierAllowedCorrected | accounts/decorators.py:38-48 | with `is_owner()` called, verifiers and owners reach the view, remaining administrators are redirected to the dashboard, and the rest is denied |
| AccountDecorators.VerifierAllowedVerifiersOnly | accounts/decorators.py:33-48 | with the guard `is_verifier()` the docstring describes, only verifiers reach the view, owners and administrators are redirected to the dashboard, and the rest is denied |
| AccountDecorators.DecoratorsNest | accounts/decorators.py:5-50 | what `admin_required` admits, `owner_required` admits; what that admits, `verifier_allowed` admits as written, and both corrected guards admit or redirect, never deny |
| AccountDecorators.VerifierAllowedAdmitsNonVerifiers | accounts/decorators.py:40 | an administrator, an owner and a user off the declared roles all reach the view as written; both corrections redirect the administrator and deny the stranger; only the verifier-only guard redirects the owner |
| AccountViews.RoleBasedRedirect | accounts/views.py:12-21 | a verifier goes to verification, before anything else; otherwise an owner or administrator to the dashboard; anyone else home |
| AccountViews.RoleRedirectFallback | accounts/views.py:19-21 | the home fallback is taken exactly for a user off the declared roles who is no superuser |
| AccountViews.VerifiersOf | accounts/views.py:24-29 | `verifier_list` shows exactly the users whose owner is the caller and whose role is VERIFIER |
| AccountViews.VerifierDelete | accounts/views.py:60-87 | a caller whose role is not OWNER is refused and nothing is deleted; otherwise exactly a verifier of the caller is deleted, and any other key is a 404 with nothing deleted |
| AccountViews.DeleteShrinksVerifierList | accounts/views.py:73-81 | deleting one verifier removes exactly that key from its owner's list and leaves other owners' lists as they were |
| AccountViews.DispatchByKeyword | accounts/urls_verifiers.py:9 | a matched route calls the view exactly when the view has a parameter of the captured keyword's name, and then with the captured value; otherwise TypeError |
| AccountViews.DeleteRouteNeverRuns | accounts/urls_verifiers.py:9 | the delete route as written, capturing `pk` for a view taking `verifier_id`, raises TypeError for every key |
| AccountViews.DeleteRouteCorrected | accounts/urls_verifiers.py:9 | a route capturing `verifier_id` runs the view on the captured key |
| AccountMiddleware.RoleRedirectMiddleware.constructor | accounts/middleware.py:6-7 | the middleware keeps the next handler |
| AccountMiddleware.RoleRedirectMiddleware.Call | accounts/middleware.py:9-11 | the downstream response is returned unchanged |
| AccountMiddleware.RoleRedirectMiddleware.ProcessView | accounts/middleware.py:13-21 | anonymous requests get no redirect; a verifier goes to verification first, then an owner to the dashboard, then an administrator to the admin site, and anyone else gets none |
| AccountMiddleware.RoleRedirectMiddleware.RedirectsItsOwnTarget | accounts/middleware.py:13-21 | whatever the path, a verifier, owner or administrator is redirected, and a request for the redirect target is redirected to that same target again |
| AccountMiddleware.RoleRedirectMiddleware.ProcessViewAtRoot | accounts/middleware.py:14-21 | the redirect of `process_view` limited to requests for the root, as its comment describes; every other path goes on to its view |
| AccountMiddleware.RoleRedirectMiddleware.RootRedirectSettles | accounts/middleware.py:14-21 | with the redirect limited to the root, following it to a target other than the root reaches that view without a further redirect |
| AccountMiddleware.RoleRedirectMiddleware.AgreesWithRoleBasedRedirect | accounts/middleware.py:13-21 | the middleware agrees with `role_based_redirect` for verifiers and owners, differs only for other administrators (admin site against dashboard), and gives no redirect exactly when the view goes home |
| AccountForms.CleanPassword2 | accounts/forms.py:43-48 | a mismatch is raised if and only if both passwords are given, non-empty and different; otherwise the second password is returned |
| AccountForms.CleanPassword2Accepts | accounts/forms.py:43-48 | the confirmation is accepted exactly when the two agree or one is missing or empty |
| AccountForms.SaveVerifierForm | accounts/forms.py:50-57 | the user gets role VERIFIER, the form's owner and `password1`; with commit it is inserted under a fresh key, without commit nothing is stored |
| AccountForms.SaveSignupForm | accounts/forms.py:11-17 | the signed-up account is stored under a fresh key with its role forced to OWNER |

## Left out

- QR image decoding in `verify_code` (qrgenerator/views.py:199-226): it calls an external image library. The model starts from the submitted text index.
- The RSA service in qrgenerator/security.py is not part of this model. Its primitives are parameters, and `CodeModels.Sound` (decrypt undoes encrypt, a good signature verifies) is assumed as a precondition, not proved.
- QR rendering (qrgenerator/qrcode_service.py) and image storage are modelled only by whether a pass raises (`qrFails`). The image file written to storage is not rolled back by the transaction, and the model does not track files.
- `select_for_update` and concurrency: each `verify_code` call is one atomic step on the store.
- HTTP details are left out: messages, redirects as responses, templates, pagination and ordering of the detail page, and export and download views.
- `int()` failures on the quantity or validity fields (a non-numeric text) are left out. So are the generic "internal error" exception paths of `verify_code` and of `batch_create` other than the modelled failures.
- Issuance.BatchCreate: the message of a failed validation says 1000 where the check is 10000; the model keeps the check and not the text.
- `used_at` in `verify_code` (qrgenerator/views.py:268) is set on the instance but is not a model field, so nothing is stored; the model stores nothing either.
- Password hashing: `set_password` is modelled by storing the given password.
- User deletion cascades and the `SET_NULL` of a deleted batch creator are not modelled.
- Database integer widths and identifier exhaustion: keys are unbounded naturals.
- JSON escaping: the payload fields are base64 text, which needs no escaping, so the model does not define escaping.
- accounts/admin.py, qrgenerator/decorators.py and the URL configuration are not part of this model, except the keyword dispatch of the verifier delete route (`AccountViews.DispatchByKeyword`).
- RSA-OAEP encryption and RSA-PSS signing (qrgenerator/security.py:21-28, 48-55) are randomized; `Crypto.encrypt` and `Crypto.sign` are functions of their input. So in the model two passes with equal messages derive the same index, where the service would almost surely give different ones. `Issuance.LoopSucceeds` states freshness on the derived indexes, whatever produced them.
- Exceptions raised by the RSA service inside a pass (key loading at qrgenerator/security.py:10-16, an input too long for OAEP) are folded into `qrFails(i)`: like a QR failure they roll the transaction back and leave an `erreur` batch. A failure in a pass before its insert and one after it leave the same final state, so the model places all of them after the insert.
- The model defaults of `CodeBatch` (`validity_days` 30, status `en_cours`, qrgenerator/models.py:11 and 23) are not modelled: the issuing view always passes both. The view's own fallback of 30 days for an absent field is modelled by `Issuance.ReadBatchForm`, whose values are the arguments of `Issuance.BatchCreate`.
- The clock is the `now` argument. `timezone.now()` inside each pass (part of the message) is folded into `unique`.
- The request clock is frozen at `now`. The source reads the clock separately for the batch's `created_at` (`auto_now_add`, qrgenerator/models.py:15, at the insert of qrgenerator/views.py:50-56), for the expiration base (qrgenerator/views.py:59), and for each code's `created_at` (`auto_now_add`, qrgenerator/models.py:53, at that pass's insert, after its RSA work). In the model the batch row, the due date and every code's `createdAt` all use `now`, so the interval a large batch spans is not represented. The due date is the one instant the source does share across the batch's codes.

## Findings

| source | as written | input that shows it | evidently intended | confidence | as-written member | corrected member |
|---|---|---|---|---|---|---|
| accounts/decorators.py:40 | `is_owner` is not called, so the guard is true for every authenticated user and the redirect to the dashboard is never taken | an authenticated administrator whose role is `admin` and who is neither verifier nor owner | only verifiers reach the view and owners and administrators are redirected to the dashboard, as the docstring at line 34 says; this also makes the `is_owner()` test at line 44 reachable, and an owner could not use `verify_code` anyway, since it looks codes up under `request.user.owner` (qrgenerator/views.py:237), which an owner does not have. The other reading, calling `is_owner()` at line 40, admits owners too and makes the test at line 44 dead; both are modelled | not executed | AccountDecorators.VerifierAllowed, AccountDecorators.VerifierAllowedAdmitsNonVerifiers | AccountDecorators.VerifierAllowedVerifiersOnly, AccountDecorators.VerifierAllowedCorrected |
| accounts/urls_verifiers.py:9 | the route captures `<int:pk>` and Django passes it as `pk=`, but `verifier_delete` (accounts/views.py:62) takes `verifier_id`, so every request that passes the decorators raises TypeError before the body runs | any request to `<id>/delete/` by an owner | capture `<int:verifier_id>` (or name the view parameter `pk`) | not executed | AccountViews.DeleteRouteNeverRuns | AccountViews.DeleteRouteCorrected |
| accounts/middleware.py:15-21 | `process_view` redirects every authenticated verifier, owner or administrator whatever the requested path, its redirect targets included, so such a user who follows the redirect is redirected to the same target again without end. The comment at line 14 says the redirect is meant for requests to the root. Whether the middleware is installed is decided in the settings, which are not part of this model | a verifier requesting the verification page | redirect only requests for the root and let every other request through | not executed | AccountMiddleware.RoleRedirectMiddleware.ProcessView, AccountMiddleware.RoleRedirectMiddleware.RedirectsItsOwnTarget | AccountMiddleware.RoleRedirectMiddleware.ProcessViewAtRoot, AccountMiddleware.RoleRedirectMiddleware.RootRedirectSettles |
