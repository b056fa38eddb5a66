# utexas_no_authenticated_user: the role-deficient account gate

This project models the Drupal event subscriber `DisallowUserWithNoRolesSubscriber`. The subscriber
watches every request. An account is "role-deficient" when it is logged in, is not uid 1, and holds
exactly the single role `authenticated`. When such an account makes a request, the subscriber:

- logs a notice naming the account;
- deletes the account's user record;
- replaces the response with a 302 redirect. With the `samlauth` module enabled, the redirect is a
  trusted one to the Enterprise Authentication logout page. Otherwise it goes to `/user/logout`.

The subscriber has two hooks. `onExceptionRedirect` reacts to 404 and 403 exceptions.
`onRequestRedirect` reacts to main requests. A per-instance `exception` flag, set by the exception
hook, stops the request hook from acting again.

The project has two modules:

- `RoleGate` (`role_gate.dfy`) states the logic on values. It defines the role predicate, one
  transition function per hook over a `State` (the flag, the user records, the log), and
  `RunHooks`, which applies any sequence of hook calls in any order. The lemmas about whole
  sequences are proved by induction. Their main results are:
  - only the current account's record is ever deleted, and at most once;
  - the response is replaced at most once;
  - the flag never clears;
  - sub-requests never trigger the request hook, and non-deficient accounts are never acted on.

  The exception hook checks neither the request type nor the flag. So an exception from a
  sub-request still triggers the clean-up, and a second 404/403 for the same deficient account
  runs it again and ends in the `load()->delete()` error (`RoleGate.RepeatedExceptionAborts`).
- `EventSubscriber` (`event_subscriber.dfy`) is the subscriber as a class. It has the
  `exception` field. Its user storage, logger channel and kernel event are objects that its methods
  modify. Each hook method is proved to leave exactly the state that the matching `RoleGate`
  function gives, so the lemmas above apply to the class.

`load($uid)->delete()` has no null guard. When the record is missing, PHP raises an error.
The model makes this an explicit `aborted` outcome, in which:

- the notice has already been logged;
- nothing is deleted;
- no response is set;
- in the exception hook, the flag is not set, because the error leaves the method before that line.

## Model

| member | source | states |
|---|---|---|
| RoleGate.OnlyAuthenticatedRole | src/EventSubscriber/DisallowUserWithNoRolesSubscriber.php:133-143 | an anonymous account is never deficient, whatever its id or roles; uid 1 is never deficient; a deficient account's role list is exactly `['authenticated']` (so an empty list or extra roles never qualify); and a non-anonymous account with uid other than 1 and exactly that list is deficient |
| RoleGate.LogoutRedirect | src/EventSubscriber/DisallowUserWithNoRolesSubscriber.php:157-163 | the redirect is always a 302; it is trusted exactly when `samlauth` is enabled, and then targets the Enterprise Authentication logout URL, otherwise `/user/logout` |
| RoleGate.LogoutDeleteUser | src/EventSubscriber/DisallowUserWithNoRolesSubscriber.php:151-165 | one notice naming the account is appended to the log; the flag is unchanged; the call fails exactly when the uid has no record; on failure nothing is deleted and no response is set; on success the response is the logout redirect; afterwards the uid has no record, and every other record is present and unchanged, with no record added |
| RoleGate.OnExceptionRedirect | src/EventSubscriber/DisallowUserWithNoRolesSubscriber.php:100-108 | a throwable other than NotFound/AccessDenied changes nothing; when it returns, the flag is set iff it was set before or the throwable is NotFound/AccessDenied, whether or not the account was deficient; anything it does besides the flag requires a matching throwable and a deficient account; with both, it logs, deletes exactly the account's uid and redirects, or fails if the record is missing; a failure sets no response and leaves the flag as it was |
| RoleGate.OnRequestRedirect | src/EventSubscriber/DisallowUserWithNoRolesSubscriber.php:116-125 | a request type other than the main request (1) changes nothing; a set flag makes it change nothing; it never changes the flag; it acts only for a main request, an unset flag and a deficient account, and then logs, deletes exactly the account's uid and redirects, or fails if the record is missing; a failure sets no response |
| RoleGate.Dispatch | src/EventSubscriber/DisallowUserWithNoRolesSubscriber.php:100-125 | either hook removes at most the current account's record; it replaces the response exactly when that record was present and is now gone; a failure deletes nothing; a set flag stays set, and the request hook never changes it; it appends one notice naming the account exactly when it attempted a clean-up, and only for a deficient account |
| RoleGate.RunDeletesOnlyCurrentAccount | src/EventSubscriber/DisallowUserWithNoRolesSubscriber.php:155-156 | over any sequence of hook calls, the final user records are the initial ones, or the initial ones without the current account's uid |
| RoleGate.RunReplacesAtMostOnce | src/EventSubscriber/DisallowUserWithNoRolesSubscriber.php:100-125 | over any sequence of hook calls, the number of replaced responses is 1 if the account's record existed and was deleted and 0 otherwise, so the account is deleted and redirected at most once |
| RoleGate.RunKeepsExceptionFlag | src/EventSubscriber/DisallowUserWithNoRolesSubscriber.php:106 | once set, the `exception` flag stays set through any sequence of hook calls |
| RoleGate.RunLogsOneNoticePerCleanup | src/EventSubscriber/DisallowUserWithNoRolesSubscriber.php:152-154 | over any sequence of hook calls, the earlier log is kept as a prefix; one notice is added per clean-up attempt (successful or failed); every added notice names the current account |
| RoleGate.RunLeavesOtherAccountsAlone | src/EventSubscriber/DisallowUserWithNoRolesSubscriber.php:133-143 | for an account that is not deficient (anonymous, uid 1, no roles or extra roles), no sequence of hook calls deletes, logs, redirects or fails |
| RoleGate.RunSuppressedAfterException | src/EventSubscriber/DisallowUserWithNoRolesSubscriber.php:122 | once the flag is set, any sequence of request-hook calls leaves the state exactly as it was and replaces no response |
| RoleGate.RunIgnoresSubRequests | src/EventSubscriber/DisallowUserWithNoRolesSubscriber.php:117-120 | any sequence of request-hook calls for non-main requests changes nothing, even for a deficient account |
| RoleGate.ExceptionThenRequestDeletesOnce | src/EventSubscriber/DisallowUserWithNoRolesSubscriber.php:100-125 | for a deficient account with a record, a 404/403 exception hook followed by a main-request hook sets the flag, deletes the record once, logs one notice and replaces one response |
| RoleGate.RepeatedExceptionAborts | src/EventSubscriber/DisallowUserWithNoRolesSubscriber.php:100-108 | for a deficient account with a record, two 404/403 exception hooks in a row delete the record once and replace one response; the second runs the clean-up again, logs a second notice and ends in the error, since the hook checks neither the flag nor the request type |
| RoleGate.DeficientMainRequestIsRedirected | src/EventSubscriber/DisallowUserWithNoRolesSubscriber.php:116-125 | with the flag unset, a main request from a deficient account with a record deletes that record, logs the notice and answers with the logout redirect |
| EventSubscriber.UserStorage.Delete | src/EventSubscriber/DisallowUserWithNoRolesSubscriber.php:156 | deleting a loaded record removes that uid and nothing else |
| EventSubscriber.Logger.Notice | src/EventSubscriber/DisallowUserWithNoRolesSubscriber.php:152-154 | a notice is appended to the channel's entries and nothing earlier changes |
| EventSubscriber.KernelEvent.SetResponse | src/EventSubscriber/DisallowUserWithNoRolesSubscriber.php:164 | the event's response becomes the given one |
| EventSubscriber.DisallowUserWithNoRolesSubscriber.constructor | src/EventSubscriber/DisallowUserWithNoRolesSubscriber.php:86-92 | a new subscriber keeps the injected account, logger, module list and storage, and starts with the `exception` flag unset (line 28) |
| EventSubscriber.DisallowUserWithNoRolesSubscriber.LogoutDeleteUser | src/EventSubscriber/DisallowUserWithNoRolesSubscriber.php:151-165 | the flag, records and log afterwards, the error outcome and the event's response are exactly those of `RoleGate.LogoutDeleteUser` |
| EventSubscriber.DisallowUserWithNoRolesSubscriber.OnExceptionRedirect | src/EventSubscriber/DisallowUserWithNoRolesSubscriber.php:100-108 | the flag, records and log afterwards, the error outcome and the event's response are exactly those of `RoleGate.OnExceptionRedirect` for the event's throwable |
| EventSubscriber.DisallowUserWithNoRolesSubscriber.OnRequestRedirect | src/EventSubscriber/DisallowUserWithNoRolesSubscriber.php:116-125 | the flag, records and log afterwards, the error outcome and the event's response are exactly those of `RoleGate.OnRequestRedirect` for the event's request type |
| EventSubscriber.NotFoundThenMainRequest | src/EventSubscriber/DisallowUserWithNoRolesSubscriber.php:100-125 | on one subscriber instance, a 404 exception event followed by a main-request event for a deficient account with a record: the first event gets the logout redirect, the record is deleted, one notice is logged, the flag is set, and the second event is left untouched |

## Left out

- Dependency injection, the logger channel factory and placeholder substitution are not modelled. A notice is recorded as its template and its `@username` argument.
- The route match and configuration properties (lines 42, 56) are never used by the code, so they are not modelled.
- `getSubscribedEvents` and the request hook's priority 31 (lines 170-176) are not modelled. Hook calls are taken in any order and any number: `RoleGate.RunHooks` runs an arbitrary sequence. When a hook raises an error, the sequence ends there. The kernel's later handling of that error is not modelled.
- The HTTP mechanics of `RedirectResponse` and `TrustedRedirectResponse` (headers, open-redirect protection) are not modelled. A response is its status, its target and a trusted flag.
- The class hierarchy of throwables is collapsed: subclasses of NotFoundHttpException and AccessDeniedHttpException count as those classes. Every other class is `OtherThrowable`.
- `EventSubscriber.DisallowUserWithNoRolesSubscriber.OnExceptionRedirect` requires that the event carry a throwable. Only exception events have `getThrowable()`, and this hook is registered only for them.
- Account ids are integers after the `(int)` cast on line 137. A role list is a sequence of strings. Comparing it with `['authenticated']` is taken as exact list equality, which is how PHP's `==` behaves on a list of non-numeric strings with keys 0..n-1.
- Entity storage internals are not modelled. The storage is a map from uid to account name.
- A second clean-up of an account whose record is already gone is not tolerated: `load()` returning NULL is not guarded (line 156), so the model ends in `aborted`.
- Roles are compared as a list (`==` against `['authenticated']`, line 139), not as a set.
- Concurrent requests from the same account and cross-request races are not modelled. The code has no handling for them.
- Session invalidation is not modelled. The code makes no explicit logout call and relies on the record's deletion.
- Earlier behaviours (an explicit logout call, a redirect to an access-denied page) are not in this code and are not modelled.
