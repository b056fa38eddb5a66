/**
 * The decision logic of DisallowUserWithNoRolesSubscriber, stated on values.
 *
 * Everything one hook call can observe or change is gathered into a `State`:
 * the subscriber's `exception` flag, the user storage (uid to account name),
 * and the notices logged so far. The current account and the enabled modules
 * are fixed for the lifetime of one subscriber instance and travel as an `Env`.
 * A hook call yields an `Outcome`: the new state, the response it placed on its
 * event (if any), and whether it ended by a PHP error (the unguarded
 * `load($uid)->delete()` on a uid that has no record).
 */
module RoleGate {

  datatype Option<T> = None | Some(value: T)

  /** The only role an account may hold for it to be considered role-deficient. */
  const AuthenticatedRole: string := "authenticated"
  /** The primordial administrator account, never deleted. */
  const SuperuserId: int := 1
  /** HttpKernelInterface::MAIN_REQUEST; sub-requests carry another value. */
  const MainRequest: int := 1
  /** RedirectResponse::HTTP_FOUND. */
  const HttpFound: int := 302
  /** The Enterprise Authentication module whose presence selects the external logout. */
  const SamlauthModule: string := "samlauth"
  const EnterpriseLogoutUrl: string := "https://enterprise.login.utexas.edu/idp/profile/Logout"
  const LocalLogoutPath: string := "/user/logout"
  const DeletedNotice: string :=
    "The account with username @username was automatically deleted since the account had no roles."

  /** The current account as the session service reports it. */
  datatype Account = Account(anonymous: bool, id: int, roles: seq<string>, name: string)

  /** The throwable carried by a kernel exception event, by class. */
  datatype Throwable = NotFoundHttp | AccessDeniedHttp | OtherThrowable(className: string)

  /** A replacement response: a redirect with its status, its target and whether it is a trusted (cross-origin) redirect. */
  datatype Response = Redirect(status: int, target: string, trusted: bool)

  /** A notice written to the module's logger channel: the message template and the @username argument. */
  datatype LogEntry = Notice(template: string, username: string)

  datatype Env = Env(account: Account, modules: set<string>)

  datatype State = State(exception: bool, users: map<int, string>, log: seq<LogEntry>)

  datatype Outcome = Outcome(state: State, response: Option<Response>, aborted: bool)

  /** The two hooks the subscriber registers, each with what its event carries. */
  datatype Hook = ExceptionHook(throwable: Throwable) | RequestHook(requestType: int)

  /** The net effect of a sequence of hook calls: final state, number of responses replaced, and whether an error ended it. */
  datatype Run = Run(state: State, replaced: nat, aborted: bool)

  predicate IsNotFoundOrAccessDenied(t: Throwable) {
    t.NotFoundHttp? || t.AccessDeniedHttp?
  }

  /** The notice logged when `account` is deleted. */
  function DeletionNotice(account: Account): LogEntry {
    Notice(DeletedNotice, account.name)
  }

  /** True iff the hook did anything at all besides possibly setting the flag. */
  predicate Acted(s: State, o: Outcome) {
    o.aborted || o.response.Some? || o.state.users != s.users || o.state.log != s.log
  }

  /** `userHasOnlyAuthenticatedRole`: is the account role-deficient? */
  function OnlyAuthenticatedRole(a: Account): (r: bool)
    ensures a.anonymous ==> !r
    ensures a.id == SuperuserId ==> !r
    ensures r ==> |a.roles| == 1 && a.roles[0] == AuthenticatedRole
    ensures !a.anonymous && a.id != SuperuserId && a.roles == [AuthenticatedRole] ==> r
  {
    if a.anonymous then false
    else a.id != SuperuserId && a.roles == [AuthenticatedRole]
  }

  /** The redirect `logoutDeleteUser` places on the event. */
  function LogoutRedirect(modules: set<string>): (r: Response)
    ensures r.status == HttpFound
    ensures r.trusted <==> SamlauthModule in modules
    ensures r.target == (if SamlauthModule in modules then EnterpriseLogoutUrl else LocalLogoutPath)
  {
    if SamlauthModule in modules then Redirect(HttpFound, EnterpriseLogoutUrl, true)
    else Redirect(HttpFound, LocalLogoutPath, false)
  }

  /** `logoutDeleteUser`: log a notice, delete the current account's record, redirect. */
  function LogoutDeleteUser(env: Env, s: State): (o: Outcome)
    ensures o.state.log == s.log + [DeletionNotice(env.account)]
    ensures o.state.exception == s.exception
    ensures o.aborted <==> env.account.id !in s.users
    ensures o.aborted ==> o.state.users == s.users && o.response == None
    ensures !o.aborted ==> o.response == Some(LogoutRedirect(env.modules))
    ensures env.account.id !in o.state.users
    ensures forall u :: u in s.users && u != env.account.id ==> u in o.state.users && o.state.users[u] == s.users[u]
    ensures forall u :: u in o.state.users ==> u in s.users
  {
    var uid := env.account.id;
    var logged := s.(log := s.log + [DeletionNotice(env.account)]);
    if uid !in s.users then
      // load() returned NULL and ->delete() on it raises an Error
      Outcome(logged, None, true)
    else
      Outcome(logged.(users := s.users - {uid}), Some(LogoutRedirect(env.modules)), false)
  }

  /** `onExceptionRedirect`, handed the event's throwable. */
  function OnExceptionRedirect(env: Env, s: State, t: Throwable): (o: Outcome)
    ensures !IsNotFoundOrAccessDenied(t) ==> o == Outcome(s, None, false)
    ensures !o.aborted ==> (o.state.exception <==> s.exception || IsNotFoundOrAccessDenied(t))
    ensures o.aborted ==> o.state.exception == s.exception && o.response == None
    ensures Acted(s, o) ==> IsNotFoundOrAccessDenied(t) && OnlyAuthenticatedRole(env.account)
    ensures IsNotFoundOrAccessDenied(t) && OnlyAuthenticatedRole(env.account) ==>
              o.state.log == s.log + [DeletionNotice(env.account)] &&
              o.state.users == s.users - {env.account.id} &&
              (o.aborted <==> env.account.id !in s.users) &&
              (!o.aborted ==> o.response == Some(LogoutRedirect(env.modules)))
  {
    if IsNotFoundOrAccessDenied(t) then
      if OnlyAuthenticatedRole(env.account) then
        var o := LogoutDeleteUser(env, s);
        if o.aborted then o
        else o.(state := o.state.(exception := true))
      else
        Outcome(s.(exception := true), None, false)
    else
      Outcome(s, None, false)
  }

  /** `onRequestRedirect`, handed the event's request type. */
  function OnRequestRedirect(env: Env, s: State, requestType: int): (o: Outcome)
    ensures requestType != MainRequest ==> o == Outcome(s, None, false)
    ensures s.exception ==> o == Outcome(s, None, false)
    ensures o.state.exception == s.exception
    ensures o.aborted ==> o.response == None
    ensures Acted(s, o) ==> requestType == MainRequest && !s.exception && OnlyAuthenticatedRole(env.account)
    ensures requestType == MainRequest && !s.exception && OnlyAuthenticatedRole(env.account) ==>
              o.state.log == s.log + [DeletionNotice(env.account)] &&
              o.state.users == s.users - {env.account.id} &&
              (o.aborted <==> env.account.id !in s.users) &&
              (!o.aborted ==> o.response == Some(LogoutRedirect(env.modules)))
  {
    if requestType != MainRequest then
      Outcome(s, None, false)
    else if !s.exception && OnlyAuthenticatedRole(env.account) then
      LogoutDeleteUser(env, s)
    else
      Outcome(s, None, false)
  }

  /** The kernel invoking one of the two registered hooks. */
  function Dispatch(env: Env, s: State, h: Hook): (o: Outcome)
    ensures o.aborted ==> o.state.users == s.users && o.response == None
    ensures o.state.users == s.users || o.state.users == s.users - {env.account.id}
    ensures o.response.Some? <==> env.account.id in s.users && env.account.id !in o.state.users
    ensures s.exception ==> o.state.exception
    ensures h.RequestHook? ==> o.state.exception == s.exception
    ensures |o.state.log| == |s.log| + (if Acted(s, o) then 1 else 0)
    ensures o.state.log[..|s.log|] == s.log
    ensures Acted(s, o) ==> o.state.log[|s.log|] == DeletionNotice(env.account) && OnlyAuthenticatedRole(env.account)
    ensures Acted(s, o) <==> o.aborted || o.response.Some?
  {
    match h
    case ExceptionHook(t) => OnExceptionRedirect(env, s, t)
    case RequestHook(rt) => OnRequestRedirect(env, s, rt)
  }

  /**
   * Hook calls on one subscriber instance, in the order the kernel makes them.
   * An error raised by a hook ends the sequence.
   */
  function RunHooks(env: Env, s: State, hooks: seq<Hook>): Run
    decreases |hooks|
  {
    if hooks == [] then Run(s, 0, false)
    else
      var o := Dispatch(env, s, hooks[0]);
      if o.aborted then Run(o.state, 0, true)
      else
        var rest := RunHooks(env, o.state, hooks[1..]);
        Run(rest.state, rest.replaced + (if o.response.Some? then 1 else 0), rest.aborted)
  }

  /** Whatever hooks run and in whatever order, no record but the current account's is ever removed or altered. */
  lemma {:induction false} RunDeletesOnlyCurrentAccount(env: Env, s: State, hooks: seq<Hook>)
    ensures var r := RunHooks(env, s, hooks);
      r.state.users == s.users || r.state.users == s.users - {env.account.id}
    decreases |hooks|
  {
    if hooks != [] {
      var o := Dispatch(env, s, hooks[0]);
      if !o.aborted {
        RunDeletesOnlyCurrentAccount(env, o.state, hooks[1..]);
        var r := RunHooks(env, o.state, hooks[1..]);
        if o.state.users != s.users {
          assert r.state.users == o.state.users || r.state.users == o.state.users - {env.account.id};
          assert o.state.users - {env.account.id} == o.state.users;
        }
      }
    }
  }

  /**
   * Whatever hooks run and in whatever order, the response is replaced at most
   * once, and exactly when the current account's record was present and is now gone:
   * the account is deleted at most once.
   */
  lemma {:induction false} RunReplacesAtMostOnce(env: Env, s: State, hooks: seq<Hook>)
    ensures var r := RunHooks(env, s, hooks);
      r.replaced == (if env.account.id in s.users && env.account.id !in r.state.users then 1 else 0)
    ensures RunHooks(env, s, hooks).replaced <= 1
    decreases |hooks|
  {
    if hooks != [] {
      var o := Dispatch(env, s, hooks[0]);
      if !o.aborted {
        RunReplacesAtMostOnce(env, o.state, hooks[1..]);
        RunDeletesOnlyCurrentAccount(env, o.state, hooks[1..]);
      }
    }
  }

  /** Once the exception flag is set, no sequence of hook calls clears it. */
  lemma {:induction false} RunKeepsExceptionFlag(env: Env, s: State, hooks: seq<Hook>)
    requires s.exception
    ensures RunHooks(env, s, hooks).state.exception
    decreases |hooks|
  {
    if hooks != [] {
      var o := Dispatch(env, s, hooks[0]);
      if !o.aborted {
        RunKeepsExceptionFlag(env, o.state, hooks[1..]);
      }
    }
  }

  /** Every notice the hooks log names the current account, and one is logged per clean-up attempt. */
  lemma {:induction false} RunLogsOneNoticePerCleanup(env: Env, s: State, hooks: seq<Hook>)
    ensures var r := RunHooks(env, s, hooks);
      |r.state.log| == |s.log| + r.replaced + (if r.aborted then 1 else 0) &&
      r.state.log[..|s.log|] == s.log &&
      forall i :: |s.log| <= i < |r.state.log| ==> r.state.log[i] == DeletionNotice(env.account)
    decreases |hooks|
  {
    if hooks != [] {
      var o := Dispatch(env, s, hooks[0]);
      if !o.aborted {
        RunLogsOneNoticePerCleanup(env, o.state, hooks[1..]);
        var r := RunHooks(env, o.state, hooks[1..]);
        assert r.state.log[..|o.state.log|] == o.state.log;
        assert o.state.log[..|s.log|] == s.log;
        assert r.state.log[..|s.log|] == r.state.log[..|o.state.log|][..|s.log|];
        forall i | |s.log| <= i < |r.state.log|
          ensures r.state.log[i] == DeletionNotice(env.account)
        {
          if i < |o.state.log| {
            assert r.state.log[i] == r.state.log[..|o.state.log|][i];
          }
        }
      }
    }
  }

  /** An account that is not role-deficient (anonymous, uid 1, no roles or extra roles) is never touched. */
  lemma {:induction false} RunLeavesOtherAccountsAlone(env: Env, s: State, hooks: seq<Hook>)
    requires !OnlyAuthenticatedRole(env.account)
    ensures var r := RunHooks(env, s, hooks);
      r.state.users == s.users && r.state.log == s.log && r.replaced == 0 && !r.aborted
    decreases |hooks|
  {
    if hooks != [] {
      var o := Dispatch(env, s, hooks[0]);
      assert !Acted(s, o);
      RunLeavesOtherAccountsAlone(env, o.state, hooks[1..]);
    }
  }

  predicate AllRequestHooks(hooks: seq<Hook>) {
    forall i :: 0 <= i < |hooks| ==> hooks[i].RequestHook?
  }

  /** After the exception hook has seen a 404 or 403, request hooks do nothing at all. */
  lemma {:induction false} RunSuppressedAfterException(env: Env, s: State, hooks: seq<Hook>)
    requires s.exception
    requires AllRequestHooks(hooks)
    ensures RunHooks(env, s, hooks) == Run(s, 0, false)
    decreases |hooks|
  {
    if hooks != [] {
      assert hooks[0].RequestHook?;
      RunSuppressedAfterException(env, s, hooks[1..]);
    }
  }

  /** Sub-requests never trigger anything, even for a role-deficient account. */
  lemma {:induction false} RunIgnoresSubRequests(env: Env, s: State, hooks: seq<Hook>)
    requires forall i :: 0 <= i < |hooks| ==> hooks[i].RequestHook? && hooks[i].requestType != MainRequest
    ensures RunHooks(env, s, hooks) == Run(s, 0, false)
    decreases |hooks|
  {
    if hooks != [] {
      assert hooks[0].RequestHook? && hooks[0].requestType != MainRequest;
      RunIgnoresSubRequests(env, s, hooks[1..]);
    }
  }

  /**
   * A role-deficient account whose request first raises a 404 or 403 and then
   * reaches the main-request hook is deleted once, logged once and redirected once.
   */
  lemma ExceptionThenRequestDeletesOnce(env: Env, s: State, t: Throwable)
    requires OnlyAuthenticatedRole(env.account) && env.account.id in s.users && !s.exception
    requires IsNotFoundOrAccessDenied(t)
    ensures var r := RunHooks(env, s, [ExceptionHook(t), RequestHook(MainRequest)]);
      r == Run(State(true, s.users - {env.account.id}, s.log + [DeletionNotice(env.account)]), 1, false)
  {
    var hooks := [ExceptionHook(t), RequestHook(MainRequest)];
    var o := Dispatch(env, s, hooks[0]);
    assert o.state == State(true, s.users - {env.account.id}, s.log + [DeletionNotice(env.account)]);
    assert hooks[1..] == [RequestHook(MainRequest)];
    RunSuppressedAfterException(env, o.state, hooks[1..]);
  }

  /**
   * The exception hook consults neither the request type nor the flag: a second
   * 404 or 403 for a role-deficient account in the same cycle runs the clean-up
   * again, logs a second notice and ends in the error of `load()` returning NULL.
   */
  lemma RepeatedExceptionAborts(env: Env, s: State, t1: Throwable, t2: Throwable)
    requires OnlyAuthenticatedRole(env.account) && env.account.id in s.users
    requires IsNotFoundOrAccessDenied(t1) && IsNotFoundOrAccessDenied(t2)
    ensures var r := RunHooks(env, s, [ExceptionHook(t1), ExceptionHook(t2)]);
      r.aborted && r.replaced == 1 && r.state.users == s.users - {env.account.id} &&
      r.state.log == s.log + [DeletionNotice(env.account), DeletionNotice(env.account)]
  {
    var hooks := [ExceptionHook(t1), ExceptionHook(t2)];
    var o := Dispatch(env, s, hooks[0]);
    assert o.state == State(true, s.users - {env.account.id}, s.log + [DeletionNotice(env.account)]);
    assert hooks[1..] == [ExceptionHook(t2)];
  }

  /** A role-deficient account reaching the main-request hook is deleted and sent a 302. */
  lemma DeficientMainRequestIsRedirected(env: Env, s: State)
    requires OnlyAuthenticatedRole(env.account) && env.account.id in s.users && !s.exception
    ensures OnRequestRedirect(env, s, MainRequest) ==
      Outcome(s.(users := s.users - {env.account.id}, log := s.log + [DeletionNotice(env.account)]),
              Some(LogoutRedirect(env.modules)), false)
  {
  }
}
