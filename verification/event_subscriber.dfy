/**
 * DisallowUserWithNoRolesSubscriber as an object: its `exception` flag is a
 * field its hooks update, and its collaborators (user storage, logger channel,
 * kernel event) are objects whose state the hooks change. Each hook is proved
 * to produce exactly the new state that the value-level model in RoleGate
 * prescribes, so every property proved there holds of these methods.
 */
module EventSubscriber {

  import opened RoleGate

  /** The 'user' entity storage: one record per uid, holding the account name. */
  class UserStorage {
    var records: map<int, string>

    constructor (records: map<int, string>)
      ensures this.records == records
    {
      this.records := records;
    }

    /** `load($uid)`: the record, or NULL when there is none. */
    function Load(uid: int): (r: Option<string>)
      reads this
      ensures r.Some? <==> uid in records
      ensures r.Some? ==> r.value == records[uid]
    {
      if uid in records then Some(records[uid]) else None
    }

    /** `->delete()` on a loaded record. */
    method Delete(uid: int)
      requires uid in records
      modifies this
      ensures records == old(records) - {uid}
    {
      records := records - {uid};
    }
  }

  /** The module's logger channel. */
  class Logger {
    var entries: seq<LogEntry>

    constructor ()
      ensures entries == []
    {
      entries := [];
    }

    method Notice(template: string, username: string)
      modifies this
      ensures entries == old(entries) + [RoleGate.Notice(template, username)]
    {
      entries := entries + [RoleGate.Notice(template, username)];
    }
  }

  /** A kernel event: its request type, the throwable of an exception event, and its response. */
  class KernelEvent {
    const requestType: int
    const throwable: Option<Throwable>
    var response: Option<Response>

    constructor (requestType: int, throwable: Option<Throwable>)
      ensures this.requestType == requestType && this.throwable == throwable && response == None
    {
      this.requestType := requestType;
      this.throwable := throwable;
      response := None;
    }

    method SetResponse(r: Response)
      modifies this
      ensures response == Some(r)
    {
      response := Some(r);
    }
  }

  /** The response an event holds after a hook produced `o`. */
  function ResponseAfter(before: Option<Response>, o: Outcome): Option<Response> {
    if o.response.Some? then o.response else before
  }

  class DisallowUserWithNoRolesSubscriber {
    var exception: bool
    const account: Account
    const logger: Logger
    const modules: set<string>
    const storage: UserStorage

    constructor (account: Account, logger: Logger, modules: set<string>, storage: UserStorage)
      ensures !exception
      ensures this.account == account && this.logger == logger
      ensures this.modules == modules && this.storage == storage
    {
      exception := false;
      this.account := account;
      this.logger := logger;
      this.modules := modules;
      this.storage := storage;
    }

    /** The collaborators fixed at construction. */
    function Env(): RoleGate.Env {
      RoleGate.Env(account, modules)
    }

    /** The state the hooks observe and change. */
    ghost function Snapshot(): State
      reads this, logger, storage
    {
      State(exception, storage.records, logger.entries)
    }

    /** `moduleHandler->moduleExists($name)`. */
    function ModuleExists(name: string): bool {
      name in modules
    }

    /**
     * `logoutDeleteUser`. Returns true when `load($uid)` found no record and
     * the call on NULL raised an error, which the caller propagates.
     */
    method LogoutDeleteUser(event: KernelEvent) returns (aborted: bool)
      modifies logger, storage, event
      ensures var o := RoleGate.LogoutDeleteUser(Env(), old(Snapshot()));
        Snapshot() == o.state && aborted == o.aborted &&
        event.response == ResponseAfter(old(event.response), o)
    {
      logger.Notice(DeletedNotice, account.name);
      var uid := account.id;
      var user := storage.Load(uid);
      if user.None? {
        return true;
      }
      storage.Delete(uid);
      var response;
      if ModuleExists(SamlauthModule) {
        response := Redirect(HttpFound, EnterpriseLogoutUrl, true);
      } else {
        response := Redirect(HttpFound, LocalLogoutPath, false);
      }
      event.SetResponse(response);
      return false;
    }

    /** `onExceptionRedirect`, registered for KernelEvents::EXCEPTION. */
    method OnExceptionRedirect(event: KernelEvent) returns (aborted: bool)
      requires event.throwable.Some?
      modifies this, logger, storage, event
      ensures var o := RoleGate.OnExceptionRedirect(Env(), old(Snapshot()), event.throwable.value);
        Snapshot() == o.state && aborted == o.aborted &&
        event.response == ResponseAfter(old(event.response), o)
    {
      var thrown := event.throwable.value;
      if thrown.NotFoundHttp? || thrown.AccessDeniedHttp? {
        if OnlyAuthenticatedRole(account) {
          aborted := LogoutDeleteUser(event);
          if aborted {
            return;
          }
        }
        exception := true;
      }
      return false;
    }

    /** `onRequestRedirect`, registered for KernelEvents::REQUEST. */
    method OnRequestRedirect(event: KernelEvent) returns (aborted: bool)
      modifies logger, storage, event
      ensures var o := RoleGate.OnRequestRedirect(Env(), old(Snapshot()), event.requestType);
        Snapshot() == o.state && aborted == o.aborted &&
        event.response == ResponseAfter(old(event.response), o)
    {
      if event.requestType != MainRequest {
        // Prevent evaluations on sub requests.
        return false;
      }
      aborted := false;
      if !exception && OnlyAuthenticatedRole(account) {
        aborted := LogoutDeleteUser(event);
      }
    }
  }

  /**
   * One request cycle for a role-deficient account whose page is not found:
   * the exception hook deletes the account and redirects, and the main-request
   * hook on the same subscriber then does nothing.
   */
  method NotFoundThenMainRequest(account: Account, modules: set<string>, users: map<int, string>)
    returns (exceptionEvent: KernelEvent, requestEvent: KernelEvent, subscriber: DisallowUserWithNoRolesSubscriber)
    requires OnlyAuthenticatedRole(account) && account.id in users
    ensures subscriber.exception
    ensures subscriber.storage.records == users - {account.id}
    ensures subscriber.logger.entries == [DeletionNotice(account)]
    ensures exceptionEvent.response == Some(LogoutRedirect(modules))
    ensures requestEvent.response == None
  {
    var logger := new Logger();
    var storage := new UserStorage(users);
    subscriber := new DisallowUserWithNoRolesSubscriber(account, logger, modules, storage);
    exceptionEvent := new KernelEvent(MainRequest, Some(NotFoundHttp));
    var aborted := subscriber.OnExceptionRedirect(exceptionEvent);
    requestEvent := new KernelEvent(MainRequest, None);
    aborted := subscriber.OnRequestRedirect(requestEvent);
  }
}
