/** The `ActualBudget` client: a lazily created, time-limited session to the
    budgeting library, the read operations that use it, and the connection
    test that turns the library's exceptions into form error codes.

    The library itself is an oracle: what opening, validating and querying
    return is handed in as a value. The clock is an integer number of seconds. */
module Client {
  import opened Wrappers
  import opened Exceptions
  import opened Entry
  import Budgets

  /** `SESSION_TIMEOUT = timedelta(minutes=30)`, in seconds. */
  const SESSION_TIMEOUT := 30 * 60

  /** An open `Actual` object of the library; `session` is its `.session`
      attribute, `None` when that is falsy. */
  datatype Handle = Handle(id: nat, session: Option<nat>)

  /** What `validate()` does: return a result whose `data.validated` is the
      flag, or raise. */
  datatype Validation = Validated(ok: bool) | ValidationRaised(error: Exception)

  /** Everything `get_session` learns from outside on one call: the time, what
      validating the current session gives, and, should a new session be
      needed, what constructing and entering `Actual(...)` gives and what
      validating it gives. Whether closing an expired session raises is not
      an input: the error is logged and swallowed either way. */
  datatype SessionOracle = SessionOracle(
    now: int,
    revalidation: Validation,
    opening: Result<Handle, Exception>,
    creationCheck: Validation)

  datatype SessionState = SessionState(actual: Option<Handle>, startedAt: int)

  /** `create_session`: open, enter, validate; raise unless validated. */
  function CreateSession(opening: Result<Handle, Exception>, check: Validation): (r: Result<Handle, Exception>)
    ensures r.Success? <==> opening.Success? && check == Validated(true)
    ensures r.Success? ==> r.value == opening.value
    ensures opening.Failure? ==> r == Failure(opening.error)
    ensures opening.Success? && check == Validated(false) ==> r == Failure(SessionNotValidated)
    ensures opening.Success? && check.ValidationRaised? ==> r == Failure(check.error)
  {
    match opening
    case Failure(e) => Failure(e)
    case Success(h) =>
      match check
      case ValidationRaised(e) => Failure(e)
      case Validated(ok) => if ok then Success(h) else Failure(SessionNotValidated)
  }

  /** The held session is older than the timeout (strictly). */
  predicate Expired(s: SessionState, now: int) {
    s.actual.Some? && s.startedAt + SESSION_TIMEOUT < now
  }

  /** The held session survives this call: it has not expired and validating
      it reports `validated == true`. */
  predicate Reusable(s: SessionState, o: SessionOracle) {
    s.actual.Some? && !Expired(s, o.now) && o.revalidation == Validated(true)
  }

  datatype SessionStep = SessionStep(state: SessionState, result: Result<Option<nat>, Exception>)

  /** What one `get_session` call does to the client's two fields and what it
      returns (`self.actual.session`) or raises. */
  function GetSessionStep(s: SessionState, o: SessionOracle): (r: SessionStep)
    // a session that survives is kept, with its start time
    ensures Reusable(s, o) ==> r.state == s && r.result == Success(s.actual.value.session)
    // otherwise the outcome is that of creating a new session
    ensures !Reusable(s, o) ==> r.result.Success? == CreateSession(o.opening, o.creationCheck).Success?
    // a successful call holds a session and returns its `.session`
    ensures r.result.Success? ==> r.state.actual.Some? && r.result.value == r.state.actual.value.session
    // the start time moves to `now` exactly when a session was created
    ensures !Reusable(s, o) && r.result.Success? ==> r.state == SessionState(Some(o.opening.value), o.now)
    // a failed creation leaves no session and the old start time
    ensures r.result.Failure? ==> r.state == SessionState(None, s.startedAt)
  {
    if Reusable(s, o) then SessionStep(s, Success(s.actual.value.session))
    else
      match CreateSession(o.opening, o.creationCheck)
      case Success(h) => SessionStep(SessionState(Some(h), o.now), Success(h.session))
      case Failure(e) => SessionStep(SessionState(None, s.startedAt), Failure(e))
  }

  /** An expired session is dropped before any validation: the validation
      outcome cannot change the step. */
  lemma ExpiredSkipsValidation(s: SessionState, o: SessionOracle, v: Validation)
    requires Expired(s, o.now)
    ensures GetSessionStep(s, o) == GetSessionStep(s, o.(revalidation := v))
  {
  }

  /** A session that is not expired but fails validation, by `false` or by
      raising, is replaced, whatever its age. */
  lemma FailedValidationReplaces(s: SessionState, o: SessionOracle)
    requires s.actual.Some? && !Expired(s, o.now) && o.revalidation != Validated(true)
    ensures GetSessionStep(s, o) == GetSessionStep(SessionState(None, s.startedAt), o)
  {
  }

  /** Without a session, a call creates one; the held session before the call
      plays no part. */
  lemma NoSessionCreates(s: SessionState, o: SessionOracle)
    requires s.actual.None?
    ensures GetSessionStep(s, o).result
         == match CreateSession(o.opening, o.creationCheck)
            case Success(h) => Success(h.session)
            case Failure(e) => Failure(e)
  {
  }

  /** After a successful call, any later call up to 30 minutes after the
      session's start, with a session that validates, keeps the session and
      its start time and returns the same session. */
  lemma SecondCallReuses(s: SessionState, o1: SessionOracle, o2: SessionOracle)
    requires GetSessionStep(s, o1).result.Success?
    requires o2.now <= GetSessionStep(s, o1).state.startedAt + SESSION_TIMEOUT
    requires o2.revalidation == Validated(true)
    ensures GetSessionStep(GetSessionStep(s, o1).state, o2).state == GetSessionStep(s, o1).state
    ensures GetSessionStep(GetSessionStep(s, o1).state, o2).result == GetSessionStep(s, o1).result
  {
  }

  /** Once the 30 minutes after the start have passed, the next call opens a
      new session whatever the validation would say. */
  lemma LateCallRenews(s: SessionState, o: SessionOracle)
    requires s.actual.Some? && o.now > s.startedAt + SESSION_TIMEOUT
    ensures GetSessionStep(s, o) == GetSessionStep(SessionState(None, s.startedAt), o)
  {
  }

  /** The connection test's codes. */
  const FAILED_SSL := "failed_ssl"
  const FAILED_CONNECTION := "failed_connection"
  const FAILED_AUTH := "failed_auth"
  const FAILED_FILE := "failed_file"

  /** `test_connection_sync` given what `get_session` returned or raised: a
      code for the exceptions it names (SSLError before its superclass
      ConnectionError) and for a falsy session, `None` on success, and any
      other exception raised on. */
  function ConnectionCode(session: Result<Option<nat>, Exception>): (r: Result<Option<string>, Exception>)
    ensures r == Success(None) <==> session.Success? && session.value.Some?
    ensures r == Success(Some(FAILED_SSL)) <==> session == Failure(SSLError)
    ensures r == Success(Some(FAILED_CONNECTION)) <==> session == Failure(ConnectionError)
    ensures r == Success(Some(FAILED_AUTH)) <==> session == Failure(AuthorizationError)
    ensures r == Success(Some(FAILED_FILE)) <==>
      session == Success(None) || session == Failure(UnknownFileId)
      || session == Failure(InvalidFile) || session == Failure(InvalidZipFile)
    ensures r.Failure? <==>
      session.Failure? && session.error !in {SSLError, ConnectionError, AuthorizationError, UnknownFileId, InvalidFile, InvalidZipFile}
    ensures r.Failure? ==> r == Failure(session.error)
  {
    match session
    case Success(s) => if s.None? then Success(Some(FAILED_FILE)) else Success(None)
    case Failure(e) =>
      if e == SSLError then Success(Some(FAILED_SSL))
      else if IsConnectionError(e) then Success(Some(FAILED_CONNECTION))
      else if e == AuthorizationError then Success(Some(FAILED_AUTH))
      else if e == UnknownFileId || e == InvalidFile || e == InvalidZipFile then Success(Some(FAILED_FILE))
      else Failure(e)
  }

  /** An account as the client returns it; the name may be `None`. */
  datatype Account = Account(name: Option<string>, balance: Budgets.Hundredths)

  /** `get_account_sync` after the session is obtained: what the library
      found for the name, or a "not found" error. */
  function AccountOrNotFound(name: string, found: Option<Account>): (r: Result<Account, Exception>)
    ensures r.Success? <==> found.Some?
    ensures r.Success? ==> r.value == found.value
    ensures r.Failure? ==> r.error == AccountNotFound(name)
  {
    match found
    case None => Failure(AccountNotFound(name))
    case Some(a) => Success(Account(a.name, a.balance))
  }

  class ActualBudget {
    const endpoint: string
    const password: string
    const file: string
    const cert: Cert
    const encryptPassword: Option<string>
    var actual: Option<Handle>
    var sessionStartedAt: int

    function State(): SessionState
      reads this
    {
      SessionState(actual, sessionStartedAt)
    }

    /** `__init__`: no session yet, the start time set to the clock. */
    constructor (endpoint: string, password: string, file: string, cert: Cert,
                 encryptPassword: Option<string>, now: int)
      ensures this.endpoint == endpoint && this.password == password && this.file == file
      ensures this.cert == cert && this.encryptPassword == encryptPassword
      ensures actual.None? && sessionStartedAt == now
    {
      this.endpoint := endpoint;
      this.password := password;
      this.file := file;
      this.cert := cert;
      this.encryptPassword := encryptPassword;
      actual := None;
      sessionStartedAt := now;
    }

    method GetSession(o: SessionOracle) returns (r: Result<Option<nat>, Exception>)
      modifies this
      ensures SessionStep(State(), r) == GetSessionStep(old(State()), o)
    {
      // invalidate a session that is too old
      if actual.Some? && sessionStartedAt + SESSION_TIMEOUT < o.now {
        actual := None;
      }
      // validate the existing session
      if actual.Some? && o.revalidation != Validated(true) {
        actual := None;
      }
      // create a new session if needed
      if actual.None? {
        var created := CreateSession(o.opening, o.creationCheck);
        if created.Failure? {
          return Failure(created.error);
        }
        actual := Some(created.value);
        sessionStartedAt := o.now;
      }
      return Success(actual.value.session);
    }

    /** `get_accounts_sync`: the session step, then the library's
        `get_accounts` (its list, or what it raises), copied field by field. */
    method GetAccountsSync(o: SessionOracle, accounts: Result<seq<Account>, Exception>)
      returns (r: Result<seq<Account>, Exception>)
      modifies this
      ensures State() == GetSessionStep(old(State()), o).state
      ensures r == match GetSessionStep(old(State()), o).result
                   case Failure(e) => Failure(e)
                   case Success(_) => accounts
    {
      var session := GetSession(o);
      if session.Failure? {
        return Failure(session.error);
      }
      if accounts.Failure? {
        return Failure(accounts.error);
      }
      var listed := accounts.value;
      var copied := seq(|listed|, i requires 0 <= i < |listed| => Account(listed[i].name, listed[i].balance));
      assert copied == listed;
      return Success(copied);
    }

    /** `get_account_sync`: the session step, then the library's
        `get_account` (the account found, `None`, or what it raises). */
    method GetAccountSync(o: SessionOracle, name: string, found: Result<Option<Account>, Exception>)
      returns (r: Result<Account, Exception>)
      modifies this
      ensures State() == GetSessionStep(old(State()), o).state
      ensures r == match GetSessionStep(old(State()), o).result
                   case Failure(e) => Failure(e)
                   case Success(_) =>
                     match found
                     case Failure(e) => Failure(e)
                     case Success(account) => AccountOrNotFound(name, account)
    {
      var session := GetSession(o);
      if session.Failure? {
        return Failure(session.error);
      }
      if found.Failure? {
        return Failure(found.error);
      }
      r := AccountOrNotFound(name, found.value);
    }

    /** `get_budgets_sync`: the session step, then the library's `get_budgets`
        (its rows, or what it raises), then the grouping, in which
        `get_category` finds the balances in `categories` and raises for the
        names in `failing`. */
    method GetBudgetsSync(o: SessionOracle, raw: Result<seq<Budgets.RawBudget>, Exception>,
                          categories: map<string, Budgets.Hundredths>, failing: map<string, Exception>)
      returns (r: Result<seq<Budgets.Budget>, Exception>)
      modifies this
      ensures State() == GetSessionStep(old(State()), o).state
      ensures GetSessionStep(old(State()), o).result.Failure? ==> r == Failure(GetSessionStep(old(State()), o).result.error)
      ensures GetSessionStep(old(State()), o).result.Success? && raw.Failure? ==> r == Failure(raw.error)
      ensures GetSessionStep(old(State()), o).result.Success? && raw.Success? ==>
        r == match Budgets.FirstFailure(Budgets.CategoryNames(raw.value), failing)
             case Some(e) => Failure(e)
             case None => Success(Budgets.GroupBudgets(raw.value, categories))
    {
      var session := GetSession(o);
      if session.Failure? {
        return Failure(session.error);
      }
      if raw.Failure? {
        return Failure(raw.error);
      }
      r := Budgets.CollectBudgets(raw.value, categories, failing);
    }

    /** `get_budget_sync`: the session step, then the library's `get_budgets`
        for the one category (its rows, or what it raises), then the rows
        collected under the name. */
    method GetBudgetSync(o: SessionOracle, name: string, raw: Result<seq<Budgets.RawBudget>, Exception>,
                         categories: map<string, Budgets.Hundredths>, failing: map<string, Exception>)
      returns (r: Result<Budgets.Budget, Exception>)
      modifies this
      ensures State() == GetSessionStep(old(State()), o).state
      ensures GetSessionStep(old(State()), o).result.Failure? ==> r == Failure(GetSessionStep(old(State()), o).result.error)
      ensures GetSessionStep(old(State()), o).result.Success? && raw.Failure? ==> r == Failure(raw.error)
      ensures GetSessionStep(old(State()), o).result.Success? && raw.Success? ==>
        && (r.Failure? <==> raw.value == [] || name in failing)
        && (raw.value == [] ==> r == Failure(BudgetNotFound(name)))
        && (raw.value != [] && name in failing ==> r == Failure(failing[name]))
        && (r.Success? ==> r.value == Budgets.Budget(name, Budgets.SortByMonth(Budgets.AllAmounts(raw.value)), Budgets.BalanceOf(categories, name)))
    {
      var session := GetSession(o);
      if session.Failure? {
        return Failure(session.error);
      }
      if raw.Failure? {
        return Failure(raw.error);
      }
      r := Budgets.CollectBudget(name, raw.value, categories, failing);
    }

    method TestConnectionSync(o: SessionOracle) returns (r: Result<Option<string>, Exception>)
      modifies this
      ensures State() == GetSessionStep(old(State()), o).state
      ensures r == ConnectionCode(GetSessionStep(old(State()), o).result)
    {
      var session := GetSession(o);
      r := ConnectionCode(session);
    }
  }
}
