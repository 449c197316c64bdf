/** The sensor platform: the settings every sensor of an entry shares, the
    entity naming rules, and the two sensor classes with their update
    transitions. */
module Sensors {
  import opened Wrappers
  import opened Exceptions
  import opened Entry
  import Text
  import Budgets
  import Client

  /** The integration's domain; Home Assistant requires it to equal the
      package directory's name. */
  const DOMAIN := "actualbudget"
  const DEFAULT_UNIT := "€"

  // ---------------------------------------------------------------------
  // async_setup_entry

  /** `f"{domain}_{port}_{file}"` with `domain` and `port` from `urlparse`. */
  function UniqueSourceId(url: ParsedUrl, file: string): (r: string)
    ensures var h, p := Show(url.hostname), ShowPort(url.port);
      && |r| == |h| + |p| + |file| + 2
      && r[..|h|] == h && r[|h|] == '_'
      && r[|h| + 1..|h| + 1 + |p|] == p && r[|h| + 1 + |p|] == '_'
      && r[|h| + |p| + 2..] == file
  {
    Show(url.hostname) + "_" + ShowPort(url.port) + "_" + file
  }

  /** The id starts with the host, ends with the file, and tells two ports of
      the same host and file apart. */
  lemma UniqueSourceIdParts(url: ParsedUrl, file: string)
    ensures var id := UniqueSourceId(url, file);
      && |id| > |Show(url.hostname)| + |file|
      && id[..|Show(url.hostname)|] == Show(url.hostname)
      && id[|id| - |file|..] == file
  {
  }

  /** Different ports are shown differently: decimal digits never spell "None". */
  lemma ShowPortInjective(p: Option<nat>, q: Option<nat>)
    requires p != q
    ensures ShowPort(p) != ShowPort(q)
  {
    if p.Some? && q.Some? {
      Text.DecimalInjective(p.value, q.value);
    } else if p.Some? {
      assert Text.IsDigit(ShowPort(p)[0]) && !Text.IsDigit(ShowPort(q)[0]);
    } else {
      assert Text.IsDigit(ShowPort(q)[0]) && !Text.IsDigit(ShowPort(p)[0]);
    }
  }

  /** Two ports of the same host and file give different source ids. */
  lemma UniqueSourceIdSeparatesPorts(host: Option<string>, p: Option<nat>, q: Option<nat>, file: string)
    requires p != q
    ensures UniqueSourceId(ParsedUrl(host, p), file) != UniqueSourceId(ParsedUrl(host, q), file)
  {
    var h := Show(host) + "_";
    var a, b := ShowPort(p), ShowPort(q);
    var x, y := UniqueSourceId(ParsedUrl(host, p), file), UniqueSourceId(ParsedUrl(host, q), file);
    ShowPortInjective(p, q);
    if |a| != |b| {
      assert |x| != |y|;
    } else {
      var k :| 0 <= k < |a| && a[k] != b[k];
      assert x[|h| + k] == a[k] && y[|h| + k] == b[k];
    }
  }

  /** What every sensor of one entry is built with. */
  datatype SensorSettings = SensorSettings(unit: string, cert: Cert, prefix: Option<string>, sourceId: string)

  /** The unit defaults to "€", a "SKIP" certificate becomes `False`. */
  function SettingsOf(data: EntryData, url: ParsedUrl): (r: SensorSettings)
    ensures r.unit == if data.unit.Some? then data.unit.value else DEFAULT_UNIT
    ensures r.cert == CertDisabled <==> data.cert == Some(SKIP_CERT)
    ensures r.cert == NormaliseCert(data.cert)
    ensures r.prefix == data.prefix
    ensures r.sourceId == UniqueSourceId(url, data.file)
  {
    SensorSettings(
      match data.unit case Some(u) => u case None => DEFAULT_UNIT,
      NormaliseCert(data.cert),
      data.prefix,
      UniqueSourceId(url, data.file))
  }

  /** The arguments one account sensor is constructed with. */
  datatype AccountSensorArgs = AccountSensorArgs(name: Option<string>, balance: Budgets.Hundredths, settings: SensorSettings)

  /** What setting up the platform achieves: the account sensors added, and
      the exception that ended the setup, if any. */
  datatype SetupOutcome = SetupOutcome(added: seq<AccountSensorArgs>, raised: Option<Exception>)

  /** `async_setup_entry`, given what `urlparse` yields (`None` when reading
      the port raises) and what the client returns for the accounts and the
      budgets. Budget sensors are built from `budget.amount`, a field a
      `Budget` does not have: any budget at all ends the setup with an error,
      after the account sensors were added. */
  function SetupEntry(data: EntryData, url: Option<ParsedUrl>,
                      accounts: Result<seq<Client.Account>, Exception>,
                      budgets: Result<seq<Budgets.Budget>, Exception>): (r: SetupOutcome)
    ensures url.None? || accounts.Failure? ==> r.added == []
    ensures url.Some? && accounts.Success? ==>
      && |r.added| == |accounts.value|
      && forall i :: 0 <= i < |r.added| ==>
           r.added[i] == AccountSensorArgs(accounts.value[i].name, accounts.value[i].balance, SettingsOf(data, url.value))
    ensures r.raised.None? <==> url.Some? && accounts.Success? && budgets == Success([])
  {
    match url
    case None => SetupOutcome([], Some(OtherError))
    case Some(u) =>
      var settings := SettingsOf(data, u);
      match accounts
      case Failure(e) => SetupOutcome([], Some(e))
      case Success(accs) =>
        var added := seq(|accs|, i requires 0 <= i < |accs| => AccountSensorArgs(accs[i].name, accs[i].balance, settings));
        match budgets
        case Failure(e) => SetupOutcome(added, Some(e))
        case Success(bs) => SetupOutcome(added, if bs == [] then None else Some(OtherError))
  }

  // ---------------------------------------------------------------------
  // name and unique_id, shared by both sensor classes

  /** The `name` property: `f"{prefix}_{name}"` when the prefix is truthy,
      the bare name otherwise. */
  function EntityName(prefix: Option<string>, name: Option<string>): (r: Option<string>)
    ensures !Truthy(prefix) ==> r == name
    ensures Truthy(prefix) ==> r.Some? && |r.value| == |prefix.value| + 1 + |Show(name)|
    ensures Truthy(prefix) ==>
      && r.value[..|prefix.value|] == prefix.value
      && r.value[|prefix.value|] == '_'
      && r.value[|prefix.value| + 1..] == Show(name)
  {
    if Truthy(prefix) then Some(prefix.value + "_" + Show(name)) else name
  }

  /** Under one prefix, different names give different entity names. */
  lemma EntityNameInjective(prefix: Option<string>, a: string, b: string)
    requires a != b
    ensures EntityName(prefix, Some(a)) != EntityName(prefix, Some(b))
  {
    if Truthy(prefix) {
      var p := prefix.value + "_";
      assert (p + a)[|p|..] == a && (p + b)[|p|..] == b;
    }
  }

  /** The `unique_id` property: the lower-cased
      `f"{DOMAIN}-{source}-{prefix}-{name}"`, without the prefix part when the
      prefix is falsy. */
  function EntityUniqueId(sourceId: string, prefix: Option<string>, name: Option<string>): (r: string)
    ensures forall i :: 0 <= i < |r| ==> !Text.IsUpper(r[i])
  {
    Text.Lower(IdHead(sourceId, prefix) + Show(name))
  }

  /** The part of the id's f-string before the name. */
  function IdHead(sourceId: string, prefix: Option<string>): string {
    if Truthy(prefix) then DOMAIN + "-" + sourceId + "-" + prefix.value + "-" else DOMAIN + "-" + sourceId + "-"
  }

  /** The id is the lower-cased domain and source id, then the lower-cased
      prefix when it is truthy, then the lower-cased name, joined by "-". */
  lemma EntityUniqueIdParts(sourceId: string, prefix: Option<string>, name: Option<string>)
    ensures var id, base := EntityUniqueId(sourceId, prefix, name), DOMAIN + "-" + sourceId + "-";
      && (!Truthy(prefix) ==> id == Text.Lower(base) + Text.Lower(Show(name)))
      && (Truthy(prefix) ==> id == Text.Lower(base) + Text.Lower(prefix.value + "-") + Text.Lower(Show(name)))
  {
    var base := DOMAIN + "-" + sourceId + "-";
    Text.LowerConcat(IdHead(sourceId, prefix), Show(name));
    if Truthy(prefix) {
      assert IdHead(sourceId, prefix) == base + (prefix.value + "-");
      Text.LowerConcat(base, prefix.value + "-");
    }
  }

  /** The id ends with the lower-cased name, after at least the domain, the
      source id and their two separators. */
  lemma EntityUniqueIdEndsWithName(sourceId: string, prefix: Option<string>, name: Option<string>)
    ensures var id := EntityUniqueId(sourceId, prefix, name);
      && |id| >= |DOMAIN| + |sourceId| + 2 + |Show(name)|
      && id[|id| - |Show(name)|..] == Text.Lower(Show(name))
  {
    var head := IdHead(sourceId, prefix);
    Text.LowerConcat(head, Show(name));
    var id := Text.Lower(head) + Text.Lower(Show(name));
    assert id[|id| - |Show(name)|..] == Text.Lower(Show(name));
  }

  /** The id starts with the domain and a "-". */
  lemma EntityUniqueIdShape(sourceId: string, prefix: Option<string>, name: Option<string>)
    ensures var id := EntityUniqueId(sourceId, prefix, name);
      |id| > |DOMAIN| && id[..|DOMAIN| + 1] == DOMAIN + "-"
  {
    var d := DOMAIN + "-";
    var tail := if Truthy(prefix) then sourceId + "-" + prefix.value + "-" else sourceId + "-";
    assert IdHead(sourceId, prefix) + Show(name) == d + (tail + Show(name));
    Text.LowerConcat(d, tail + Show(name));
    DomainIsLower();
  }

  /** The domain is written in lower case. */
  lemma DomainIsLower()
    ensures Text.Lower(DOMAIN + "-") == DOMAIN + "-"
  {
  }

  /** The id is already in lower case: lower-casing it again changes nothing. */
  lemma EntityUniqueIdIsLower(sourceId: string, prefix: Option<string>, name: Option<string>)
    ensures Text.Lower(EntityUniqueId(sourceId, prefix, name)) == EntityUniqueId(sourceId, prefix, name)
  {
    Text.LowerIdempotent(IdHead(sourceId, prefix) + Show(name));
  }

  /** Names that differ only in letter case share one id. */
  lemma EntityUniqueIdIgnoresCase(sourceId: string, prefix: Option<string>, a: string, b: string)
    requires Text.Lower(a) == Text.Lower(b)
    ensures EntityUniqueId(sourceId, prefix, Some(a)) == EntityUniqueId(sourceId, prefix, Some(b))
  {
    Text.LowerConcat(IdHead(sourceId, prefix), a);
    Text.LowerConcat(IdHead(sourceId, prefix), b);
  }

  /** Conversely, names that are not equal up to letter case get different
      ids: the id identifies the name. */
  lemma EntityUniqueIdSeparatesNames(sourceId: string, prefix: Option<string>, a: string, b: string)
    requires EntityUniqueId(sourceId, prefix, Some(a)) == EntityUniqueId(sourceId, prefix, Some(b))
    ensures Text.Lower(a) == Text.Lower(b)
  {
    var head := IdHead(sourceId, prefix);
    Text.LowerConcat(head, a);
    Text.LowerConcat(head, b);
    var x := Text.Lower(head) + Text.Lower(a);
    assert |Text.Lower(a)| == |Text.Lower(b)|;
    assert Text.Lower(a) == x[|Text.Lower(head)|..] == Text.Lower(b);
  }

  // ---------------------------------------------------------------------
  // async_update

  /** The two fields an update may change: the sensor's value and whether
      it is available. */
  datatype SensorState<V> = SensorState(value: V, available: bool)

  /** One `async_update` of an account sensor, given what `get_account`
      returned or raised: a returned account (always truthy) sets the value
      to its balance; an exception makes the sensor unavailable and keeps the
      value. */
  function AccountUpdate(s: SensorState<Option<Budgets.Hundredths>>, fetched: Result<Client.Account, Exception>)
    : (r: SensorState<Option<Budgets.Hundredths>>)
    ensures r.available ==> s.available
    ensures fetched.Success? ==> r.available == s.available && r.value == Some(fetched.value.balance)
    ensures fetched.Failure? ==> !r.available && r.value == s.value
  {
    match fetched
    case Success(account) => s.(value := Some(account.balance))
    case Failure(_) => s.(available := false)
  }

  /** A sequence of updates, oldest first. */
  function AccountRun(s: SensorState<Option<Budgets.Hundredths>>, fetches: seq<Result<Client.Account, Exception>>)
    : SensorState<Option<Budgets.Hundredths>>
  {
    if fetches == [] then s
    else AccountUpdate(AccountRun(s, fetches[..|fetches| - 1]), fetches[|fetches| - 1])
  }

  /** Nothing sets `available` back: a sensor is available after a run exactly
      when it was before and no update raised. */
  lemma {:induction false} AvailableUntilFirstFailure(s: SensorState<Option<Budgets.Hundredths>>, fetches: seq<Result<Client.Account, Exception>>)
    ensures AccountRun(s, fetches).available <==> s.available && forall i :: 0 <= i < |fetches| ==> fetches[i].Success?
  {
    if fetches != [] {
      var init := fetches[..|fetches| - 1];
      AvailableUntilFirstFailure(s, init);
      assert forall i :: 0 <= i < |init| ==> init[i] == fetches[i];
    }
  }

  /** The value after a run is the balance of the last account fetched, or
      the value before the run when every update raised. */
  lemma {:induction false} ValueIsLastBalance(s: SensorState<Option<Budgets.Hundredths>>, fetches: seq<Result<Client.Account, Exception>>)
    ensures (forall i :: 0 <= i < |fetches| ==> fetches[i].Failure?) ==> AccountRun(s, fetches).value == s.value
    ensures forall i ::
      (0 <= i < |fetches| && fetches[i].Success? && forall j :: i < j < |fetches| ==> fetches[j].Failure?)
      ==> AccountRun(s, fetches).value == Some(fetches[i].value.balance)
  {
    if fetches != [] {
      var init, last := fetches[..|fetches| - 1], fetches[|fetches| - 1];
      ValueIsLastBalance(s, init);
      assert AccountRun(s, fetches) == AccountUpdate(AccountRun(s, init), last);
      assert forall i :: 0 <= i < |init| ==> init[i] == fetches[i];
      forall i | 0 <= i < |fetches| && fetches[i].Success? && forall j :: i < j < |fetches| ==> fetches[j].Failure?
        ensures AccountRun(s, fetches).value == Some(fetches[i].value.balance)
      {
        if i < |init| {
          assert last.Failure?;
          assert init[i].Success? && forall j :: i < j < |init| ==> init[j].Failure?;
        }
      }
    }
  }

  /** One `async_update` of a budget sensor. It calls `get_budget` with one
      argument more than the client takes, which raises before anything is
      fetched; and were a budget returned, reading its `amount` would raise
      too. Every update therefore makes the sensor unavailable and keeps its
      value. */
  function BudgetUpdate(s: SensorState<Option<Budgets.Hundredths>>): (r: SensorState<Option<Budgets.Hundredths>>)
    ensures !r.available && r.value == s.value
  {
    s.(available := false)
  }

  class AccountSensor {
    const name: Option<string>
    const balance: Budgets.Hundredths  // stored by the constructor, never read
    const settings: SensorSettings
    var state: Option<Budgets.Hundredths>
    var available: bool

    constructor (args: AccountSensorArgs)
      ensures name == args.name && balance == args.balance && settings == args.settings
      ensures state.None? && available
    {
      name := args.name;
      balance := args.balance;
      settings := args.settings;
      state := None;
      available := true;
    }

    /** `f"{prefix}_{name}"`, or the bare name without a truthy prefix. */
    function Name(): (r: Option<string>)
      ensures !Truthy(settings.prefix) ==> r == name
      ensures Truthy(settings.prefix) ==> r == Some(settings.prefix.value + "_" + Show(name))
    {
      EntityName(settings.prefix, name)
    }

    /** Lower case, ending with the lower-cased name after at least the
        domain and the source id. */
    function UniqueId(): (r: string)
      ensures forall i :: 0 <= i < |r| ==> !Text.IsUpper(r[i])
      ensures |r| >= |DOMAIN| + |settings.sourceId| + 2 + |Show(name)|
      ensures r[|r| - |Show(name)|..] == Text.Lower(Show(name))
    {
      EntityUniqueIdEndsWithName(settings.sourceId, settings.prefix, name);
      EntityUniqueId(settings.sourceId, settings.prefix, name)
    }

    method Update(fetched: Result<Client.Account, Exception>)
      modifies this
      ensures SensorState(state, available) == AccountUpdate(old(SensorState(state, available)), fetched)
    {
      if fetched.Success? {
        state := Some(fetched.value.balance);
      } else {
        available := false;
      }
    }
  }

  class BudgetSensor {
    const name: string
    const settings: SensorSettings
    var amount: Option<Budgets.Hundredths>
    var available: bool

    constructor (name: string, amount: Option<Budgets.Hundredths>, settings: SensorSettings)
      ensures this.name == name && this.settings == settings
      ensures this.amount == amount && available
    {
      this.name := name;
      this.settings := settings;
      this.amount := amount;
      available := true;
    }

    /** `f"{prefix}_{name}"`, or the bare name without a truthy prefix. */
    function Name(): (r: Option<string>)
      ensures !Truthy(settings.prefix) ==> r == Some(name)
      ensures Truthy(settings.prefix) ==> r == Some(settings.prefix.value + "_" + name)
    {
      EntityName(settings.prefix, Some(name))
    }

    /** Lower case, ending with the lower-cased name after at least the
        domain and the source id. */
    function UniqueId(): (r: string)
      ensures forall i :: 0 <= i < |r| ==> !Text.IsUpper(r[i])
      ensures |r| >= |DOMAIN| + |settings.sourceId| + 2 + |name|
      ensures r[|r| - |name|..] == Text.Lower(name)
    {
      EntityUniqueIdEndsWithName(settings.sourceId, settings.prefix, Some(name));
      assert Show(Some(name)) == name;
      EntityUniqueId(settings.sourceId, settings.prefix, Some(name))
    }

    /** The `extra_state_attributes` property: always empty. */
    function ExtraStateAttributes(): (r: map<string, string>)
      ensures |r| == 0
    {
      map[]
    }

    method Update()
      modifies this
      ensures SensorState(amount, available) == BudgetUpdate(old(SensorState(amount, available)))
    {
      available := false;
    }
  }
}
