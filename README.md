# ha-actualbudget in Dafny

A model of the Home Assistant integration that exposes accounts and budget
categories of an ActualBudget server as sensors. It covers the integration's
own logic:

- **The client session** (`ActualBudget.get_session` / `create_session`). The
  state is an optional session handle plus its start time. A session older
  than 30 minutes (strict `<`) is dropped. A surviving session is
  re-validated and dropped when that fails. A new one is created when none
  remains. The module is `Client`, built around the class
  `Client.ActualBudget`. Each state-changing method is tied to the pure step
  `Client.GetSessionStep`, and the lemmas are about that step.
- **Budget grouping** (`get_budgets_sync`, `get_budget_sync`), in module
  `Budgets`. Rows without a category are dropped. The rest are grouped by
  category name in first-occurrence order. Each group is stable-sorted by
  month (Python's string order). Amounts become `None` when falsy and
  `amount / 100` otherwise. The imperative loops are the methods
  `CollectBudgets`, `FinishBudgets` and `CollectBudget`. They are proved
  equal to the functions `GroupBudgets` and `SortByMonth`, whose properties
  are lemmas.
- **Error codes**: `test_connection_sync` (`Client.ConnectionCode`) and the
  config flow's `errors` mapping (`ConfigFlow.ErrorCode`, `ConfigFlow.StepUser`).
- **Sensors** (module `Sensors`): the setup defaults, entity names and
  unique ids, and the update transitions of the account and budget sensors.
  Both sensors are classes whose `Update` methods follow the pure
  transitions `AccountUpdate` and `BudgetUpdate`.

The budgeting library is an oracle throughout. The time, the outcome of
opening and validating a session, and the rows and categories the library
returns are all parameters. The clock counts whole seconds. Money is an exact
count of hundredths (`Budgets.Hundredths`).

The model follows the code as written in two places where its result is
surprising:

- **Budget sensors.** A `Budget` has the fields `name`, `amounts` and
  `balance`. The sensor platform, however, reads `budget.amount`.
  - At setup that read raises as soon as any budget exists, after the
    account sensors were added (`Sensors.SetupEntry`).
  - The budget sensor's update passes `get_budget` one argument more than it
    takes, and then reads `budget.amount` again. Every update therefore
    raises, marks the sensor unavailable and keeps its amount
    (`Sensors.BudgetUpdate`).
- **Config flow.** The rows of "## Findings" below cover two defects:
  - The form is only returned for submitted input.
  - The connection test's result is ignored.
- **Duplicate entries.** Home Assistant's `_abort_if_unique_id_configured`
  signals a duplicate by raising. The surrounding `except Exception` catches
  that like any other error, so the form shows "unknown" instead of the flow
  aborting. In `ConfigFlow.StepUser` this is the `registration` parameter
  holding `OtherFlowError`.

## Model

| member | source | states |
|---|---|---|
| `Client.CreateSession` | custom_components/actualbudget/actualbudget.py:91-104 | a new session is returned exactly when opening succeeds and validation reports `validated`; a `false` validation raises "Session not validated", other errors propagate |
| `Client.GetSessionStep` | custom_components/actualbudget/actualbudget.py:61-89 | a non-expired session that validates is kept with its start time; otherwise the call's outcome is that of creating one; on success a session is held and its `.session` returned, and the start time is `now` exactly when one was created; on failure no session is held and the start time is unchanged |
| `Client.ExpiredSkipsValidation` | custom_components/actualbudget/actualbudget.py:64-72 | a session with `start + 30 min < now` is dropped before validation: the validation outcome cannot affect the call |
| `Client.FailedValidationReplaces` | custom_components/actualbudget/actualbudget.py:74-82 | a live session whose validation returns false or raises is discarded, and the call behaves as with no session |
| `Client.NoSessionCreates` | custom_components/actualbudget/actualbudget.py:84-87 | without a session the call returns or raises what creating one does |
| `Client.SecondCallReuses` | custom_components/actualbudget/actualbudget.py:61-89 | after a successful call, any call up to 30 minutes after the session's start (`now <= start + 1800`) whose validation succeeds keeps the session and its start time and returns the same session |
| `Client.LateCallRenews` | custom_components/actualbudget/actualbudget.py:64-72 | a held session more than 30 minutes old is dropped: the call behaves as with no session, keeping the old start time unless a new session is created |
| `Client.ActualBudget.constructor` | custom_components/actualbudget/actualbudget.py:48-57 | a new client holds no session and its start time is the clock |
| `Client.ActualBudget.GetSession` | custom_components/actualbudget/actualbudget.py:61-89 | the imperative field updates yield exactly the state and result of `GetSessionStep` |
| `Client.ActualBudget.GetAccountsSync` | custom_components/actualbudget/actualbudget.py:110-114 | after the session step, its exception, else what `get_accounts` raised, else the accounts copied unchanged |
| `Client.AccountOrNotFound` | custom_components/actualbudget/actualbudget.py:128-131 | a found account is returned unchanged; a missing one raises "Account ... not found" |
| `Client.ActualBudget.GetAccountSync` | custom_components/actualbudget/actualbudget.py:122-131 | after the session step, its exception, else what `get_account` raised, else the account found or a not-found error |
| `Client.ActualBudget.GetBudgetsSync` | custom_components/actualbudget/actualbudget.py:137-161 | after the session step, its exception, else what `get_budgets` raised, else the exception of the first category (in key order) whose `get_category` raises, else exactly the grouping `GroupBudgets` |
| `Client.ActualBudget.GetBudgetSync` | custom_components/actualbudget/actualbudget.py:169-186 | after the session step, its exception, else what `get_budgets` raised, else "not found" when there are no rows, else what `get_category` raised, else every row's amount sorted by month under the requested name with the category's balance or 0 |
| `Client.ConnectionCode` | custom_components/actualbudget/actualbudget.py:191-208 | SSLError gives "failed_ssl" (before its superclass), ConnectionError "failed_connection", AuthorizationError "failed_auth", UnknownFileId/InvalidFile/InvalidZipFile or a falsy session "failed_file", a session `None`, each in both directions; any other exception propagates |
| `Client.ActualBudget.TestConnectionSync` | custom_components/actualbudget/actualbudget.py:191-208 | session step, then the code `ConnectionCode` assigns to its outcome |
| `Budgets.NormaliseAmount` | custom_components/actualbudget/actualbudget.py:146 | a missing or zero amount becomes `None`, any other the same number of hundredths |
| `Budgets.BalanceOf` | custom_components/actualbudget/actualbudget.py:157-160 | the category's balance when the lookup finds it, else 0 |
| `Budgets.SortByMonth` | custom_components/actualbudget/actualbudget.py:153-156 | the result is ordered by month, is a permutation of the input, and keeps the input order within each month (stable) |
| `Text.LexLeTotal` | custom_components/actualbudget/actualbudget.py:154-156 | Python's string order used as the sort key is total (with `LexLeReflexive`, `LexLeTransitive`, `LexLeAntisymmetric`) |
| `Text.LexLeTransitive` | custom_components/actualbudget/actualbudget.py:154-156 | the month order is transitive |
| `Budgets.CategoryNames` | custom_components/actualbudget/actualbudget.py:148-151 | the dict's keys never repeat |
| `Budgets.CategoryNamesListed` | custom_components/actualbudget/actualbudget.py:142-151 | a name is a key exactly when some row has that category; rows without a category add none |
| `Budgets.CollectBudgets` | custom_components/actualbudget/actualbudget.py:140-161 | the two loops over the insertion-ordered dict fail exactly when some category's lookup raises, with the first such exception in key order, and otherwise compute exactly `GroupBudgets` |
| `Budgets.GroupRows` | custom_components/actualbudget/actualbudget.py:142-152 | the first loop leaves the categories with rows as the dict's keys, in first-occurrence order, each holding its rows' amounts in row order and balance 0 |
| `Budgets.FinishBudgets` | custom_components/actualbudget/actualbudget.py:153-161 | the second loop ends with the exception of the first category whose lookup raises; otherwise it turns each group into its sorted, priced budget, in key order |
| `Budgets.FinishGroup` | custom_components/actualbudget/actualbudget.py:153-160 | one category: its amounts sorted by month and its balance looked up, exactly the finished budget |
| `Budgets.FirstFailureIsFirst` | custom_components/actualbudget/actualbudget.py:153-157 | the failure the loop reports is that of the earliest category whose lookup raises, and there is none exactly when no lookup raises |
| `Budgets.GroupBudgets` | custom_components/actualbudget/actualbudget.py:161 | one budget per category with rows, named after it, in the dict's key order |
| `Budgets.GroupedBudget` | custom_components/actualbudget/actualbudget.py:142-161 | each group is named by a category that has rows; its amounts are a permutation of those rows' amounts, sorted by month, stable; its balance is the category's or 0 |
| `Budgets.GroupNamesDistinct` | custom_components/actualbudget/actualbudget.py:148-151 | no two groups share a name |
| `Budgets.EveryCategoryGrouped` | custom_components/actualbudget/actualbudget.py:142-152 | every row with a category has a group of that name |
| `Budgets.GroupOrderIsFirstOccurrence` | custom_components/actualbudget/actualbudget.py:148-151 | groups appear in the order of their categories' first rows |
| `Budgets.GroupedAmountCount` | custom_components/actualbudget/actualbudget.py:142-152 | the groups hold exactly as many amounts as there are rows with a category |
| `Budgets.AllAmounts` | custom_components/actualbudget/actualbudget.py:179-182 | `get_budget_sync` turns every row, in order, into one amount |
| `Budgets.CollectBudget` | custom_components/actualbudget/actualbudget.py:175-186 | no rows raise "budget ... not found"; otherwise a raising `get_category` raises on; otherwise every row's amount sorted by month, the requested name, the category's balance or 0 |
| `Entry.NormaliseCert` | custom_components/actualbudget/sensor.py:52-57 | "SKIP" becomes `False`, an absent certificate stays `None`, any other value is passed through |
| `Text.Lower` | custom_components/actualbudget/sensor.py:148-156 | `.lower()` keeps the length, turns each upper-case letter into its lower-case letter (code point + 32), changes nothing else, and leaves no upper-case letter |
| `Text.DecimalRoundTrip` | custom_components/actualbudget/sensor.py:61-63 | the port formatted into the source id reads back as the same number |
| `Text.Decimal` | custom_components/actualbudget/sensor.py:61-63 | an `int` port in an f-string is a non-empty string of decimal digits, one digit exactly below 10 |
| `Entry.ShowPort` | custom_components/actualbudget/sensor.py:61-63 | a missing port prints as "None", a present one as digits only, so the two never coincide |
| `Sensors.UniqueSourceId` | custom_components/actualbudget/sensor.py:61-63 | the source id is the host name, "_", the port, "_", the file id |
| `Sensors.UniqueSourceIdParts` | custom_components/actualbudget/sensor.py:61-63 | the source id starts with the host name and ends with the file id |
| `Sensors.UniqueSourceIdSeparatesPorts` | custom_components/actualbudget/sensor.py:61-63 | two ports of one host and file give two source ids |
| `Sensors.SettingsOf` | custom_components/actualbudget/sensor.py:48-63 | the unit defaults to "€" when absent, a "SKIP" certificate becomes `False`, the prefix is passed on, the source id is `"{hostname}_{port}_{file}"` |
| `Sensors.SetupEntry` | custom_components/actualbudget/sensor.py:42-101 | one account sensor per account, with that account's name and balance and the entry's settings; setup succeeds only when the URL parses, the accounts load and there are no budgets |
| `Sensors.EntityName` | custom_components/actualbudget/sensor.py:140-146 | the bare name without a truthy prefix; otherwise the prefix, "_" and the name ("None" for a missing name) |
| `Sensors.EntityNameInjective` | custom_components/actualbudget/sensor.py:235-241 | under one prefix, different names give different entity names (both sensor classes) |
| `Sensors.EntityUniqueId` | custom_components/actualbudget/sensor.py:148-156 | the unique id contains no upper-case letter |
| `Sensors.EntityUniqueIdParts` | custom_components/actualbudget/sensor.py:148-156 | the id is the lower-cased "actualbudget-{source}-", then the lower-cased "{prefix}-" only when the prefix is truthy, then the lower-cased name |
| `Sensors.EntityUniqueIdEndsWithName` | custom_components/actualbudget/sensor.py:148-156 | the id ends with the lower-cased name, after at least the domain, the source id and two separators |
| `Sensors.EntityUniqueIdShape` | custom_components/actualbudget/sensor.py:243-250 | the unique id starts with "actualbudget-" |
| `Sensors.EntityUniqueIdIsLower` | custom_components/actualbudget/sensor.py:243-250 | the unique id is already lower case: lower-casing it again changes nothing |
| `Sensors.EntityUniqueIdIgnoresCase` | custom_components/actualbudget/sensor.py:151-156 | names that differ only in letter case get the same unique id |
| `Sensors.EntityUniqueIdSeparatesNames` | custom_components/actualbudget/sensor.py:151-156 | conversely, equal ids under one source and prefix mean names equal up to letter case: distinct names get distinct ids |
| `Sensors.AccountUpdate` | custom_components/actualbudget/sensor.py:184-197 | a fetched account sets the state to its balance; an exception makes the sensor unavailable and keeps the state; nothing makes it available |
| `Sensors.AvailableUntilFirstFailure` | custom_components/actualbudget/sensor.py:184-197 | after any run of updates the sensor is available exactly when it was before and no update raised: unavailability is permanent |
| `Sensors.ValueIsLastBalance` | custom_components/actualbudget/sensor.py:184-190 | after a run the state is the balance of the last fetched account, or unchanged when every update raised |
| `Sensors.AccountSensor.constructor` | custom_components/actualbudget/sensor.py:107-138 | a new account sensor has state `None` and is available; the balance is stored but is not the state |
| `Sensors.AccountSensor.Name` | custom_components/actualbudget/sensor.py:140-146 | the account name without a truthy prefix, else "{prefix}_{name}" |
| `Sensors.AccountSensor.UniqueId` | custom_components/actualbudget/sensor.py:148-156 | no upper-case letter, ending with the lower-cased account name after the domain and source id |
| `Sensors.AccountSensor.Update` | custom_components/actualbudget/sensor.py:184-197 | the fields change exactly as `AccountUpdate` says |
| `Sensors.BudgetUpdate` | custom_components/actualbudget/sensor.py:283-296 | every update, as written, makes the budget sensor unavailable and keeps its amount |
| `Sensors.BudgetSensor.constructor` | custom_components/actualbudget/sensor.py:203-233 | a new budget sensor's state is the constructor amount and it is available |
| `Sensors.BudgetSensor.Name` | custom_components/actualbudget/sensor.py:235-241 | the category name without a truthy prefix, else "{prefix}_{name}" |
| `Sensors.BudgetSensor.UniqueId` | custom_components/actualbudget/sensor.py:243-250 | no upper-case letter, ending with the lower-cased category name after the domain and source id |
| `Sensors.BudgetSensor.ExtraStateAttributes` | custom_components/actualbudget/sensor.py:278-281 | the extra attributes are empty |
| `Sensors.BudgetSensor.Update` | custom_components/actualbudget/sensor.py:283-296 | the fields change exactly as `BudgetUpdate` says |
| `ConfigFlow.SchemaDefaults` | custom_components/actualbudget/config_flow.py:28-38 | each field once; defaults only for the unit ("€") and the prefix ("actualbudget"); endpoint, password, file and unit required |
| `ConfigFlow.EntryUniqueId` | custom_components/actualbudget/config_flow.py:54-56 | the entry's unique id is exactly the lower-cased endpoint, "_", the lower-cased file, with no upper-case letter |
| `ConfigFlow.EntryUniqueIdIgnoresCase` | custom_components/actualbudget/config_flow.py:54-56 | submissions differing only in letter case get the same unique id |
| `ConfigFlow.Title` | custom_components/actualbudget/config_flow.py:74-77 | the title is the host name, ":", the port, " ", the file id (missing parts print as "None") |
| `ConfigFlow.ConnectionArgsOf` | custom_components/actualbudget/config_flow.py:57-72 | the test gets the form's values; "SKIP" becomes `False`, absent stays `None`, any other certificate is passed through |
| `ConfigFlow.ErrorCode` | custom_components/actualbudget/config_flow.py:79-85 | CannotConnect gives "cannot_connect", InvalidAuth "invalid_auth", anything else "unknown", each in both directions |
| `ConfigFlow.StepUser` | custom_components/actualbudget/config_flow.py:47-90 | with input, an entry (the input unchanged, its unique id and title) is created exactly when the URL parses, no framework call raises and the test does not raise, whatever code it returns; otherwise the form is shown with one "base" error of the failing step |
| `ConfigFlow.ClientTest` | custom_components/actualbudget/config_flow.py:92-95 | the test through a fresh client never raises CannotConnect or InvalidAuth, and returns `None` exactly when a session with a truthy `.session` is created |
| `ConfigFlow.OnlyUnknownWithClient` | custom_components/actualbudget/config_flow.py:79-85 | with the real client the only error the form can show is "unknown" |
| `ConfigFlow.FirstStepShowsNoForm` | custom_components/actualbudget/config_flow.py:52-90 | a call with no input returns nothing, not a form |
| `ConfigFlow.FailedTestStillCreatesEntry` | custom_components/actualbudget/config_flow.py:70-77 | an SSL failure yields "failed_ssl" from the test, and the entry is created anyway |
| `ConfigFlow.StepUserFixed` | custom_components/actualbudget/config_flow.py:47-90 | always a result; the empty form with no input; a code returned by the test is shown as the form's "base" error; any outcome other than `None` shows a form; an entry only when the test returns `None`, and then the same one as `StepUser` |
| `ConfigFlow.FixedFirstStepShowsForm` | custom_components/actualbudget/config_flow.py:52-90 | with no input the empty form is shown |
| `ConfigFlow.FixedCreatesOnlyOnCleanTest` | custom_components/actualbudget/config_flow.py:70-77 | an entry exactly when the client's test returns `None`; an SSL failure shows "failed_ssl" |

## Left out

- Concurrency: the `threading.Lock` around each `*_sync` method, the async wrappers and `async_add_executor_job`. Each `*_sync` method is one sequential operation.
- Home Assistant plumbing: entity base classes, `async_add_entities`, config-entry storage, `async_set_unique_id` and `_abort_if_unique_id_configured`. What these two calls raise is a parameter of `ConfigFlow.StepUser`.
- The budgeting library (`Actual`, `validate`, `get_accounts`, `get_account`, `get_budgets`, `get_category`) and `requests`. What each call returns or raises is a parameter. For `get_category` that is a map of balances plus a map of the names whose lookup raises. Closing an expired session is not modelled, because its errors are swallowed.
- In the second loop of `get_budgets_sync`, the model checks for a raising lookup before sorting the category's amounts. The source sorts first. The sorted list is discarded when the lookup raises, so the result is the same.
- A session object that is entered but fails validation in `create_session` is never closed. The model does not track open library objects.
- `urlparse` and the clock (`datetime.now`, `date.today`) are parameters. A port that cannot be read is `None` in `ParsedUrl`'s place.
- Truthiness: `Actual` objects, library rows, `Account` and `Budget` values are taken to be always truthy. The check `not budgets_raw[0]` therefore reduces to "no rows".
- Logging, voluptuous validation, and the constant properties `icon`, `device_class`, `state_class` and `unit_of_measurement`.
- `SCAN_INTERVAL`.
- custom_components/const.py is not part of this model. Its key strings are not used, and `DOMAIN` is the integration's directory name.
- custom_components/sensor.py (an older copy of the sensor platform) and custom_components/__init__.py (platform forwarding) are not part of this model.
- Budgets.NormaliseAmount: keeps `amount / 100` exact, as hundredths, where the source produces a float. `Decimal` balances are also exact hundredths.
- Text.Lower: lower-cases ASCII letters only, where Python's `str.lower` applies full Unicode case mapping.

## Findings

| source | as written | input that shows it | evidently intended | confidence | as-written member | corrected member |
|---|---|---|---|---|---|---|
| custom_components/actualbudget/config_flow.py:52-90 | `return self.async_show_form(...)` is inside `if user_input is not None:`, so the first call returns `None` instead of a form | `user_input=None` | show the empty form | medium, not executed | `ConfigFlow.FirstStepShowsNoForm` | `ConfigFlow.FixedFirstStepShowsForm` |
| custom_components/actualbudget/config_flow.py:70-77 | the code returned by the connection test is discarded. Only `CannotConnect` and `InvalidAuth` would show an error, and nothing raises them | opening the session raises `SSLError`: the test returns "failed_ssl" and the entry is created | show the form with the returned code | medium, not executed | `ConfigFlow.FailedTestStillCreatesEntry` | `ConfigFlow.FixedCreatesOnlyOnCleanTest` |
