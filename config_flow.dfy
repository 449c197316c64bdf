/** The user step of the config flow: from the submitted form to either a
    new config entry or the form shown again with an error code. */
module ConfigFlow {
  import opened Wrappers
  import opened Exceptions
  import opened Entry
  import Text
  import Client

  /** The form's fields; the key strings themselves live in const.py, which is
      not part of this model. */
  datatype Field = EndpointField | PasswordField | FileField | UnitField | CertField | EncryptPasswordField | PrefixField

  datatype SchemaField = SchemaField(key: Field, required: bool, default: Option<string>)

  const DEFAULT_UNIT := "€"
  const DEFAULT_PREFIX := "actualbudget"

  /** `DATA_SCHEMA`: which fields are required and which have a default. */
  const DATA_SCHEMA: seq<SchemaField> := [
    SchemaField(EndpointField, true, None),
    SchemaField(PasswordField, true, None),
    SchemaField(FileField, true, None),
    SchemaField(UnitField, true, Some(DEFAULT_UNIT)),
    SchemaField(CertField, false, None),
    SchemaField(EncryptPasswordField, false, None),
    SchemaField(PrefixField, false, Some(DEFAULT_PREFIX))
  ]

  /** Each field appears once; only the unit and the prefix have defaults,
      and the endpoint, password, file and unit are required. */
  lemma SchemaDefaults()
    ensures forall i, j :: 0 <= i < j < |DATA_SCHEMA| ==> DATA_SCHEMA[i].key != DATA_SCHEMA[j].key
    ensures forall i :: 0 <= i < |DATA_SCHEMA| ==>
      DATA_SCHEMA[i].default
        == if DATA_SCHEMA[i].key == UnitField then Some("€")
           else if DATA_SCHEMA[i].key == PrefixField then Some("actualbudget")
           else None
    ensures forall i :: 0 <= i < |DATA_SCHEMA| ==>
      (DATA_SCHEMA[i].required <==> DATA_SCHEMA[i].key in {EndpointField, PasswordField, FileField, UnitField})
  {
  }

  /** The exceptions the step catches by name, and everything else. */
  datatype FlowError = CannotConnect | InvalidAuth | OtherFlowError

  /** What `_test_connection` did: returned a value (the client's code), or raised. */
  datatype TestOutcome = TestReturned(code: Option<string>) | TestRaised(error: FlowError)

  /** The arguments the connection test is given. */
  datatype ConnectionArgs = ConnectionArgs(endpoint: string, password: string, file: string, cert: Cert, encryptPassword: Option<string>)

  datatype FlowResult =
    | NoResult                                                 // the handler returns None
    | CreateEntry(uniqueId: string, title: string, data: EntryData)
    | ShowForm(errors: map<string, string>)

  /** `endpoint.lower() + "_" + file.lower()`. */
  function EntryUniqueId(data: EntryData): (r: string)
    ensures |r| == |data.endpoint| + 1 + |data.file|
    ensures forall i :: 0 <= i < |r| ==> !Text.IsUpper(r[i])
    ensures r[|data.endpoint|] == '_'
    ensures r[..|data.endpoint|] == Text.Lower(data.endpoint)
    ensures r[|data.endpoint| + 1..] == Text.Lower(data.file)
  {
    Text.Lower(data.endpoint) + "_" + Text.Lower(data.file)
  }

  /** Two submissions whose endpoint and file differ only in letter case are
      the same entry. */
  lemma EntryUniqueIdIgnoresCase(a: EntryData, b: EntryData)
    requires Text.Lower(a.endpoint) == Text.Lower(b.endpoint) && Text.Lower(a.file) == Text.Lower(b.file)
    ensures EntryUniqueId(a) == EntryUniqueId(b)
  {
  }

  /** `f"{domain}:{port} {file}"`. */
  function Title(url: ParsedUrl, file: string): (r: string)
    ensures var h, p := Show(url.hostname), ShowPort(url.port);
      && |r| == |h| + |p| + |file| + 2
      && r[..|h|] == h && r[|h|] == ':'
      && r[|h| + 1..|h| + 1 + |p|] == p && r[|h| + 1 + |p|] == ' '
      && r[|r| - |file|..] == file
  {
    Show(url.hostname) + ":" + ShowPort(url.port) + " " + file
  }

  /** The connection test gets the form's values, with a "SKIP" certificate
      turned into `False` and any other one, absent included, passed on. */
  function ConnectionArgsOf(data: EntryData): (r: ConnectionArgs)
    ensures r.endpoint == data.endpoint && r.password == data.password && r.file == data.file
    ensures r.encryptPassword == data.encryptPassword
    ensures r.cert == CertDisabled <==> data.cert == Some(SKIP_CERT)
    ensures r.cert == CertAbsent <==> data.cert.None?
    ensures r.cert.CertPath? ==> data.cert == Some(r.cert.path)
  {
    ConnectionArgs(data.endpoint, data.password, data.file, NormaliseCert(data.cert), data.encryptPassword)
  }

  /** The `errors["base"]` code of a caught exception. */
  function ErrorCode(e: FlowError): (r: string)
    ensures r == "cannot_connect" <==> e == CannotConnect
    ensures r == "invalid_auth" <==> e == InvalidAuth
    ensures r == "unknown" <==> e == OtherFlowError
  {
    match e
    case CannotConnect => "cannot_connect"
    case InvalidAuth => "invalid_auth"
    case OtherFlowError => "unknown"
  }

  /** `async_step_user`, given the submitted form (`None` on the first call),
      what `urlparse` yields (`None` when reading the port raises), what the
      two unique-id framework calls raise, if anything, and the connection
      test. As written the form is shown only for a submitted input, and the
      value the connection test returns is discarded. */
  function StepUser(input: Option<EntryData>, url: Option<ParsedUrl>, registration: Option<FlowError>,
                    test: ConnectionArgs -> TestOutcome): (r: FlowResult)
    ensures input.None? <==> r == NoResult
    ensures r.CreateEntry? <==>
      input.Some? && url.Some? && registration.None? && test(ConnectionArgsOf(input.value)).TestReturned?
    ensures r.CreateEntry? ==>
      r.data == input.value && r.uniqueId == EntryUniqueId(input.value) && r.title == Title(url.value, input.value.file)
    ensures r.ShowForm? ==> r.errors.Keys == {"base"} && r.errors["base"] in {"cannot_connect", "invalid_auth", "unknown"}
    ensures input.Some? && url.None? ==> r == ShowForm(map["base" := "unknown"])
    ensures input.Some? && url.Some? && registration.Some? ==> r == ShowForm(map["base" := ErrorCode(registration.value)])
    ensures input.Some? && url.Some? && registration.None? && test(ConnectionArgsOf(input.value)).TestRaised? ==>
      r == ShowForm(map["base" := ErrorCode(test(ConnectionArgsOf(input.value)).error)])
  {
    match input
    case None => NoResult
    case Some(data) =>
      match url
      case None => ShowForm(map["base" := ErrorCode(OtherFlowError)])
      case Some(u) =>
        if registration.Some? then ShowForm(map["base" := ErrorCode(registration.value)])
        else
          match test(ConnectionArgsOf(data))
          case TestRaised(e) => ShowForm(map["base" := ErrorCode(e)])
          case TestReturned(_) => CreateEntry(EntryUniqueId(data), Title(u, data.file), data)
  }

  // ---------------------------------------------------------------------
  // The connection test as the client performs it

  /** `_test_connection` builds a fresh client and runs its connection test:
      a returned code is passed back; an exception the client lets through is
      none of the two the step names. */
  function ClientTest(startedAt: int, o: Client.SessionOracle): (r: TestOutcome)
    ensures r != TestRaised(CannotConnect) && r != TestRaised(InvalidAuth)
    ensures r == TestReturned(None) <==>
      Client.CreateSession(o.opening, o.creationCheck).Success? && Client.CreateSession(o.opening, o.creationCheck).value.session.Some?
  {
    match Client.ConnectionCode(Client.GetSessionStep(Client.SessionState(None, startedAt), o).result)
    case Success(code) => TestReturned(code)
    case Failure(_) => TestRaised(OtherFlowError)
  }

  /** With the real client the step never reports "cannot_connect" or
      "invalid_auth": the only code it can show is "unknown". */
  lemma OnlyUnknownWithClient(input: Option<EntryData>, url: Option<ParsedUrl>, startedAt: int, o: Client.SessionOracle)
    ensures var r := StepUser(input, url, None, (args: ConnectionArgs) => ClientTest(startedAt, o));
      r.ShowForm? ==> r.errors == map["base" := "unknown"]
  {
  }

  // ---------------------------------------------------------------------
  // The step as written, and as evidently intended

  /** As written, the first call, with no input, returns no form at all. */
  lemma FirstStepShowsNoForm(url: Option<ParsedUrl>, registration: Option<FlowError>, test: ConnectionArgs -> TestOutcome)
    ensures StepUser(None, url, registration, test) == NoResult
  {
  }

  /** As written, a server that fails the TLS handshake still gets an entry:
      the test's "failed_ssl" is discarded. */
  lemma FailedTestStillCreatesEntry(data: EntryData, u: ParsedUrl, startedAt: int, o: Client.SessionOracle)
    requires o.opening == Failure(SSLError)
    ensures ClientTest(startedAt, o) == TestReturned(Some(Client.FAILED_SSL))
    ensures StepUser(Some(data), Some(u), None, (args: ConnectionArgs) => ClientTest(startedAt, o)).CreateEntry?
  {
  }

  /** The step with the form shown on the first call (with no errors) and with
      a code returned by the connection test shown as the form's error. */
  function StepUserFixed(input: Option<EntryData>, url: Option<ParsedUrl>, registration: Option<FlowError>,
                         test: ConnectionArgs -> TestOutcome): (r: FlowResult)
    ensures r != NoResult
    ensures input.None? ==> r == ShowForm(map[])
    ensures r.CreateEntry? <==>
      input.Some? && url.Some? && registration.None? && test(ConnectionArgsOf(input.value)) == TestReturned(None)
    ensures input.Some? && url.Some? && registration.None? && test(ConnectionArgsOf(input.value)) == TestReturned(None) ==>
      r == StepUser(input, url, registration, test)
    ensures input.Some? && url.Some? && registration.None? && test(ConnectionArgsOf(input.value)).TestReturned?
            && test(ConnectionArgsOf(input.value)).code.Some? ==>
      r == ShowForm(map["base" := test(ConnectionArgsOf(input.value)).code.value])
    ensures input.Some? && test(ConnectionArgsOf(input.value)) != TestReturned(None) ==> r.ShowForm?
  {
    match input
    case None => ShowForm(map[])
    case Some(data) =>
      match test(ConnectionArgsOf(data))
      case TestReturned(Some(code)) =>
        if url.Some? && registration.None? then ShowForm(map["base" := code])
        else StepUser(input, url, registration, test)
      case _ => StepUser(input, url, registration, test)
  }

  /** The intended first step: the empty form. */
  lemma FixedFirstStepShowsForm(url: Option<ParsedUrl>, registration: Option<FlowError>, test: ConnectionArgs -> TestOutcome)
    ensures StepUserFixed(None, url, registration, test) == ShowForm(map[])
  {
  }

  /** The intended test handling: the client's failure code reaches the form. */
  lemma FixedCreatesOnlyOnCleanTest(data: EntryData, u: ParsedUrl, startedAt: int, o: Client.SessionOracle)
    ensures var r := StepUserFixed(Some(data), Some(u), None, (args: ConnectionArgs) => ClientTest(startedAt, o));
      && (r.CreateEntry? <==> ClientTest(startedAt, o) == TestReturned(None))
      && (o.opening == Failure(SSLError) ==> r == ShowForm(map["base" := Client.FAILED_SSL]))
  {
  }
}
