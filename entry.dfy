/** The data of a config entry (the form's `user_input`, later the entry's
    `data`) and the small normalisations both the config flow and the sensor
    platform apply to it. */
module Entry {
  import opened Wrappers
  import Text

  /** The value handed to the client as its certificate: a path, `False`
      (verification switched off) or `None` (not given). */
  datatype Cert = CertPath(path: string) | CertDisabled | CertAbsent

  /** The fields of the entry. Endpoint, password and file are required by
      the form; the others may be missing. */
  datatype EntryData = EntryData(
    endpoint: string,
    password: string,
    file: string,
    unit: Option<string>,
    cert: Option<string>,
    encryptPassword: Option<string>,
    prefix: Option<string>)

  /** What `urlparse(endpoint)` yields for the two attributes the integration
      reads: `hostname` and `port`, each possibly `None`. */
  datatype ParsedUrl = ParsedUrl(hostname: Option<string>, port: Option<nat>)

  const SKIP_CERT := "SKIP"

  /** `cert = config.get(CERT); if cert == "SKIP": cert = False`. */
  function NormaliseCert(cert: Option<string>): (r: Cert)
    ensures r == CertDisabled <==> cert == Some(SKIP_CERT)
    ensures r == CertAbsent <==> cert.None?
    ensures r.CertPath? ==> cert == Some(r.path) && r.path != SKIP_CERT
  {
    match cert
    case None => CertAbsent
    case Some(c) => if c == SKIP_CERT then CertDisabled else CertPath(c)
  }

  /** Python truthiness of an optional string: `None` and `""` are false. */
  predicate Truthy(s: Option<string>) {
    s.Some? && s.value != ""
  }

  /** How an f-string shows an optional string: `None` prints as "None". */
  function Show(s: Option<string>): string {
    match s
    case None => "None"
    case Some(v) => v
  }

  /** How an f-string shows an optional port. */
  function ShowPort(p: Option<nat>): (r: string)
    ensures p.None? <==> r == "None"
    ensures p.Some? ==> |r| > 0 && forall i :: 0 <= i < |r| ==> Text.IsDigit(r[i])
  {
    match p
    case None => "None"
    case Some(n) =>
      assert Text.IsDigit(Text.Decimal(n)[0]) && !Text.IsDigit("None"[0]);
      Text.Decimal(n)
  }
}
