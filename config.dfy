/**
  * The daemon's configuration (src/daemon/config.rs): the parsed `Config`
  * value, the checks `verify` applies to it, the clamp `create` applies to
  * `ca_refresh_seconds`, the values derived from it, the string parsers of its
  * enumerations and the per-target log level caps of its logger.
  *
  * Reading the file, TOML, the command line, environment variables and the
  * loggers' I/O are outside the model: where their outcome matters it is a
  * parameter.
  */
module DaemonConfig {
  import opened Results

  // Rust integer widths of the modelled fields.
  type U16 = x: int | 0 <= x < 0x1_0000
  type U32 = x: int | 0 <= x < 0x1_0000_0000
  type I64 = x: int | -0x8000_0000_0000_0000 <= x < 0x8000_0000_0000_0000

  /** A `PathBuf`, as the sequence of its components. */
  type Path = seq<string>

  datatype LogType = Stderr | File | Syslog

  datatype HttpsMode = Existing | Generate

  /** The authentication scheme; `ConfigFile` and `OpenIDConnect` exist only in the multi-user build. */
  datatype AuthType = AdminToken | ConfigFile | OpenIDConnect

  /** `log::LevelFilter`, ordered from the most to the least restrictive. */
  datatype LevelFilter = Off | Error | Warn | Info | Debug | Trace {
    function Rank(): nat {
      match this
      case Off => 0
      case Error => 1
      case Warn => 2
      case Info => 3
      case Debug => 4
      case Trace => 5
    }
  }

  /** `log::Level`: the level a message is logged at, never `Off`. */
  type Level = l: LevelFilter | l != Off witness Error

  datatype ConfigError =
    | IoError(detail: string)
    | TomlError(detail: string)
    | RpkiUriError(detail: string)
    | Other(message: string)
  {
    /** The `Display` text: each variant shows what it carries. */
    function Display(): (text: string)
      ensures Other? ==> text == message
      ensures !Other? ==> text == detail
    {
      match this
      case IoError(d) => d
      case TomlError(d) => d
      case RpkiUriError(d) => d
      case Other(m) => m
    }
  }

  datatype IssuanceTimingConfig = IssuanceTimingConfig(
    publishNextHours: I64,
    publishNextJitterHours: I64,
    publishHoursBeforeNext: I64,
    childCertificateValidWeeks: I64,
    childCertificateReissueWeeksBefore: I64,
    roaValidWeeks: I64,
    roaReissueWeeksBefore: I64,
    aspaValidWeeks: I64,
    aspaReissueWeeksBefore: I64)

  /** The fields of `Config` that the modelled operations read or write. */
  datatype Config = Config(
    ip: string,                 // the `IpAddr` in its display form
    port: U16,
    httpsMode: HttpsMode,
    dataDir: Path,
    pidFile: Option<Path>,
    serviceUri: Option<string>, // the `uri::Https` as its text
    logLevel: LevelFilter,
    logType: LogType,
    authType: AuthType,
    authPrivateAttributes: seq<string>,
    caRefreshSeconds: U32,
    suspendChildAfterInactiveSeconds: Option<I64>,
    suspendChildAfterInactiveHours: Option<I64>,
    issuanceTiming: IssuanceTimingConfig)

  /** The crate constants CA_REFRESH_SECONDS_MIN, CA_REFRESH_SECONDS_MAX and CA_SUSPEND_MIN_HOURS. */
  datatype Limits = Limits(caRefreshSecondsMin: U32, caRefreshSecondsMax: U32, caSuspendMinHours: I64)

  // ConfigDefaults: the constant defaults.
  const DefaultIp := "127.0.0.1"
  const DefaultPort: U16 := 3000
  const DefaultHttpsMode := Generate
  const DefaultDataDir: Path := [".", "data"]
  const DefaultLogType := File
  const DefaultAuthType := AdminToken
  const DefaultCaRefreshSeconds: U32 := 600
  const DefaultIssuanceTiming := IssuanceTimingConfig(24, 4, 8, 52, 4, 52, 4, 52, 4)
  const DefaultConfigFile := "./defaults/krill.conf"
  const PidFileName := "krill.pid"

  //------------ Strings -------------------------------------------------------

  /** The number of occurrences of `c` in `s` (`s.matches(c).count()`). */
  function CountChar(s: string, c: char): (n: nat)
    ensures n <= |s|
    ensures n == 0 <==> c !in s
  {
    if s == [] then 0
    else
      assert c in s <==> s[0] == c || c in s[1..];
      (if s[0] == c then 1 else 0) + CountChar(s[1..], c)
  }

  lemma {:induction false} CountCharAppend(a: string, b: string, c: char)
    ensures CountChar(a + b, c) == CountChar(a, c) + CountChar(b, c)
  {
    if a != [] {
      assert (a + b)[1..] == a[1..] + b;
      CountCharAppend(a[1..], b, c);
    } else {
      assert a + b == b;
    }
  }

  function DigitChar(d: nat): (c: char)
    requires d < 10
    ensures '0' <= c <= '9'
  {
    ('0' as int + d) as char
  }

  /** The decimal rendering of a natural number, as `format!("{}", n)` writes it. */
  function Decimal(n: nat): (s: string)
    ensures |s| > 0
    ensures forall i :: 0 <= i < |s| ==> '0' <= s[i] <= '9'
  {
    if n < 10 then [DigitChar(n)] else Decimal(n / 10) + [DigitChar(n % 10)]
  }

  function IntDecimal(i: int): string {
    if i < 0 then "-" + Decimal(-i) else Decimal(i)
  }

  //------------ verify ------------------------------------------------------

  /** What `verify` demands of a service URI: it ends with '/' and holds exactly three '/'. */
  predicate ServiceUriWellFormed(uri: string) {
    |uri| > 0 && uri[|uri| - 1] == '/' && CountChar(uri, '/') == 3
  }

  /** The publication, certificate and ROA timings `verify` accepts; ASPA timings are not constrained. */
  predicate TimingValid(t: IssuanceTimingConfig) {
    && t.publishNextHours >= 2
    && 0 <= t.publishNextJitterHours <= t.publishNextHours / 2
    && 1 <= t.publishHoursBeforeNext < t.publishNextHours
    && t.childCertificateValidWeeks >= 2
    && 1 <= t.childCertificateReissueWeeksBefore < t.childCertificateValidWeeks
    && t.roaValidWeeks >= 2
    && 1 <= t.roaReissueWeeksBefore < t.roaValidWeeks
  }

  /** Every requirement of `verify`, stated at once. */
  predicate Valid(c: Config, limits: Limits) {
    && c.port >= 1024
    && (c.serviceUri.Some? ==> ServiceUriWellFormed(c.serviceUri.value))
    && TimingValid(c.issuanceTiming)
    && (c.suspendChildAfterInactiveHours.Some? ==> c.suspendChildAfterInactiveHours.value >= limits.caSuspendMinHours)
  }

  // The messages of `verify`, word for word.
  const PortMessage := "Port number must be >1024"
  const UriSlashMessage := "service URI must end with '/'"
  const UriHostMessage := "Service URI MUST specify a host name only, e.g. https://rpki.example.com:3000/"
  const NextHoursMessage := "timing_publish_next_hours must be at least 2"
  const JitterMinMessage := "timing_publish_next_jitter_hours must be at least 0"
  const JitterMaxMessage := "timing_publish_next_jitter_hours must be at most timing_publish_next_hours divided by 2"
  const BeforeNextMinMessage := "timing_publish_hours_before_next must be at least 1"
  const BeforeNextMaxMessage := "timing_publish_hours_before_next must be smaller than timing_publish_hours"
  const ChildValidMessage := "timing_child_certificate_valid_weeks must be at least 2"
  const ChildReissueMinMessage := "timing_child_certificate_reissue_weeks_before must be at least 1"
  const ChildReissueMaxMessage := "timing_child_certificate_reissue_weeks_before must be smaller than timing_child_certificate_valid_weeks"
  const RoaValidMessage := "timing_roa_valid_weeks must be at least 2"
  const RoaReissueMinMessage := "timing_roa_reissue_weeks_before must be at least 1"
  const RoaReissueMaxMessage := "timing_roa_reissue_weeks_before must be smaller than timing_roa_valid_week"

  function SuspendMinMessage(minHours: int): string {
    "suspend_child_after_inactive_hours must be " + IntDecimal(minHours) + " or higher (or not set at all)"
  }

  /**
    * `Config::verify`: the checks in source order, each returning the first
    * failure. The division is only reached with `publishNextHours >= 2`, where
    * Rust's truncating division and Dafny's agree.
    */
  function Verify(c: Config, limits: Limits): (r: Result<(), ConfigError>)
    ensures r.Success? <==> Valid(c, limits)
    ensures c.port < 1024 ==> r == Failure(Other(PortMessage))
    ensures r.Failure? ==> r.error.Other?
  {
    var t := c.issuanceTiming;
    if c.port < 1024 then
      Failure(Other(PortMessage))
    else if c.serviceUri.Some? && !(|c.serviceUri.value| > 0 && c.serviceUri.value[|c.serviceUri.value| - 1] == '/') then
      Failure(Other(UriSlashMessage))
    else if c.serviceUri.Some? && CountChar(c.serviceUri.value, '/') != 3 then
      Failure(Other(UriHostMessage))
    else if t.publishNextHours < 2 then
      Failure(Other(NextHoursMessage))
    else if t.publishNextJitterHours < 0 then
      Failure(Other(JitterMinMessage))
    else if t.publishNextJitterHours > t.publishNextHours / 2 then
      Failure(Other(JitterMaxMessage))
    else if t.publishHoursBeforeNext < 1 then
      Failure(Other(BeforeNextMinMessage))
    else if t.publishHoursBeforeNext >= t.publishNextHours then
      Failure(Other(BeforeNextMaxMessage))
    else if t.childCertificateValidWeeks < 2 then
      Failure(Other(ChildValidMessage))
    else if t.childCertificateReissueWeeksBefore < 1 then
      Failure(Other(ChildReissueMinMessage))
    else if t.childCertificateReissueWeeksBefore >= t.childCertificateValidWeeks then
      Failure(Other(ChildReissueMaxMessage))
    else if t.roaValidWeeks < 2 then
      Failure(Other(RoaValidMessage))
    else if t.roaReissueWeeksBefore < 1 then
      Failure(Other(RoaReissueMinMessage))
    else if t.roaReissueWeeksBefore >= t.roaValidWeeks then
      Failure(Other(RoaReissueMaxMessage))
    else if c.suspendChildAfterInactiveHours.Some? && c.suspendChildAfterInactiveHours.value < limits.caSuspendMinHours then
      Failure(Other(SuspendMinMessage(limits.caSuspendMinHours)))
    else
      Success(())
  }

  /** The port check accepts 1024 although its message reads ">1024"; 1023 is the largest rejected port. */
  lemma PortBoundary(c: Config, limits: Limits)
    requires Valid(c, limits)
    ensures Verify(c.(port := 1024), limits).Success?
    ensures Verify(c.(port := 1023), limits) == Failure(Other(PortMessage))
  {
  }

  /** The ASPA timings never influence `verify`. */
  lemma VerifyIgnoresAspaTimings(c: Config, limits: Limits, validWeeks: I64, reissueWeeksBefore: I64)
    ensures
      var t := c.issuanceTiming.(aspaValidWeeks := validWeeks, aspaReissueWeeksBefore := reissueWeeksBefore);
      Verify(c.(issuanceTiming := t), limits) == Verify(c, limits)
  {
  }

  //------------ Derived values -------------------------------------------------

  /** `republish_hours`: the hours between publishing and the next scheduled update, or 0. */
  function RepublishHours(c: Config): (h: int)
    ensures h >= 0
    ensures h > 0 <==> c.issuanceTiming.publishHoursBeforeNext < c.issuanceTiming.publishNextHours
    ensures h > 0 ==> h + c.issuanceTiming.publishHoursBeforeNext == c.issuanceTiming.publishNextHours
  {
    var t := c.issuanceTiming;
    if t.publishHoursBeforeNext < t.publishNextHours then t.publishNextHours - t.publishHoursBeforeNext else 0
  }

  /** After `verify`, there is at least one hour to republish in, and the value fits an i64 because it lies below `publishNextHours`. */
  lemma VerifiedRepublishHours(c: Config, limits: Limits)
    requires Verify(c, limits).Success?
    ensures 1 <= RepublishHours(c) < c.issuanceTiming.publishNextHours
  {
  }

  /**
    * `suspend_child_after_inactive_seconds`: the seconds field wins, else the
    * hours field in seconds, else nothing.
    */
  function SuspendChildAfterInactiveSeconds(c: Config): (r: Option<int>)
    ensures c.suspendChildAfterInactiveSeconds.Some? ==> r == Some(c.suspendChildAfterInactiveSeconds.value as int)
    ensures c.suspendChildAfterInactiveSeconds.None? && c.suspendChildAfterInactiveHours.Some? ==>
              r.Some? && r.value == c.suspendChildAfterInactiveHours.value * 3600
    ensures r.None? <==> c.suspendChildAfterInactiveSeconds.None? && c.suspendChildAfterInactiveHours.None?
  {
    match c.suspendChildAfterInactiveSeconds
    case Some(seconds) => Some(seconds as int)
    case None =>
      match c.suspendChildAfterInactiveHours
      case Some(hours) => Some(hours * 3600)
      case None => None
  }

  /** After `verify`, a suspension threshold set in hours is at least the minimum, in seconds. */
  lemma VerifiedSuspendThreshold(c: Config, limits: Limits)
    requires Verify(c, limits).Success?
    requires c.suspendChildAfterInactiveSeconds.None? && c.suspendChildAfterInactiveHours.Some?
    ensures SuspendChildAfterInactiveSeconds(c).Some?
    ensures SuspendChildAfterInactiveSeconds(c).value >= limits.caSuspendMinHours * 3600
  {
  }

  /** `test_ssl`: whether a self-signed certificate is generated. */
  function TestSsl(c: Config): (b: bool)
    ensures b <==> c.httpsMode == Generate
  {
    c.httpsMode == Generate
  }

  /** The `https_mode` text decides `test_ssl`: only "generate" enables it. */
  lemma TestSslFollowsParsedMode(c: Config, s: string)
    requires ParseHttpsMode(s).Success?
    ensures TestSsl(c.(httpsMode := ParseHttpsMode(s).value)) <==> s == "generate"
  {
  }

  /** `service_uri`: the configured URI, else one built from the address and port. */
  function ServiceUri(c: Config): (uri: string)
    ensures c.serviceUri.Some? ==> uri == c.serviceUri.value
    ensures c.serviceUri.None? && c.ip == DefaultIp ==> uri == LocalhostUriHead + Decimal(c.port) + "/"
    ensures c.serviceUri.None? && c.ip != DefaultIp ==> uri == UriScheme + c.ip + ":" + Decimal(c.port) + "/"
  {
    match c.serviceUri
    case Some(u) => u
    case None =>
      if c.ip == DefaultIp then LocalhostUriHead + Decimal(c.port) + "/"
      else UriScheme + c.ip + ":" + Decimal(c.port) + "/"
  }

  const UriScheme := "https:" + "//"
  const LocalhostUriHead := UriScheme + "localhost:"

  lemma UriSchemeSlashes()
    ensures CountChar(UriScheme, '/') == 2
  {
    assert '/' !in "https:";
    assert CountChar("//", '/') == 1 + CountChar("/", '/');
    CountCharAppend("https:", "//", '/');
  }

  lemma LocalhostUriHeadSlashes()
    ensures CountChar(LocalhostUriHead, '/') == 2
  {
    assert '/' !in "localhost:";
    UriSchemeSlashes();
    CountCharAppend(UriScheme, "localhost:", '/');
  }

  /** `head + digits + "/"` holds one '/' more than `head`, and ends with it. */
  lemma {:induction false} UriTailSlashes(head: string, port: nat)
    ensures CountChar(head + Decimal(port) + "/", '/') == CountChar(head, '/') + 1
  {
    var digits := Decimal(port);
    assert '/' !in digits;
    CountCharAppend(head, digits, '/');
    CountCharAppend(head + digits, "/", '/');
  }

  /**
    * The service URI derived when none is configured passes the URI checks
    * of `verify`, whenever the address text itself holds no '/'.
    */
  lemma DerivedServiceUriWellFormed(c: Config)
    requires c.serviceUri.None?
    requires '/' !in c.ip
    ensures ServiceUriWellFormed(ServiceUri(c))
  {
    if c.ip == DefaultIp {
      LocalhostUriHeadSlashes();
      UriTailSlashes(LocalhostUriHead, c.port);
    } else {
      var head := UriScheme + c.ip + ":";
      UriSchemeSlashes();
      CountCharAppend(UriScheme, c.ip, '/');
      CountCharAppend(UriScheme + c.ip, ":", '/');
      UriTailSlashes(head, c.port);
    }
  }

  /** `pid_file`: the configured file, else "krill.pid" inside the data directory. */
  function PidFile(c: Config): (p: Path)
    ensures c.pidFile.Some? ==> p == c.pidFile.value
    ensures c.pidFile.None? ==> |p| == |c.dataDir| + 1 && p[..|c.dataDir|] == c.dataDir && p[|c.dataDir|] == PidFileName
  {
    match c.pidFile
    case Some(file) => file
    case None => c.dataDir + [PidFileName]
  }

  //------------ create ------------------------------------------------------

  /** The two range checks of `create`, applied in order: raise to the minimum, then lower to the maximum. */
  function ClampCaRefreshSeconds(v: U32, limits: Limits): (w: U32)
    ensures limits.caRefreshSecondsMin <= limits.caRefreshSecondsMax ==>
              limits.caRefreshSecondsMin <= w <= limits.caRefreshSecondsMax
    ensures limits.caRefreshSecondsMin <= v <= limits.caRefreshSecondsMax ==> w == v
    ensures v < limits.caRefreshSecondsMin <= limits.caRefreshSecondsMax ==> w == limits.caRefreshSecondsMin
    ensures v > limits.caRefreshSecondsMax ==> w == limits.caRefreshSecondsMax
    ensures limits.caRefreshSecondsMax < limits.caRefreshSecondsMin ==> w == limits.caRefreshSecondsMax
  {
    var raised := if v < limits.caRefreshSecondsMin then limits.caRefreshSecondsMin else v;
    if raised > limits.caRefreshSecondsMax then limits.caRefreshSecondsMax else raised
  }

  function ParseErrorMessage(configFile: string, e: ConfigError): string {
    "Error parsing config file: " + configFile + ", error: " + e.Display()
  }

  const CannotFindMessage := "Cannot find config file. Please use --config to specify its location."

  /**
    * `Config::create`. The outcome of reading and parsing the file and the
    * outcome of initialising logging are parameters; the config is then
    * clamped in place and verified.
    */
  method Create(configFile: string, read: Result<Config, ConfigError>, initLogging: Result<(), ConfigError>, limits: Limits)
    returns (r: Result<Config, ConfigError>)
    ensures read.Failure? && configFile == DefaultConfigFile ==> r == Failure(Other(CannotFindMessage))
    ensures read.Failure? && configFile != DefaultConfigFile ==> r == Failure(Other(ParseErrorMessage(configFile, read.error)))
    ensures read.Success? && initLogging.Failure? ==> r == Failure(initLogging.error)
    ensures read.Success? && initLogging.Success? ==>
              var clamped := read.value.(caRefreshSeconds := ClampCaRefreshSeconds(read.value.caRefreshSeconds, limits));
              r == match Verify(clamped, limits)
                   case Success(_) => Success(clamped)
                   case Failure(e) => Failure(Other(ParseErrorMessage(configFile, e)))
    ensures r.Success? ==> Valid(r.value, limits)
    ensures r.Success? && limits.caRefreshSecondsMin <= limits.caRefreshSecondsMax ==>
              limits.caRefreshSecondsMin <= r.value.caRefreshSeconds <= limits.caRefreshSecondsMax
  {
    var config: Config;
    match read {
      case Failure(e) =>
        if configFile == DefaultConfigFile {
          return Failure(Other(CannotFindMessage));
        } else {
          return Failure(Other(ParseErrorMessage(configFile, e)));
        }
      case Success(c) =>
        if initLogging.Failure? {
          return Failure(initLogging.error);
        }
        config := c;
    }

    if config.caRefreshSeconds < limits.caRefreshSecondsMin {
      config := config.(caRefreshSeconds := limits.caRefreshSecondsMin);
    }
    if config.caRefreshSeconds > limits.caRefreshSecondsMax {
      config := config.(caRefreshSeconds := limits.caRefreshSecondsMax);
    }

    var verified := Verify(config, limits);
    if verified.Failure? {
      return Failure(Other(ParseErrorMessage(configFile, verified.error)));
    }
    return Success(config);
  }

  //------------ publish_next ----------------------------------------------

  /**
    * `IssuanceTimingConfig::publish_next` as written, in minutes after now.
    * `sample` stands for the random number generator; `None` is the panic of
    * `gen_range` on the empty range `0..0`.
    */
  function PublishNextMinutesAsWritten(t: IssuanceTimingConfig, sample: nat): (r: Option<int>)
    ensures r.None? <==> t.publishNextJitterHours <= 0
    ensures r.Some? ==>
              t.publishNextHours * 60 <= r.value < t.publishNextHours * 60 + 60 * t.publishNextJitterHours
  {
    var span := 60 * t.publishNextJitterHours;
    if span <= 0 then None else Some(t.publishNextHours * 60 + sample % span)
  }

  /** `verify` accepts a zero jitter, for which `publish_next` as written panics. */
  lemma ZeroJitterPanics()
    ensures
      var c := Config(DefaultIp, DefaultPort, DefaultHttpsMode, DefaultDataDir, None, None, Info, DefaultLogType,
                      DefaultAuthType, [], DefaultCaRefreshSeconds, None, None,
                      DefaultIssuanceTiming.(publishNextJitterHours := 0));
      Verify(c, Limits(0, 0, 0)).Success? && PublishNextMinutesAsWritten(c.issuanceTiming, 0).None?
  {
  }

  /** `publish_next` with a zero jitter meaning "no jitter". */
  function PublishNextMinutes(t: IssuanceTimingConfig, sample: nat): (r: int)
    ensures t.publishNextJitterHours <= 0 ==> r == t.publishNextHours * 60
    ensures t.publishNextJitterHours > 0 ==>
              t.publishNextHours * 60 <= r < t.publishNextHours * 60 + 60 * t.publishNextJitterHours
    ensures PublishNextMinutesAsWritten(t, sample).Some? ==> r == PublishNextMinutesAsWritten(t, sample).value
  {
    var span := 60 * t.publishNextJitterHours;
    if span <= 0 then t.publishNextHours * 60 else t.publishNextHours * 60 + sample % span
  }

  /** For every verified config, the next publication lies within the configured hours plus the jitter. */
  lemma VerifiedPublishNextInWindow(c: Config, limits: Limits, sample: nat)
    requires Verify(c, limits).Success?
    ensures var t := c.issuanceTiming;
            var r := PublishNextMinutes(t, sample);
            120 <= t.publishNextHours * 60 <= r <= t.publishNextHours * 60 + 60 * t.publishNextJitterHours
  {
  }

  //------------ Enumeration parsers -----------------------------------------

  function LogTypeName(t: LogType): string {
    match t
    case Stderr => "stderr"
    case File => "file"
    case Syslog => "syslog"
  }

  /** The `Deserialize` of `LogType`. */
  function ParseLogType(s: string): (r: Result<LogType, string>)
    ensures r.Success? <==> s == "stderr" || s == "file" || s == "syslog"
    ensures r.Success? ==> LogTypeName(r.value) == s
    ensures r.Failure? ==> r.error == "expected \"stderr\" or \"file\", found : \"" + s + "\""
  {
    match s
    case "stderr" => Success(Stderr)
    case "file" => Success(File)
    case "syslog" => Success(Syslog)
    case _ => Failure("expected \"stderr\" or \"file\", found : \"" + s + "\"")
  }

  lemma LogTypeRoundTrip(t: LogType)
    ensures ParseLogType(LogTypeName(t)) == Success(t)
  {
  }

  function HttpsModeName(m: HttpsMode): string {
    match m
    case Existing => "existing"
    case Generate => "generate"
  }

  /** The `Deserialize` of `HttpsMode`. */
  function ParseHttpsMode(s: string): (r: Result<HttpsMode, string>)
    ensures r.Success? <==> s == "existing" || s == "generate"
    ensures r.Success? ==> HttpsModeName(r.value) == s
    ensures r.Failure? ==> r.error == "expected \"existing\", or \"generate\", found: \"" + s + "\""
  {
    match s
    case "existing" => Success(Existing)
    case "generate" => Success(Generate)
    case _ => Failure("expected \"existing\", or \"generate\", found: \"" + s + "\"")
  }

  lemma HttpsModeRoundTrip(m: HttpsMode)
    ensures ParseHttpsMode(HttpsModeName(m)) == Success(m)
  {
  }

  function AuthTypeName(a: AuthType): string {
    match a
    case AdminToken => "admin-token"
    case ConfigFile => "config-file"
    case OpenIDConnect => "openid-connect"
  }

  /** The message of an unknown scheme; it lists the schemes of the build. */
  function AuthTypeError(s: string, multiUser: bool): string {
    if multiUser then "expected \"config-file\", \"admin-token\", or \"openid-connect\", found: \"" + s + "\""
    else "expected \"admin-token\", found: \"" + s + "\""
  }

  /** The `Deserialize` of `AuthType`; `multiUser` is the multi-user build feature. */
  function ParseAuthType(s: string, multiUser: bool): (r: Result<AuthType, string>)
    ensures r.Success? <==> s == "admin-token" || (multiUser && (s == "config-file" || s == "openid-connect"))
    ensures r.Success? ==> AuthTypeName(r.value) == s
    ensures !multiUser && r.Success? ==> r.value == AdminToken
    ensures r.Failure? ==> r.error == AuthTypeError(s, multiUser)
  {
    if s == "admin-token" then Success(AdminToken)
    else if multiUser && s == "config-file" then Success(ConfigFile)
    else if multiUser && s == "openid-connect" then Success(OpenIDConnect)
    else Failure(AuthTypeError(s, multiUser))
  }

  /** Every scheme of the build parses back from its name. */
  lemma AuthTypeRoundTrip(a: AuthType, multiUser: bool)
    requires multiUser || a == AdminToken
    ensures ParseAuthType(AuthTypeName(a), multiUser) == Success(a)
  {
  }

  //------------ fern_logger level caps ----------------------------------------

  /** `LevelFilter::min`: the more restrictive of the two. */
  function MinLevel(a: LevelFilter, b: LevelFilter): (m: LevelFilter)
    ensures m == a || m == b
    ensures m.Rank() <= a.Rank() && m.Rank() <= b.Rank()
  {
    if a.Rank() <= b.Rank() then a else b
  }

  const FrameworkTargets: seq<string> :=
    ["rustls", "hyper", "mio", "reqwest", "tokio_reactor", "tokio_util::codec::framed_read", "want", "tracing::span", "h2"]
  const OsoTarget := "oso"
  const KrillFrameworkTargets: seq<string> := ["krill::commons::eventsourcing", "krill::commons::util::file"]

  /** A fern dispatch's level configuration: the default level and the per-target levels in the order set. */
  datatype Logger = Logger(level: LevelFilter, levels: seq<(string, LevelFilter)>)

  /** Every target `fern_logger` sets a level for, in the order it sets them. */
  const ConfiguredTargets: seq<string> := FrameworkTargets + [OsoTarget] + KrillFrameworkTargets

  /** The level `fern_logger` gives oso: capped at Trace when POLAR_LOG is set, else at Info. */
  function OsoLevel(logLevel: LevelFilter, polarLogSet: bool): LevelFilter {
    if polarLogSet then MinLevel(logLevel, Trace) else MinLevel(logLevel, Info)
  }

  /** The levels `fern_logger` configures; `polarLogSet` says whether POLAR_LOG is in the environment. */
  function FernLogger(logLevel: LevelFilter, polarLogSet: bool): (l: Logger)
    ensures l.level == logLevel
    ensures |l.levels| == |ConfiguredTargets|
    ensures forall i :: 0 <= i < |l.levels| ==> l.levels[i].0 == ConfiguredTargets[i]
    ensures forall i :: 0 <= i < |FrameworkTargets| ==> l.levels[i].1 == MinLevel(logLevel, Warn)
    ensures l.levels[|FrameworkTargets|].1 == OsoLevel(logLevel, polarLogSet)
    ensures forall i :: |FrameworkTargets| < i < |l.levels| ==> l.levels[i].1 == MinLevel(logLevel, Debug)
  {
    var framework := MinLevel(logLevel, Warn);
    var krillFramework := MinLevel(logLevel, Debug);
    Logger(logLevel,
      seq(|FrameworkTargets|, i requires 0 <= i < |FrameworkTargets| => (FrameworkTargets[i], framework))
      + [(OsoTarget, OsoLevel(logLevel, polarLogSet))]
      + seq(|KrillFrameworkTargets|, i requires 0 <= i < |KrillFrameworkTargets| => (KrillFrameworkTargets[i], krillFramework)))
  }

  /** The level set for exactly `target`, the first one set if several. */
  function Lookup(levels: seq<(string, LevelFilter)>, target: string): Option<LevelFilter> {
    if levels == [] then None
    else if levels[0].0 == target then Some(levels[0].1)
    else Lookup(levels[1..], target)
  }

  lemma {:induction false} LookupFinds(levels: seq<(string, LevelFilter)>, i: nat, target: string)
    requires i < |levels| && levels[i].0 == target
    requires forall j :: 0 <= j < i ==> levels[j].0 != target
    ensures Lookup(levels, target) == Some(levels[i].1)
  {
    if i > 0 {
      LookupFinds(levels[1..], i - 1, target);
    }
  }

  lemma {:induction false} LookupMisses(levels: seq<(string, LevelFilter)>, target: string)
    requires forall j :: 0 <= j < |levels| ==> levels[j].0 != target
    ensures Lookup(levels, target) == None
  {
    if levels != [] {
      LookupMisses(levels[1..], target);
    }
  }

  /** The start of the last "::" that ends within `s[..end]`, if there is one. */
  function LastSeparator(s: string, end: nat): (r: Option<nat>)
    requires end <= |s|
    ensures r.Some? ==> r.value + 2 <= end && s[r.value] == ':' && s[r.value + 1] == ':'
    ensures r.Some? ==> forall i :: r.value < i && i + 2 <= end ==> !(s[i] == ':' && s[i + 1] == ':')
    ensures r.None? ==> forall i :: 0 <= i && i + 2 <= end ==> !(s[i] == ':' && s[i + 1] == ':')
    decreases end
  {
    if end < 2 then None
    else if s[end - 2] == ':' && s[end - 1] == ':' then Some(end - 2)
    else LastSeparator(s, end - 1)
  }

  /**
    * Fern's lookup of a module path: the level set for the longest parent
    * module `target[..i]` with "::" at `i`, among the separators within
    * `target[..end]`.
    */
  function ParentLevel(levels: seq<(string, LevelFilter)>, target: string, end: nat): Option<LevelFilter>
    requires end <= |target|
    decreases end
  {
    match LastSeparator(target, end)
    case None => None
    case Some(i) =>
      match Lookup(levels, target[..i])
      case Some(level) => Some(level)
      case None => ParentLevel(levels, target, i)
  }

  /** The level that applies to messages of `target`: its own, else its nearest configured parent module's, else the default. */
  function TargetLevel(l: Logger, target: string): LevelFilter {
    match Lookup(l.levels, target)
    case Some(level) => level
    case None =>
      match ParentLevel(l.levels, target, |target|)
      case Some(level) => level
      case None => l.level
  }

  predicate Enabled(l: Logger, target: string, msg: Level) {
    msg.Rank() <= TargetLevel(l, target).Rank()
  }

  /** The levels of `FernLogger` are set for exactly the configured targets. */
  lemma FernLoggerLookup(logLevel: LevelFilter, polarLogSet: bool, target: string)
    ensures target !in ConfiguredTargets ==> Lookup(FernLogger(logLevel, polarLogSet).levels, target) == None
    ensures target in FrameworkTargets ==> Lookup(FernLogger(logLevel, polarLogSet).levels, target) == Some(MinLevel(logLevel, Warn))
    ensures target == OsoTarget ==> Lookup(FernLogger(logLevel, polarLogSet).levels, target) == Some(OsoLevel(logLevel, polarLogSet))
    ensures target in KrillFrameworkTargets ==> Lookup(FernLogger(logLevel, polarLogSet).levels, target) == Some(MinLevel(logLevel, Debug))
  {
    var levels := FernLogger(logLevel, polarLogSet).levels;
    if target in FrameworkTargets {
      var i :| 0 <= i < |FrameworkTargets| && FrameworkTargets[i] == target;
      assert forall j :: 0 <= j < i ==> FrameworkTargets[j] != FrameworkTargets[i];
      LookupFinds(levels, i, target);
    } else if target == OsoTarget {
      assert forall j :: 0 <= j < |FrameworkTargets| ==> levels[j].0 != OsoTarget;
      LookupFinds(levels, |FrameworkTargets|, OsoTarget);
    } else if target in KrillFrameworkTargets {
      var k :| 0 <= k < |KrillFrameworkTargets| && KrillFrameworkTargets[k] == target;
      var i := |FrameworkTargets| + 1 + k;
      assert levels[i].0 == target;
      assert forall j :: 0 <= j < i ==> levels[j].0 != target;
      LookupFinds(levels, i, target);
    } else {
      assert target !in ConfiguredTargets;
      LookupMisses(levels, target);
    }
  }

  /** A module path `a` followed by "::" that starts `b` sits before a separator of `b`. */
  lemma PrefixSeparator(a: string, b: string)
    ensures a + "::" <= b ==> |a| + 2 <= |b| && b[..|a|] == a && b[|a|] == ':' && b[|a| + 1] == ':'
  {
    if a + "::" <= b {
      assert (a + "::")[|a|] == ':' && (a + "::")[|a| + 1] == ':';
    }
  }

  /** A path without ':' is a submodule of nothing. */
  lemma NoParentWithoutColon(b: string)
    requires ':' !in b
    ensures forall a :: !(a + "::" <= b)
  {
    forall a ensures !(a + "::" <= b) {
      PrefixSeparator(a, b);
    }
  }

  /**
    * No configured target followed by "::" starts another: the pairs with the
    * right lengths already differ at character 0, 1, 6 or 15.
    */
  lemma NotNested(a: string, b: string)
    requires a in ConfiguredTargets && b in ConfiguredTargets
    ensures !(a + "::" <= b)
  {
    PrefixSeparator(a, b);
    PrefixChar(a, b, 0);
    PrefixChar(a, b, 1);
    if |a| > 6 {
      PrefixChar(a, b, 6);
    }
    if |a| > 15 {
      PrefixChar(a, b, 15);
    }
  }

  lemma PrefixChar(a: string, b: string, k: nat)
    requires k < |a|
    ensures a + "::" <= b ==> a[k] == b[k]
  {
    if a + "::" <= b {
      assert (a + "::")[k] == a[k];
    }
  }

  /** No configured target is a submodule of another, so a module path has at most one configured parent. */
  lemma NoNestedTargets()
    ensures forall a, b :: a in ConfiguredTargets && b in ConfiguredTargets ==> !(a + "::" <= b)
  {
    forall a, b | a in ConfiguredTargets && b in ConfiguredTargets
      ensures !(a + "::" <= b)
    {
      NotNested(a, b);
    }
  }

  /** The parent walk finds the parent ending at `k` when no longer parent is configured. */
  lemma {:induction false} ParentLevelFinds(levels: seq<(string, LevelFilter)>, target: string, end: nat, k: nat)
    requires end <= |target| && k + 2 <= end && target[k] == ':' && target[k + 1] == ':'
    requires k + 2 < end ==> target[k + 2] != ':'
    requires Lookup(levels, target[..k]).Some?
    requires forall i :: k < i && i + 2 <= end && target[i] == ':' && target[i + 1] == ':' ==> Lookup(levels, target[..i]).None?
    ensures ParentLevel(levels, target, end) == Lookup(levels, target[..k])
    decreases end
  {
    var i := LastSeparator(target, end).value;
    if i != k {
      ParentLevelFinds(levels, target, i, k);
    }
  }

  /** The parent walk finds nothing when no parent within `target[..end]` is configured. */
  lemma {:induction false} ParentLevelMisses(levels: seq<(string, LevelFilter)>, target: string, end: nat)
    requires end <= |target|
    requires forall i :: 0 <= i && i + 2 <= end && target[i] == ':' && target[i + 1] == ':' ==> Lookup(levels, target[..i]).None?
    ensures ParentLevel(levels, target, end) == None
    decreases end
  {
    match LastSeparator(target, end)
    case None =>
    case Some(i) => ParentLevelMisses(levels, target, i);
  }

  /** The listed framework targets log at the configured level, but never above Warn. */
  lemma FrameworkTargetsCappedAtWarn(logLevel: LevelFilter, polarLogSet: bool, target: string)
    requires target in FrameworkTargets
    ensures TargetLevel(FernLogger(logLevel, polarLogSet), target) == MinLevel(logLevel, Warn)
    ensures TargetLevel(FernLogger(logLevel, polarLogSet), target).Rank() <= Warn.Rank()
  {
    FernLoggerLookup(logLevel, polarLogSet, target);
  }

  /** The krill event sourcing and file targets never log above Debug. */
  lemma KrillFrameworkTargetsCappedAtDebug(logLevel: LevelFilter, polarLogSet: bool, target: string)
    requires target in KrillFrameworkTargets
    ensures TargetLevel(FernLogger(logLevel, polarLogSet), target) == MinLevel(logLevel, Debug)
    ensures TargetLevel(FernLogger(logLevel, polarLogSet), target).Rank() <= Debug.Rank()
  {
    FernLoggerLookup(logLevel, polarLogSet, target);
  }

  /** Oso logs at most Info, or at most Trace when POLAR_LOG is set. */
  lemma OsoCapped(logLevel: LevelFilter, polarLogSet: bool)
    ensures TargetLevel(FernLogger(logLevel, polarLogSet), OsoTarget) ==
            if polarLogSet then MinLevel(logLevel, Trace) else MinLevel(logLevel, Info)
    ensures !polarLogSet ==> TargetLevel(FernLogger(logLevel, polarLogSet), OsoTarget).Rank() <= Info.Rank()
  {
    FernLoggerLookup(logLevel, polarLogSet, OsoTarget);
  }

  /**
    * A submodule of a configured target, such as "hyper::client" or
    * "krill::commons::eventsourcing::store", logs at that target's level.
    */
  lemma SubmoduleInheritsLevel(logLevel: LevelFilter, polarLogSet: bool, parent: string, rest: string)
    requires parent in ConfiguredTargets
    requires rest != [] ==> rest[0] != ':'
    ensures TargetLevel(FernLogger(logLevel, polarLogSet), parent + "::" + rest)
         == TargetLevel(FernLogger(logLevel, polarLogSet), parent)
  {
    var levels := FernLogger(logLevel, polarLogSet).levels;
    var target := parent + "::" + rest;
    var k := |parent|;
    NoNestedTargets();
    assert parent + "::" <= target;
    FernLoggerLookup(logLevel, polarLogSet, target);
    FernLoggerLookup(logLevel, polarLogSet, parent);
    assert target[..k] == parent;
    forall i | k < i && i + 2 <= |target| && target[i] == ':' && target[i + 1] == ':'
      ensures Lookup(levels, target[..i]).None?
    {
      assert i >= k + 2;
      assert parent + "::" <= target[..i];
      FernLoggerLookup(logLevel, polarLogSet, target[..i]);
    }
    ParentLevelFinds(levels, target, |target|, k);
  }

  /** Records of submodules are capped like their configured parent. */
  lemma SubmoduleTargetsCapped(logLevel: LevelFilter, polarLogSet: bool)
    ensures TargetLevel(FernLogger(logLevel, polarLogSet), "hyper::client") == MinLevel(logLevel, Warn)
    ensures TargetLevel(FernLogger(logLevel, polarLogSet), "krill::commons::eventsourcing::store") == MinLevel(logLevel, Debug)
  {
    assert "hyper::client" == FrameworkTargets[1] + "::" + "client";
    SubmoduleInheritsLevel(logLevel, polarLogSet, FrameworkTargets[1], "client");
    FrameworkTargetsCappedAtWarn(logLevel, polarLogSet, FrameworkTargets[1]);
    assert "krill::commons::eventsourcing::store" == KrillFrameworkTargets[0] + "::" + "store";
    SubmoduleInheritsLevel(logLevel, polarLogSet, KrillFrameworkTargets[0], "store");
    KrillFrameworkTargetsCappedAtDebug(logLevel, polarLogSet, KrillFrameworkTargets[0]);
  }

  /** Any target that is neither configured nor a submodule of a configured one, such as "krill" itself, logs at the configured level. */
  lemma OtherTargetsUncapped(logLevel: LevelFilter, polarLogSet: bool, target: string)
    requires target !in ConfiguredTargets
    requires forall t :: t in ConfiguredTargets ==> !(t + "::" <= target)
    ensures TargetLevel(FernLogger(logLevel, polarLogSet), target) == logLevel
  {
    var levels := FernLogger(logLevel, polarLogSet).levels;
    FernLoggerLookup(logLevel, polarLogSet, target);
    forall i | 0 <= i && i + 2 <= |target| && target[i] == ':' && target[i + 1] == ':'
      ensures Lookup(levels, target[..i]).None?
    {
      assert target[..i] + "::" <= target;
      FernLoggerLookup(logLevel, polarLogSet, target[..i]);
    }
    ParentLevelMisses(levels, target, |target|);
  }

  /** Log levels of the krill targets and the framework targets the log level test exercises. */
  const KrillKeyComponents: seq<string> := ["krill", "krill::commons::eventsourcing", "krill::commons::util::file"]
  const AllKeyComponents: seq<string> := KrillKeyComponents + ["hyper", "reqwest", "oso"]

  /** At config levels error and warn every key component logs exactly the messages at or below that level. */
  lemma ImportantLevelsEnabled(configLevel: LevelFilter, msg: Level, component: string, polarLogSet: bool)
    requires configLevel == Error || configLevel == Warn
    requires component in AllKeyComponents
    ensures Enabled(FernLogger(configLevel, polarLogSet), component, msg) <==> msg.Rank() <= configLevel.Rank()
  {
    if component in FrameworkTargets {
      FrameworkTargetsCappedAtWarn(configLevel, polarLogSet, component);
    } else if component in KrillFrameworkTargets {
      KrillFrameworkTargetsCappedAtDebug(configLevel, polarLogSet, component);
    } else if component == OsoTarget {
      OsoCapped(configLevel, polarLogSet);
    } else {
      assert component == "krill" && ':' !in component;
      NoParentWithoutColon(component);
      OtherTargetsUncapped(configLevel, polarLogSet, component);
    }
  }

  /** At config levels info, debug and trace the krill components follow the level, except that the framework ones never trace. */
  lemma KrillComponentsLevels(configLevel: LevelFilter, msg: Level, component: string, polarLogSet: bool)
    requires configLevel == Info || configLevel == Debug || configLevel == Trace
    requires msg == Info || msg == Debug || msg == Trace
    requires component in KrillKeyComponents
    ensures Enabled(FernLogger(configLevel, polarLogSet), component, msg) <==>
            msg.Rank() <= configLevel.Rank() && (msg != Trace || component !in KrillFrameworkTargets)
  {
    if component in KrillFrameworkTargets {
      KrillFrameworkTargetsCappedAtDebug(configLevel, polarLogSet, component);
    } else {
      assert component == "krill" && ':' !in component;
      NoParentWithoutColon(component);
      OtherTargetsUncapped(configLevel, polarLogSet, component);
    }
  }

  /** Oso logs debug and trace messages only when POLAR_LOG is set. */
  lemma OsoVerboseOnlyWithPolarLog(configLevel: LevelFilter, msg: Level, polarLogSet: bool)
    requires configLevel == Debug || configLevel == Trace
    requires msg == Debug || msg == Trace
    ensures Enabled(FernLogger(configLevel, polarLogSet), OsoTarget, msg) <==>
            msg.Rank() <= configLevel.Rank() && polarLogSet
  {
    OsoCapped(configLevel, polarLogSet);
  }
}
