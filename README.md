# Krill daemon: request authorizer and configuration checks, in Dafny

This project models two sequential parts of the Krill RPKI daemon and proves
properties of them.

**The request authorizer** (`src/daemon/auth/authorizer.rs`, module
`Authorization` in `authorizer.dfy`). `AuthProvider` is a closed enum of
authentication providers (admin token, config file users, OpenID Connect).
Each of its four operations forwards to the provider its variant holds. The
`Authorizer` holds a primary provider, an optional legacy admin-token
provider, a policy snapshot and a list of private attribute names; it is
built once and never changed, so it is a Dafny datatype.

- `actor_from_request` asks the legacy provider first and the primary only
  when the legacy one did not identify the caller. It never fails: "no
  credential" becomes the anonymous actor, and an error becomes the anonymous
  actor that carries it. It is a method whose ghost out-parameter
  `primaryCalled` makes the order of the calls observable. The function
  `Resolve` specifies it.
- `login` passes the primary provider's error through. It then asks the
  policy whether the user may LOGIN and removes the private attributes.

The providers and the Oso-backed policy are oracles: a provider is the record
of what its operations answer (`ProviderOps`), and the policy is a function
from actor, permission and resource to `Result<bool, Error>`. Requests and
HTTP responses are opaque types.

**Configuration** (`src/daemon/config.rs`, module `DaemonConfig` in
`config.dfy`). This covers:

- `Config::verify`, a chain of checks with early returns, and a declarative
  predicate `Valid` that states all of them at once;
- the clamp of `ca_refresh_seconds` in `create`;
- the derived values `republish_hours`, `suspend_child_after_inactive_seconds`,
  `service_uri`, `pid_file` and `test_ssl`;
- the string parsers of `LogType`, `HttpsMode` and `AuthType`, each with an
  inverse and a round-trip lemma;
- the per-target log level caps of `fern_logger`, and lemmas that restate the
  log level test at the end of the file. A record's level is the one set for
  its exact target, else the one set for its longest parent module (the part
  before a "::"), else the default level. That is fern's `level_for` rule; the
  fern crate itself is not part of this model, so `ParentLevel` states the
  rule as fern documents it.

`Results` (`results.dfy`) holds the `Option` and `Result` datatypes.

Some constants come from the crate's `constants.rs`, which is not part of this
model: `CA_REFRESH_SECONDS_MIN`, `CA_REFRESH_SECONDS_MAX` and
`CA_SUSPEND_MIN_HOURS`. They are the parameter `Limits`. The default config
file name `./defaults/krill.conf` is taken from the doc comment and help text
of `config.rs`.

Where the source and its comments disagree, the model follows the code:

- The port check rejects ports below 1024 and accepts 1024, although the
  message says ">1024" (`PortBoundary`).
- The `LogType` error message lists only "stderr" and "file", although
  "syslog" is accepted. The model keeps that message.
- `Authorizer::new` always builds the legacy provider (see Findings).

## Model

| member | source | states |
|---|---|---|
| Authorization.AuthProvider.Authenticate | src/daemon/auth/authorizer.rs:70-78 | the answer is exactly that of the provider the variant holds |
| Authorization.AuthProvider.GetLoginUrl | src/daemon/auth/authorizer.rs:80-88 | the answer is exactly that of the provider the variant holds |
| Authorization.AuthProvider.Login | src/daemon/auth/authorizer.rs:90-98 | the answer is exactly that of the provider the variant holds |
| Authorization.AuthProvider.Logout | src/daemon/auth/authorizer.rs:100-108 | the answer is exactly that of the provider the variant holds |
| Authorization.IsAdminTokenProviderAsWritten | src/daemon/auth/authorizer.rs:135-136 | the `Any` downcast of the enum to the provider type never succeeds |
| Authorization.IsAdminTokenProvider | src/daemon/auth/authorizer.rs:128-133 | the documented test: true exactly for the admin token variant |
| Authorization.Authorizer.New | src/daemon/auth/authorizer.rs:134-162 | a policy error is returned unchanged; otherwise the primary and policy are kept, the legacy provider is present for every primary, and the private attributes are `["role"]` without multi-user and the configured list with it |
| Authorization.Authorizer.NewIntended | src/daemon/auth/authorizer.rs:128-149 | the legacy provider is present if and only if the primary is not the admin token provider |
| Authorization.LegacyBuiltForTokenPrimary | src/daemon/auth/authorizer.rs:134-149 | with an admin token primary, the constructor as written builds a legacy provider and the documented rule does not |
| Authorization.AsWrittenResolvesAsIntended | src/daemon/auth/authorizer.rs:164-177 | when the legacy provider is the primary admin token provider itself, both constructors resolve every request to the same actor |
| Authorization.Authorizer.ActorFromDef | src/daemon/auth/authorizer.rs:199-201 | the actor carries the given definition and the authorizer's policy |
| Authorization.Authorizer.Resolve | src/daemon/auth/authorizer.rs:164-197 | a legacy identity is used as is; otherwise the primary's identity is used, "no credential" gives the anonymous actor and an error gives the anonymous actor carrying that error; the policy is always the authorizer's |
| Authorization.Authorizer.ActorFromRequest | src/daemon/auth/authorizer.rs:164-197 | the actor is the one `Resolve` specifies, and the primary provider is called exactly when the legacy provider did not identify the caller |
| Authorization.Authorizer.LegacyFailureIsDiscarded | src/daemon/auth/authorizer.rs:173-177 | a legacy "no credential" or error leaves the actor exactly as it would be without a legacy provider |
| Authorization.Authorizer.LegacyErrorNeverSurfaces | src/daemon/auth/authorizer.rs:168-192 | a legacy error reaches the actor only if the primary provider produced it too |
| Authorization.NoCredentialIsAnonymous | src/daemon/auth/authorizer.rs:184-185 | without a legacy provider and without a credential the actor is the anonymous one, with no error |
| Authorization.Authorizer.GetLoginUrl | src/daemon/auth/authorizer.rs:205-207 | the primary provider's answer; the legacy provider plays no part |
| Authorization.Authorizer.Logout | src/daemon/auth/authorizer.rs:251-253 | the primary provider's answer; the legacy provider plays no part |
| Authorization.Authorizer.Login | src/daemon/auth/authorizer.rs:211-247 | a provider error is returned unchanged; a policy error is returned; a refusal gives ApiInsufficientRights naming the user; on success the token and id are kept and the attributes are the provider's minus every private key, with their values |
| Authorization.LoginDeniedReason | src/daemon/auth/authorizer.rs:220-222 | the refusal reason names the user id |
| Authorization.VisibleAttributes | src/daemon/auth/authorizer.rs:227-232 | a key survives exactly when the user has it and it is not private, and keeps its value |
| Authorization.VisibleAttributesExtremes | src/daemon/auth/authorizer.rs:225-232 | no private names keep every attribute; private names covering every key leave none |
| Authorization.Auth.NewBearer | src/daemon/auth/authorizer.rs:279-281 | a bearer credential holding the token |
| Authorization.Auth.NewAuthorizationCode | src/daemon/auth/authorizer.rs:282-289 | an authorization code credential holding its four values |
| Authorization.Auth.NewIdAndPasswordHash | src/daemon/auth/authorizer.rs:291-293 | an id and password hash credential holding both |
| Authorization.AuthConstructorsDistinct | src/daemon/auth/authorizer.rs:263-294 | credentials of different kinds never coincide, and the constructors are injective |
| DaemonConfig.Verify | src/daemon/config.rs:758-848 | succeeds exactly when every requirement in `Valid` holds; a port below 1024 fails with the port message |
| DaemonConfig.PortBoundary | src/daemon/config.rs:763-765 | port 1024 is accepted and 1023 is rejected |
| DaemonConfig.VerifyIgnoresAspaTimings | src/daemon/config.rs:806-848 | changing the ASPA timings never changes the outcome of `verify` |
| DaemonConfig.CountChar | src/daemon/config.rs:770 | the count of a character is zero exactly when it does not occur |
| DaemonConfig.RepublishHours | src/daemon/config.rs:518-524 | never negative; positive exactly when hours_before_next < next_hours, and then it is their difference |
| DaemonConfig.VerifiedRepublishHours | src/daemon/config.rs:794-804 | after a successful `verify`, republish_hours is at least 1 and below next_hours |
| DaemonConfig.SuspendChildAfterInactiveSeconds | src/daemon/config.rs:526-531 | the seconds field wins even if hours is set, else hours times 3600, and nothing only when both are unset |
| DaemonConfig.VerifiedSuspendThreshold | src/daemon/config.rs:838-845 | after `verify`, a threshold set in hours gives at least the minimum hours in seconds |
| DaemonConfig.TestSsl | src/daemon/config.rs:472-474 | true exactly for the Generate mode |
| DaemonConfig.TestSslFollowsParsedMode | src/daemon/config.rs:1065-1075 | of the accepted https_mode texts, only "generate" enables test_ssl |
| DaemonConfig.ServiceUri | src/daemon/config.rs:490-501 | the configured URI, else localhost or the address with the port, ending in '/' |
| DaemonConfig.DerivedServiceUriWellFormed | src/daemon/config.rs:767-775 | the derived service URI passes the URI checks of `verify` whenever the address text has no '/' |
| DaemonConfig.PidFile | src/daemon/config.rs:507-516 | the configured file, else "krill.pid" directly inside the data directory |
| DaemonConfig.ClampCaRefreshSeconds | src/daemon/config.rs:736-750 | with MIN <= MAX the value lies in [MIN, MAX] and an in-range value is unchanged; below MIN gives MIN, above MAX gives MAX; with MAX < MIN the result is MAX |
| DaemonConfig.Create | src/daemon/config.rs:713-756 | read errors give the two messages by file name; a logging error is passed on; otherwise the config with the clamped refresh is returned exactly when it verifies, and a returned config is valid and in range |
| DaemonConfig.PublishNextMinutesAsWritten | src/daemon/config.rs:345-353 | with a positive jitter the result is in [60 * next_hours, 60 * next_hours + 60 * jitter); with jitter 0 or less it panics |
| DaemonConfig.ZeroJitterPanics | src/daemon/config.rs:781-792 | a config with jitter 0 passes `verify`, and `publish_next` as written panics on it |
| DaemonConfig.PublishNextMinutes | src/daemon/config.rs:341-353 | a jitter of 0 or less gives exactly 60 * next_hours minutes; otherwise the same window; it agrees with the as-written version wherever that does not panic |
| DaemonConfig.VerifiedPublishNextInWindow | src/daemon/config.rs:777-792 | for every verified config the next publication lies in [60 * next_hours, 60 * next_hours + 60 * jitter] and at least two hours ahead |
| DaemonConfig.ParseLogType | src/daemon/config.rs:1039-1048 | accepts exactly "stderr", "file" and "syslog", each naming its variant; anything else gives the source's message |
| DaemonConfig.LogTypeRoundTrip | src/daemon/config.rs:1026-1049 | every log type parses back from its name |
| DaemonConfig.ParseHttpsMode | src/daemon/config.rs:1065-1075 | accepts exactly "existing" and "generate"; anything else gives the source's message |
| DaemonConfig.HttpsModeRoundTrip | src/daemon/config.rs:1054-1076 | every https mode parses back from its name |
| DaemonConfig.ParseAuthType | src/daemon/config.rs:1095-1112 | accepts "admin-token", plus "config-file" and "openid-connect" only in the multi-user build; anything else gives the build's message |
| DaemonConfig.AuthTypeRoundTrip | src/daemon/config.rs:1082-1113 | every scheme of the build parses back from its name |
| DaemonConfig.ConfigError.Display | src/daemon/config.rs:989-998 | an `Other` error shows its message, and every other error shows the text of the error it wraps |
| DaemonConfig.FernLogger | src/daemon/config.rs:932-978 | the default level is the configured one; the nine framework targets get the level capped at Warn, oso the level capped at Info (Trace with POLAR_LOG), and the two krill targets the level capped at Debug, in that order |
| DaemonConfig.FernLoggerLookup | src/daemon/config.rs:965-977 | looking up exactly a configured target gives its capped level, and any other name is not configured |
| DaemonConfig.NoNestedTargets | src/daemon/config.rs:966-977 | no configured target is a submodule of another, so a record has at most one configured parent |
| DaemonConfig.MinLevel | src/daemon/config.rs:934-943 | `LevelFilter::min`: one of the two, and no more verbose than either |
| DaemonConfig.FrameworkTargetsCappedAtWarn | src/daemon/config.rs:966-974 | each listed framework target logs at the configured level capped at Warn |
| DaemonConfig.KrillFrameworkTargetsCappedAtDebug | src/daemon/config.rs:976-977 | the eventsourcing and file targets log at the configured level capped at Debug |
| DaemonConfig.OsoCapped | src/daemon/config.rs:937-943 | oso is capped at Info, or at Trace when POLAR_LOG is set |
| DaemonConfig.SubmoduleInheritsLevel | src/daemon/config.rs:965-977 | a submodule of a configured target (`parent::rest`) logs at exactly that target's level |
| DaemonConfig.SubmoduleTargetsCapped | src/daemon/config.rs:967-976 | "hyper::client" is capped at Warn and "krill::commons::eventsourcing::store" at Debug |
| DaemonConfig.OtherTargetsUncapped | src/daemon/config.rs:965 | a target that is neither configured nor a submodule of a configured one logs at the configured level |
| DaemonConfig.ImportantLevelsEnabled | src/daemon/config.rs:1197-1223 | at error and warn, every key component logs exactly the messages at or below the configured level |
| DaemonConfig.KrillComponentsLevels | src/daemon/config.rs:1229-1259 | at info, debug and trace, the krill components follow the level, but the eventsourcing and file targets never log at Trace |
| DaemonConfig.OsoVerboseOnlyWithPolarLog | src/daemon/config.rs:1265-1300 | oso logs debug and trace messages only when POLAR_LOG is set |

## Findings

| source | as written | input that shows it | evidently intended | confidence | as-written member | corrected member |
|---|---|---|---|---|---|---|
| src/daemon/auth/authorizer.rs:134-149 | the primary provider, of type `AuthProvider`, is downcast to `AdminTokenAuthProvider`; that never succeeds, so a legacy provider is always built | a primary `AuthProvider::Token(_)` gets a second admin token provider as legacy | the doc comment at lines 128-133: a legacy provider only when the primary is some other provider | high (the downcast can only succeed for the same type); not executed | Authorization.LegacyBuiltForTokenPrimary | Authorization.Authorizer.NewIntended |
| src/daemon/config.rs:345-353 | `verify` accepts `timing_publish_next_jitter_hours = 0` (lines 781-792), and `publish_next` then draws from the empty range `0..0` | the default timings with jitter 0 | jitter 0 means no jitter: the next publication is exactly next_hours ahead | medium (rests on `gen_range` panicking on an empty range, as the `rand` crate does); not executed | DaemonConfig.ZeroJitterPanics | DaemonConfig.PublishNextMinutes |

The first finding changes no outcome. `AsWrittenResolvesAsIntended` proves
that the extra legacy provider resolves every request to the same actor, as
long as it answers like the primary admin token provider. The cost is that
the admin token check runs twice for every request the legacy provider does not identify.

## Left out

- Hyper requests, HTTP responses and async/await are transport. A request and a response are opaque types, and each provider call is the value the provider answers.
- The concrete providers (`AdminTokenAuthProvider`, `ConfigFileAuthProvider`, `OpenIDConnectAuthProvider`) are not modelled. Each is the record of its answers (`ProviderOps`), and `AdminTokenAuthProvider::new(config)` is the parameter `adminTokenProvider` of `Authorizer.New`.
- `AuthPolicy` and `Actor::is_allowed` are not modelled, because the Oso engine is behind them. The policy is an oracle over actor, permission and resource, so how `is_allowed` treats an error carried by the anonymous actor is not modelled.
- `ActorDef` keeps only its name, user flag, attributes and carried error. `actor.rs` is not part of this model.
- The multi-user build feature is a boolean parameter. `AuthProvider` always has its three variants; the single-user build is the case where the primary is `Token`.
- The trace, info and warn logging in `authorizer.rs`, `create` and `verify` is output only. The deprecation warning in `verify` reads the environment.
- `Authorizer.ActorFromRequest`: the source's determinism ("the same request gives the same actor") holds trivially here, because providers are functions of the request. Providers that change internal state between calls are not modelled.
- `init_logging`, `stderr_logger`, `file_logger`, `syslog_logger` and the message formatting closure of `fern_logger` are I/O. The outcome of `init_logging` is a parameter of `Create`.
- The fern crate is not part of this model. `TargetLevel` follows its documented lookup: the exact target, then parent modules from the longest. Fern's storage of the level table and its behaviour for a target configured twice are left out; no target is configured twice here.
- `read_config`, `get_config_filename`, TOML deserialisation and the command line are I/O and foreign libraries. Their outcome is a parameter of `Create`, and the display texts of I/O, TOML and URI errors are opaque strings.
- The environment-variable defaults are not modelled: `log_level`, `admin_token`, `always_recover_data` and the ROA thresholds. The process exits in those defaults are left out too.
- `Config` keeps only the fields the modelled operations use. The post limits, log directories, RIS dump settings, ROA thresholds, retention, metrics and testbed settings are left out, because no modelled operation reads them.
- `https_cert_file` and `https_key_file` are left out, because the `tls_keys` constants are not part of this model. `PidFile` treats a path as a sequence of components, where `push` of a relative name appends one component.
- `socket_addr`, `rfc8181_uri`, `testbed`, `set_data_dir` and the test constructors `test_config`, `test` and `pubd_test` are left out. They are plain accessors, field assignments or test set-up.
- `uri::Https` parsing and `IpAddr` formatting are foreign. A service URI is its text, and the address is its display text. `ServiceUri` does not model the `unwrap` panic on a URI that fails to parse, such as an IPv6 address without brackets.
- `DaemonConfig.SuspendChildAfterInactiveSeconds`: `hours * 3600` is computed on unbounded integers. The source's i64 overflows for hours above i64::MAX / 3600.
- `DaemonConfig.RepublishHours`: the subtraction is unbounded. In i64 it can overflow for unverified configs with a very negative hours_before_next; after `verify` it always fits (`VerifiedRepublishHours`).
- `DaemonConfig.PublishNextMinutesAsWritten`: the random number generator is the parameter `sample`, reduced into the range. `Time::now()` is left out, so the result is minutes from now, and the i64 arithmetic is unbounded.
