# aerospikeConnect connection bootstrap — Dafny model

This project models the connection bootstrap of the `aerospikeConnect` Go
package (`connect.go`). The bootstrap takes a tree of optional configuration
fields, each of which is either present or absent. It checks that a seed host
and port are given. It then derives the Aerospike driver's `ClientPolicy`,
including authentication and TLS. Next it connects with a bounded retry loop,
limited by an attempt count and by a time budget. Finally it derives the read,
write, scan, query and info policies the handle carries.

Modules:

- `Options`: `Option` (a presence-tracked value) and `Result`.
- `Config`: the configuration tree of `struct.go`. Each nested struct is a
  named record. This module also has accessors that flatten the nil-checks
  along a path.
- `Driver`: the driver boundary. It holds the policy records, the driver's
  default policies (passed in as a `Defaults` value), oracles for reading
  files and loading key pairs, and the network/clock oracle (`Network`).
  Configured timeouts, budgets and pauses are integer milliseconds. The
  elapsed time the clock samples is `int64` nanoseconds, as `Nanoseconds()`
  returns it.
- `Sanity`: `sanityCheck`.
- `ConnectPolicy`: `setConnectPolicy`.
- `ConnectRetry`: the retry parameters and the retry loop of `connect`. The
  loop exists as a recursive reference function (`Retry`), as a declarative
  predicate (`IsRun`) and as an imperative `while` loop (`RetryLoop`).
- `OperationPolicies`: `makePolicies`.
- `Bootstrap`: `Connect`.

The time cutoff of the retry loop is a parameter, `ClockRule`. The
comparison itself is `ConnectRetry.OverBudget`. With `AsWritten` it reproduces
the expression of connect.go:135 literally. With `Corrected` it compares like
units (see Findings). `ConnectRetry.Stops` is the whole stop condition of
connect.go:131-137: the attempt connected, the attempt count is spent, or
`OverBudget` holds. `Connect` and the general loop lemmas take
the rule as a parameter. `CorrectedStopsOnlyPastBudget` and
`CorrectedRetriesWithinBudget` are about `Corrected` only.
`AsWrittenTripsAfterBudgetOverThousandNs` is about `AsWritten` only.

## Model

| member | source | states |
|---|---|---|
| `Sanity.SanityCheck` | connect.go:14-22 | validation succeeds iff host and port are both present; a missing host is reported even when the port is also missing |
| `ConnectPolicy.ApplyTimeouts` | connect.go:27-37 | idle and connect timeouts are copied when present; the login timeout changes only when credentials and a login timeout are both present; no other field changes |
| `ConnectPolicy.ApplySecurity` | connect.go:38-52 | username and password are copied when present; the auth mode changes only with credentials plus an explicit flag (true gives external, false gives internal); no other field changes |
| `ConnectPolicy.ApplyShaping` | connect.go:53-61 | queue size, the limit-to-queue flag and the cluster name are copied when present; no other field changes |
| `ConnectPolicy.ApplyFields` | connect.go:24-61 | fail-if-not-connected is always set; every other non-TLS field keeps the driver default unless its configuration field (and, for login timeout and auth mode, credentials) is present |
| `ConnectPolicy.BuildTls` | connect.go:63-95 | skip-verify is false unless set; the server name is copied; the CA bundle is read first and a read failure gives `tls: loadca: <err>`; a lone cert or key path pairs with ""; a load failure gives `tls: loadkeys: <err>`; on success the pool and certificate come from the oracles |
| `ConnectPolicy.SetConnectPolicy` | connect.go:24-98 | fails iff TLS is requested and building it fails, with a `tls:` error and no policy; the error is exactly the one `BuildTls` reports; on success all non-TLS fields are as `ApplyFields` gives them, and TLS is attached iff requested |
| `ConnectPolicy.TlsAttachedIffRequested` | connect.go:62-96 | with the driver's default of no TLS, TLS is attached exactly when a CA file, cert file, key file or server name is present |
| `ConnectPolicy.InsecureFlagAloneIsNoTrigger` | connect.go:62-66 | the skip-verify flag alone leaves the policy without TLS |
| `ConnectPolicy.ServerNameAloneEnablesTls` | connect.go:62-69 | a server name alone attaches TLS with verification enabled, no CA pool and no certificates |
| `ConnectPolicy.EmptyConfigKeepsDefaults` | connect.go:25-26 | an empty configuration yields the driver default with only fail-if-not-connected set |
| `ConnectPolicy.NoCredentialsNoLoginOrAuth` | connect.go:34-51 | without username or password, the login timeout and the auth mode stay at the driver default |
| `ConnectRetry.MaxAttempts` | connect.go:102-105 | the configured attempt count when positive, else 1 |
| `ConnectRetry.RetryBudgetMs` | connect.go:107-119 | an explicit budget wins, even 0; otherwise connect + login timeout (an absent one counts 0) when either is set; otherwise 30000 |
| `ConnectRetry.RetrySleepMs` | connect.go:121-124 | the configured pause, else 0 |
| `ConnectRetry.WrapInt64` | connect.go:135 | the `int64` value congruent to the product modulo 2^64, equal to it when it is in range |
| `ConnectRetry.RetryFrom` | connect.go:126-141 | from attempt n the loop makes between n and maxAttempts attempts; no earlier attempt met a stop condition; the last one did; the run reports the last attempt's client or error |
| `ConnectRetry.Retry` | connect.go:126-145 | the run satisfies the declarative description `IsRun` |
| `ConnectRetry.RunIsUnique` | connect.go:126-141 | at most one run satisfies `IsRun` |
| `ConnectRetry.RetryIffRun` | connect.go:126-145 | a run satisfies `IsRun` iff it is the one `Retry` computes |
| `ConnectRetry.RetryLoop` | connect.go:126-145 | the imperative loop returns exactly the `Retry` run and sleeps (attempts - 1) times the positive pause |
| `ConnectRetry.ZeroBudgetOnlyCountsAttempts` | connect.go:135 | with budget 0, a failed run has used every attempt |
| `ConnectRetry.AlwaysRefusedUsesAllAttempts` | connect.go:127-137 | against a target that always refuses, with budget 0, the loop makes exactly maxAttempts attempts and returns the last error |
| `ConnectRetry.FirstSuccessWins` | connect.go:130-133 | the first successful attempt ends the loop and its client is returned |
| `ConnectRetry.CorrectedStopsOnlyPastBudget` | connect.go:135 | under the corrected rule, an early stop on failure means more than the budget in milliseconds has elapsed |
| `ConnectRetry.CorrectedRetriesWithinBudget` | connect.go:135 | under the corrected rule, failures sampled within the budget use every attempt |
| `ConnectRetry.AsWrittenTripsAfterBudgetOverThousandNs` | connect.go:135 | as written, any elapsed time above budget/1000 ns (with no wrap) trips the cutoff |
| `ConnectRetry.AsWrittenGivesUpAfterOneMillisecond` | connect.go:135 | with 3 attempts, a 30 s budget and refusals after 1 ms: as written the loop stops after 1 attempt, corrected it makes 3 |
| `OperationPolicies.ApplyTx` | connect.go:155-170 | each of max retries, sleep between retries, socket and total timeout is the configured value when present, else the default |
| `OperationPolicies.MakePolicies` | connect.go:148-226 | always succeeds; each of read/write/scan/query is its default overridden by that kind's own section; the info timeout is overridden only when configured |
| `OperationPolicies.OnlyConfiguredFieldsChange` | connect.go:154-224 | an operation-policy field differs from its default only when that kind configures it |
| `OperationPolicies.PoliciesAreIndependent` | connect.go:154-224 | a kind's policy depends only on that kind's configuration section |
| `OperationPolicies.NoPoliciesMeansDefaults` | connect.go:148-154 | without a policies section, all five policies are the driver defaults |
| `Bootstrap.ConnectWithRetry` | connect.go:100-146 | the run is the one `IsRun` describes for the configuration's retry parameters, dialling the seed host and port with the built policy: it stops at the first success, at the attempt limit or past the budget, and returns the last attempt's result |
| `Bootstrap.Finish` | connect.go:242-247 | the handle is always returned; a policy-derivation failure also returns `makePolicies: <err>` |
| `Bootstrap.Connect` | connect.go:228-248 | a validation failure gives `config check:` with no attempt; a policy failure gives `create connect policy:` with no attempt; attempts happen iff both earlier stages pass, and never more than maxAttempts; a handle is returned iff there is no error, and it carries the derived policies |
| `Bootstrap.ConnectFollowsTheLoop` | connect.go:237-247 | after the first two stages, `Connect` reports the loop's attempts, its client, or its error prefixed with `connect:` |
| `Bootstrap.MissingHostFailsFirst` | connect.go:229-231 | with no host, `Connect` returns the host error and makes no attempt, whatever the rest of the configuration says |

## Findings

| source | as written | input that shows it | evidently intended | confidence | as-written member | corrected member |
|---|---|---|---|---|---|---|
| connect.go:135 | `time.Since(attemptStart).Nanoseconds()*1000 > int64(maxConnectRetryTimeMs)` compares nanoseconds × 1000 against a budget in milliseconds, so the cutoff fires after budget/1000 ns | maxConnectAttempts 3, no timeouts (budget 30000 ms), every attempt refused 1 ms after the start: 10^9 > 30000, so the loop stops after 1 attempt | retry until the elapsed time in milliseconds exceeds the budget (elapsed ns > budget × 10^6) | high; not executed | `ConnectRetry.AsWrittenGivesUpAfterOneMillisecond` | `ConnectRetry.CorrectedRetriesWithinBudget` |

The budget is meant in milliseconds. The variable is named
`maxConnectRetryTimeMs`, and its fallback of 30000 means 30 seconds. As written,
with the default 30000 ms budget, any refusal that takes longer than 30 ns ends
the loop after one attempt, whatever maxConnectAttempts says. A larger budget B
tolerates only B/1000 ns. After about 106 days the `int64` product wraps
negative, and while it is negative the cutoff does not trip. The model follows the code as `ClockRule.AsWritten`.
`ClockRule.Corrected` is the intended comparison. `Connect` takes the rule as
a parameter, so either one can be used.

## Left out

- `parseConfig.go` (YAML decoding and file opening) is not part of this
  model. Decoding is delegated to a YAML library and has no logic of the
  package's own. The configuration arrives already decoded.
- File reads, PEM parsing and X.509 parsing (connect.go:71-93) are oracles in
  `Driver.Files`. They are modelled only by their success value or error text.
  `AppendCertsFromPEM` is modelled as a pool built from the bytes read, and
  its ignored result is not modelled. `BuildNameToCertificate` is not
  modelled.
- `NewClientWithPolicy`, `time.Now` and `time.Since` are the `Driver.Network`
  oracle: the outcome of each attempt and the elapsed time sampled after each
  failure. `time.Sleep` is not executed. `RetryLoop` only adds up the pauses
  it would take.
- The driver's default policies are not visible here. They are a parameter
  (`Driver.Defaults`) instead of concrete values.
- `time.Duration` conversions (ms × `time.Millisecond`) are not modelled.
  Timeouts stay integer milliseconds.
- Configuration integers and the budget sum connect + login are unbounded.
  Go `int` overflow there is not modelled. Only the `int64` product at
  connect.go:135 wraps explicitly, in `ConnectRetry.WrapInt64`.
- Write, scan and query policies have kind-specific fields besides the four
  retry/timeout fields. `makePolicies` never touches them, so they are not
  modelled.
- Bootstrap.Finish: when the policies cannot be derived, the handle's
  policies are modelled as absent. The Go handle would keep whatever
  `makePolicies` had set before it failed. `makePolicies` never fails, so
  this case never arises from `Connect`.
- Closing the client is not part of the bootstrap and is not modelled.
