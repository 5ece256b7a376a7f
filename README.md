# Cross-account DNS role assumption, modelled in Dafny

This project models the cross-account access workflow of
`scripts/cross_account_handler.py`. An application account obtains
temporary credentials for a role in a separate DNS account and checks that
they work against Route53 before handing the session to the DNS-challenge
step of certificate issuance.

- `CrossAccountManager.assume_dns_role` calls STS `assume_role` for
  `arn:aws:iam::<account>:role/<role>`. It passes the stored external ID, a
  900-second lifetime and a session name stamped with the current second.
  It makes at most `_max_retries` (3) attempts and sleeps `_retry_delay`
  (5 s) before each retry. Only `ExpiredToken` is retried. `AccessDenied` is
  explained by `_handle_access_denied`; any other error ends the step at once.
  The credentials and the session are stored only when an attempt succeeds.
- `verify_route53_access` refuses to run without a session. Otherwise it
  lists zones (at most one), then looks up the given zone. Failures are
  explained by `_handle_route53_error`, naming the action "list zones" or
  "access zone".
- `setup_cross_account_access` runs the two steps in order and prefixes
  the failing step's diagnostic.

The AWS SDK and the clock are an oracle: the `Environment` class hands out
scripted answers and records every request, every Route53 call and every
sleep. An answer is credentials or a `ClientError` (code, message, and the
opaque `str(e)` text). It can also be some other exception, which the
source's generic handlers turn into an "Unexpected error ..." diagnostic.

Modules: `Text` (Python's substring test; decimal rendering of an
integer), `Provider` (the oracle), `Diagnostics` (the two classifiers),
`RetryPolicy` (the assume-role step as functions of the STS answers),
`Verification` (the verify step as functions of the Route53 answers),
`CrossAccount` (the manager class and the orchestrator) and `Scenarios`
(concrete runs proved from the method contracts alone).

Consequences of the code as written:
- A failed probe's diagnostic names its stage only when the code is
  `AccessDenied` ("Unable to list zones." / "Unable to access zone.").
  `NoSuchHostedZone` and other codes give the same text for either stage
  (`scripts/cross_account_handler.py:105-113`).
- Only the literal message fragment `role/certbot-dns-role not found` is
  recognised as "role not found", whatever role name was configured
  (`scripts/cross_account_handler.py:68`).
- A non-`AccessDenied`, non-`ExpiredToken` error during role assumption is
  reported as `"AWS Error: " + str(e)`, not through the classifier
  (`scripts/cross_account_handler.py:54`).

## Model

| member | source | states |
|---|---|---|
| `Text.Contains` | scripts/cross_account_handler.py:63-68 | Python's `sub in s`: true exactly when `sub` occurs in `s` at some position |
| `Text.Decimal` | scripts/cross_account_handler.py:30 | `str(int(...))` of a non-negative integer: non-empty, all digits, one digit exactly below 10, last digit is `n % 10` |
| `Text.DecimalInjective` | scripts/cross_account_handler.py:30 | different seconds render to different strings |
| `Provider.SessionFrom` | scripts/cross_account_handler.py:36-40 | definition: the session is built from the access key, secret key and session token; `CrossAccount.SetupSucceedsIff` proves setup returns exactly this session |
| `Provider.Environment.AssumeRole` | scripts/cross_account_handler.py:28-33 | one `sts.assume_role` call: returns the next scripted answer and records the request |
| `Provider.Environment.ListHostedZones` | scripts/cross_account_handler.py:86 | one `list_hosted_zones` call: returns the next scripted Route53 answer and records the call |
| `Provider.Environment.GetHostedZone` | scripts/cross_account_handler.py:92 | one `get_hosted_zone` call: returns the next scripted Route53 answer and records the call with the zone id |
| `Provider.Environment.Time` | scripts/cross_account_handler.py:30 | `int(time.time())` reads the clock |
| `Provider.Environment.Sleep` | scripts/cross_account_handler.py:50 | `time.sleep` advances the clock by its argument and is recorded |
| `Diagnostics.HandleAccessDenied` | scripts/cross_account_handler.py:59-71 | definition of `_handle_access_denied`; its properties are proved in `Diagnostics.AccessDeniedClassification` and `Diagnostics.AssumeRoleChecklistItems` |
| `Diagnostics.HandleRoute53Error` | scripts/cross_account_handler.py:100-113 | definition of `_handle_route53_error`; its properties are proved in `Diagnostics.Route53ErrorClassification`, `Diagnostics.Route53ChecklistNamesAction`, `Diagnostics.Route53ChecklistDeterminesAction` and `Diagnostics.Route53ChecklistItems` |
| `Diagnostics.AccessDeniedClassification` | scripts/cross_account_handler.py:59-71 | the assume-role marker wins over the missing-role marker; "Role not found" is returned exactly when only the missing-role marker matches; otherwise the result starts "Access Denied: ", and with no marker it is "Access Denied: " + message |
| `Diagnostics.AssumeRoleChecklistItems` | scripts/cross_account_handler.py:64-67 | the assume-role checklist names the trust relationship, the external ID and the application role's permission |
| `Diagnostics.Route53ErrorClassification` | scripts/cross_account_handler.py:100-113 | the diagnostic's leading text identifies the code: "Route53 Access Denied: " exactly for AccessDenied, "Hosted zone not found: " exactly for NoSuchHostedZone, "Route53 Error: " exactly for any other code; the last two echo the message |
| `Diagnostics.Route53ChecklistNamesAction` | scripts/cross_account_handler.py:105-106 | for AccessDenied the diagnostic contains "Unable to <action>." |
| `Diagnostics.Route53ChecklistDeterminesAction` | scripts/cross_account_handler.py:106-109 | equal checklists come from equal actions, so "list zones" and "access zone" give different texts |
| `Diagnostics.Route53ChecklistItems` | scripts/cross_account_handler.py:107-109 | the Route53 checklist names the role's permissions, the zone's existence and the policy's actions |
| `RetryPolicy.RoleArn` | scripts/cross_account_handler.py:24 | definition of the role ARN; `RetryPolicy.RoleArnDeterminesRole` proves it determines account and role |
| `RetryPolicy.SessionName` | scripts/cross_account_handler.py:30 | definition of `CertbotDNS-<second>`; `RetryPolicy.SessionNameInjective` proves it injective |
| `RetryPolicy.RoleArnDeterminesRole` | scripts/cross_account_handler.py:24 | for account IDs without ':' the role ARN determines both the account ID and the role name |
| `RetryPolicy.SessionNameInjective` | scripts/cross_account_handler.py:30 | `CertbotDNS-<second>` names taken at different seconds differ |
| `RetryPolicy.StampIsLinear` | scripts/cross_account_handler.py:26-50 | the clock reading at attempt i is the start reading plus i retry delays |
| `RetryPolicy.StampIncreasing` | scripts/cross_account_handler.py:30-50 | with a positive retry delay, a later attempt reads a strictly later second |
| `RetryPolicy.AttemptRequestAt` | scripts/cross_account_handler.py:24-33 | attempt i requests the role ARN with the stored external ID, `DurationSeconds=900` and the session name of its own clock reading |
| `RetryPolicy.AttemptSessionNamesDistinct` | scripts/cross_account_handler.py:30-50 | with a positive retry delay no two attempts send the same session name |
| `RetryPolicy.FinalAttempt` | scripts/cross_account_handler.py:26-52 | the loop stops at an attempt below the limit; every earlier answer was ExpiredToken, and this one is not ExpiredToken unless it is the last permitted attempt |
| `RetryPolicy.Delays` | scripts/cross_account_handler.py:48-50 | the sleeps before the first n retries: n entries, each the retry delay |
| `RetryPolicy.LoopEndsAt` | scripts/cross_account_handler.py:26-54 | an attempt reached after only ExpiredToken errors ends the loop when its answer is not ExpiredToken or it is the last permitted one, and the step's result is then that attempt's classification |
| `RetryPolicy.AttemptStatus` | scripts/cross_account_handler.py:41-57 | definition: what the attempt that ends the loop returns, per answer kind and error code; used by `RetryPolicy.TerminalErrorStops` and `RetryPolicy.RetriesExhausted` |
| `RetryPolicy.AssumeStatus` | scripts/cross_account_handler.py:26-57 | definition: the result of `assume_dns_role` as a function of the STS answers; `CrossAccount.CrossAccountManager.AssumeDnsRole` is proved to return it and `RetryPolicy.AssumeSucceedsIff` characterises its success |
| `RetryPolicy.FinalAttemptUnique` | scripts/cross_account_handler.py:26-54 | those two facts determine the stopping attempt |
| `RetryPolicy.RetriesExhausted` | scripts/cross_account_handler.py:48-52 | if every answer is ExpiredToken, all max_retries attempts are made and the result is "Token expired and max retries reached" |
| `RetryPolicy.TerminalErrorStops` | scripts/cross_account_handler.py:46-54 | any code other than ExpiredToken stops the loop on that attempt; AccessDenied gives `_handle_access_denied(message)`, anything else "AWS Error: " + str(e) |
| `RetryPolicy.AssumeSucceedsIff` | scripts/cross_account_handler.py:35-41 | the step succeeds exactly when some attempt within the limit is answered with credentials after only ExpiredToken errors, and then the stopping attempt is that one |
| `Verification.ProbeStatus` | scripts/cross_account_handler.py:85-95 | definition: one probe's result, classified with `_handle_route53_error` under the probe's action |
| `Verification.ProbeCalls` | scripts/cross_account_handler.py:78-95 | definition: the Route53 calls `verify_route53_access` makes; properties in `Verification.ListFailureShortCircuits` and `Verification.VerifySucceedsIff` |
| `Verification.VerifyStatus` | scripts/cross_account_handler.py:78-98 | definition: the result of `verify_route53_access`; properties in `Verification.NoSessionGuard`, `Verification.VerifySucceedsIff` and `Verification.GetFailureNamesZoneAccess` |
| `Verification.NoSessionGuard` | scripts/cross_account_handler.py:78-79 | without a session the step returns the "No DNS session established" diagnostic and calls nothing |
| `Verification.ListFailureShortCircuits` | scripts/cross_account_handler.py:84-88 | a failed listing is never followed by a zone lookup, is explained for "list zones", and for AccessDenied contains "Unable to list zones." |
| `Verification.GetFailureNamesZoneAccess` | scripts/cross_account_handler.py:90-95 | after a successful listing a failed lookup is explained for "access zone"; for AccessDenied it contains "Unable to access zone." and differs from the listing's checklist |
| `Verification.VerifySucceedsIff` | scripts/cross_account_handler.py:78-95 | verification succeeds exactly when a session exists and both probes are answered; the zone is looked up exactly when the listing was answered |
| `Verification.SessionProbesNeverReportMissingSession` | scripts/cross_account_handler.py:78-98 | with a session, no probe failure produces the missing-session diagnostic |
| `CrossAccount.CrossAccountManager.constructor` | scripts/cross_account_handler.py:8-15 | stores the three identifiers; no session and no credentials; 3 retries, 5-second delay |
| `CrossAccount.CrossAccountManager.AssumeDnsRole` | scripts/cross_account_handler.py:17-57 | result is the retry specification's; consumes exactly the answers up to the stopping attempt, sends exactly those requests, sleeps retry_delay before each retry; credentials and session are set to the issued ones on success and unchanged on failure |
| `CrossAccount.CrossAccountManager.VerifyRoute53Access` | scripts/cross_account_handler.py:73-98 | result and Route53 calls are the verification specification's, for whether the manager holds a session |
| `CrossAccount.SetupCrossAccountAccess` | scripts/cross_account_handler.py:115-133 | result is the setup specification's; STS answers consumed, requests, sleeps and clock are the assume step's; Route53 is called, and its answers consumed, only after a successful assumption |
| `CrossAccount.SetupResult` | scripts/cross_account_handler.py:121-133 | definition: the triple `setup_cross_account_access` returns; properties in `CrossAccount.SetupSucceedsIff` and `CrossAccount.SetupDiagnosticNamesStep` |
| `CrossAccount.SetupRoute53Calls` | scripts/cross_account_handler.py:121-131 | definition: no Route53 call after a failed assumption, otherwise the verify step's calls; `CrossAccount.SetupStopsAfterFailedAssume` states the first case |
| `CrossAccount.SetupStopsAfterFailedAssume` | scripts/cross_account_handler.py:123-126 | a failed assumption makes no Route53 call and returns (False, "Failed to assume DNS role: " + diagnostic, None) |
| `CrossAccount.SetupSucceedsIff` | scripts/cross_account_handler.py:121-133 | success exactly when the role is assumed and both probes are answered; success returns no diagnostic and the session built from the issued credentials, failure a diagnostic and no session |
| `CrossAccount.SetupDiagnosticNamesStep` | scripts/cross_account_handler.py:124-131 | a failure's diagnostic starts with the assume prefix exactly when assumption failed and with the verify prefix exactly when verification failed, and is never the missing-session diagnostic |
| `CrossAccount.SetupDeniedOnFirstAttempt` | scripts/cross_account_handler.py:121-126 | an unexplained AccessDenied on the first attempt yields "Failed to assume DNS role: Access Denied: <message>" after one request and no Route53 call |

## Left out

- The boto3/botocore SDK is not modelled. Each call takes the next scripted answer; AWS semantics, timeouts and payloads are out of scope.
- `CrossAccount.CrossAccountManager.AssumeDnsRole` requires the script to hold at least `_max_retries` STS answers. `VerifyRoute53Access` and `SetupCrossAccountAccess` require two Route53 answers. This stands for "the SDK always answers", not a demand on the source's callers.
- `CrossAccount.CrossAccountManager.AssumeDnsRole` requires `_max_retries >= 1`. With 0 the source's loop falls through and returns `None`, but the constructor always sets 3.
- Exceptions from `boto3.client('sts')` or `dns_session.client('route53')` are not modelled; neither are a missing `Credentials` key or a failing `boto3.Session`. Only an exception raised by the call itself is, as an `Unexpected` answer. In the source a failing `boto3.Session` would leave `credentials` set without a session; the model does not capture that.
- `str(e)` of a `ClientError` is an opaque `text` field.
- The clock advances only by the model's sleeps, not while calls run, and never steps back. `time.time()` is wall-clock time and can be reset backwards, so with a real clock two attempts may share a session name; `RetryPolicy.AttemptSessionNamesDistinct` holds only for the modelled clock.
- `not self.dns_session` is modelled as "no session", because a `boto3.Session` object is always truthy.
- Cancellation, configurable timeouts and concurrent setups are not features of this source.
- `cohesity-cert-manager/scripts/deploy-cert-script.py` is not part of this model. It only reads files, posts over HTTPS and appends to a log.
- `scripts/setup_certificate.py` is not part of this model. It runs package installation and the certbot client as subprocesses.
