/** `CrossAccountManager` and `setup_cross_account_access`: the stateful
    core. The manager keeps the assumed credentials and the session built
    from them; the methods drive the scripted Environment and are proved
    against the pure specifications of RetryPolicy and Verification. */
module CrossAccount {
  import opened Text
  import opened Provider
  import opened Diagnostics
  import opened RetryPolicy
  import opened Verification

  /** The values `__init__` gives `_max_retries` and `_retry_delay`. */
  const DefaultMaxRetries := 3
  const DefaultRetryDelay := 5

  const AssumeFailedPrefix := "Failed to assume DNS role: "
  const VerifyFailedPrefix := "Failed to verify Route53 access: "

  /** The `(success, error_message, dns_session)` triple the setup returns. */
  datatype AccessResult = AccessResult(success: bool, error: Option<string>, session: Option<Session>)

  class CrossAccountManager {
    const dnsAccountId: string
    const dnsRoleName: string
    const externalId: string
    var dnsSession: Option<Session>
    var credentials: Option<Credentials>
    const maxRetries: nat
    const retryDelay: nat

    constructor (dnsAccountId: string, dnsRoleName: string, externalId: string)
      ensures this.dnsAccountId == dnsAccountId && this.dnsRoleName == dnsRoleName
      ensures this.externalId == externalId
      ensures dnsSession == None && credentials == None
      ensures maxRetries == DefaultMaxRetries && retryDelay == DefaultRetryDelay
    {
      this.dnsAccountId := dnsAccountId;
      this.dnsRoleName := dnsRoleName;
      this.externalId := externalId;
      dnsSession := None;
      credentials := None;
      maxRetries := DefaultMaxRetries;
      retryDelay := DefaultRetryDelay;
    }

    /** `assume_dns_role`: up to `maxRetries` assume-role attempts, sleeping
        `retryDelay` seconds before each retry, retrying only ExpiredToken.
        The STS answers consumed, the requests sent, the sleeps taken and
        the result are those of the specification; the credentials and the
        session change only when the step succeeds. */
    method AssumeDnsRole(env: Environment) returns (status: Status)
      requires 1 <= maxRetries <= |env.stsAnswers|
      modifies this`dnsSession, this`credentials, env`stsAnswers, env`stsRequests, env`now, env`sleeps
      ensures status == AssumeStatus(old(env.stsAnswers), maxRetries)
      ensures var k := FinalAttempt(old(env.stsAnswers), 0, maxRetries);
              && env.stsAnswers == old(env.stsAnswers)[k + 1..]
              && env.stsRequests == old(env.stsRequests)
                   + AttemptRequests(RoleArn(dnsAccountId, dnsRoleName), externalId, old(env.now), retryDelay, k + 1)
              && env.sleeps == old(env.sleeps) + Delays(retryDelay, k)
              && env.now == Stamp(old(env.now), retryDelay, k)
      ensures var issued := old(env.stsAnswers)[FinalAttempt(old(env.stsAnswers), 0, maxRetries)];
              status == Success ==>
                (issued.Issued?
                 && credentials == Some(issued.credentials)
                 && dnsSession == Some(SessionFrom(issued.credentials)))
      ensures status != Success ==> credentials == old(credentials) && dnsSession == old(dnsSession)
    {
      var roleArn := RoleArn(dnsAccountId, dnsRoleName);
      ghost var answers := env.stsAnswers;
      ghost var k := FinalAttempt(answers, 0, maxRetries);
      var attempt := 0;
      while attempt < maxRetries
        invariant attempt <= k
        invariant env.stsAnswers == answers[attempt..]
        invariant env.stsRequests == old(env.stsRequests)
                    + AttemptRequests(roleArn, externalId, old(env.now), retryDelay, attempt)
        invariant env.sleeps == old(env.sleeps) + Delays(retryDelay, attempt)
        invariant env.now == Stamp(old(env.now), retryDelay, attempt)
        invariant credentials == old(credentials) && dnsSession == old(dnsSession)
      {
        var now := env.Time();
        var request := AssumeRoleRequest(roleArn, SessionName(now), externalId, DurationSeconds);
        var response := env.AssumeRole(request);
        assert response == answers[attempt] && env.stsAnswers == answers[attempt + 1..];
        assert AttemptRequests(roleArn, externalId, old(env.now), retryDelay, attempt + 1)
            == AttemptRequests(roleArn, externalId, old(env.now), retryDelay, attempt) + [request];
        LogGrows(old(env.stsRequests), AttemptRequests(roleArn, externalId, old(env.now), retryDelay, attempt), request);
        if !IsExpiredToken(response) || attempt == maxRetries - 1 {
          LoopEndsAt(answers, maxRetries, attempt);
        }
        match response {
          case Issued(c) =>
            credentials := Some(c);
            dnsSession := Some(SessionFrom(c));
            status := Success;
          case Rejected(e) =>
            if e.code == AccessDeniedCode {
              status := Failure(HandleAccessDenied(e.message));
            } else if e.code == ExpiredTokenCode {
              if attempt < maxRetries - 1 {
                env.Sleep(retryDelay);
                LogGrows(old(env.sleeps), Delays(retryDelay, attempt), retryDelay);
                assert Delays(retryDelay, attempt + 1) == Delays(retryDelay, attempt) + [retryDelay];
                attempt := attempt + 1;
                continue;
              }
              status := Failure(MaxRetriesReached);
            } else {
              status := Failure(AwsErrorPrefix + e.text);
            }
          case Unexpected(text) =>
            status := Failure(UnexpectedAssumePrefix + text);
        }
        // Every branch but a retry returns.
        return;
      }
      // Every attempt up to the last one returns, so the loop never runs out.
      assert false;
    }

    /** `verify_route53_access`: the session guard, then the listing probe,
        then the zone lookup; the calls made and the result are those of the
        specification, and nothing else changes. */
    method VerifyRoute53Access(hostedZoneId: string, env: Environment) returns (status: Status)
      requires |env.route53Answers| >= 2
      modifies env`route53Answers, env`route53Calls
      ensures status == VerifyStatus(dnsSession.Some?, old(env.route53Answers))
      ensures env.route53Calls
           == old(env.route53Calls) + ProbeCalls(dnsSession.Some?, old(env.route53Answers), hostedZoneId)
      ensures env.route53Answers
           == old(env.route53Answers)[|ProbeCalls(dnsSession.Some?, old(env.route53Answers), hostedZoneId)|..]
    {
      if dnsSession.None? {
        return Failure(NoSessionDiagnostic);
      }
      var listed := env.ListHostedZones(ListZonesMaxItems);
      match listed {
        case ProbeRejected(e) =>
          return Failure(HandleRoute53Error(e.code, e.message, ListZonesAction));
        case ProbeUnexpected(text) =>
          return Failure(UnexpectedRoute53Prefix + text);
        case Answered =>
      }
      var zone := env.GetHostedZone(hostedZoneId);
      match zone {
        case Answered =>
          return Success;
        case ProbeRejected(e) =>
          return Failure(HandleRoute53Error(e.code, e.message, AccessZoneAction));
        case ProbeUnexpected(text) =>
          return Failure(UnexpectedRoute53Prefix + text);
      }
    }
  }

  /** What `setup_cross_account_access` returns, given the STS and Route53
      answers in order, for a freshly constructed manager. */
  function SetupResult(stsAnswers: seq<StsOutcome>, route53Answers: seq<ProbeOutcome>): AccessResult
    requires DefaultMaxRetries <= |stsAnswers| && 2 <= |route53Answers|
  {
    match AssumeStatus(stsAnswers, DefaultMaxRetries)
    case Failure(d) => AccessResult(false, Some(AssumeFailedPrefix + d), None)
    case Success =>
      match VerifyStatus(true, route53Answers)
      case Failure(d) => AccessResult(false, Some(VerifyFailedPrefix + d), None)
      case Success =>
        AssumeSucceedsIff(stsAnswers, DefaultMaxRetries);
        var issued := stsAnswers[FinalAttempt(stsAnswers, 0, DefaultMaxRetries)];
        AccessResult(true, None, Some(SessionFrom(issued.credentials)))
  }

  /** The Route53 calls the setup makes: none unless the role was assumed. */
  function SetupRoute53Calls(stsAnswers: seq<StsOutcome>, route53Answers: seq<ProbeOutcome>, hostedZoneId: string): seq<Route53Call>
    requires DefaultMaxRetries <= |stsAnswers| && 2 <= |route53Answers|
  {
    if AssumeStatus(stsAnswers, DefaultMaxRetries).Failure? then []
    else ProbeCalls(true, route53Answers, hostedZoneId)
  }

  /** `setup_cross_account_access`: assume the role, then verify Route53
      access with the new session, prefixing whichever step's diagnostic
      failed. */
  method SetupCrossAccountAccess(dnsAccountId: string, dnsRoleName: string, externalId: string,
                                 hostedZoneId: string, env: Environment)
    returns (result: AccessResult)
    requires DefaultMaxRetries <= |env.stsAnswers| && 2 <= |env.route53Answers|
    modifies env
    ensures result == SetupResult(old(env.stsAnswers), old(env.route53Answers))
    ensures var k := FinalAttempt(old(env.stsAnswers), 0, DefaultMaxRetries);
            && env.stsRequests == old(env.stsRequests)
                 + AttemptRequests(RoleArn(dnsAccountId, dnsRoleName), externalId, old(env.now), DefaultRetryDelay, k + 1)
            && env.sleeps == old(env.sleeps) + Delays(DefaultRetryDelay, k)
            && env.now == Stamp(old(env.now), DefaultRetryDelay, k)
            && env.stsAnswers == old(env.stsAnswers)[k + 1..]
    ensures env.route53Calls
         == old(env.route53Calls) + SetupRoute53Calls(old(env.stsAnswers), old(env.route53Answers), hostedZoneId)
    ensures env.route53Answers
         == old(env.route53Answers)[|SetupRoute53Calls(old(env.stsAnswers), old(env.route53Answers), hostedZoneId)|..]
  {
    var manager := new CrossAccountManager(dnsAccountId, dnsRoleName, externalId);
    var assumed := manager.AssumeDnsRole(env);
    if assumed.Failure? {
      return AccessResult(false, Some(AssumeFailedPrefix + assumed.diagnostic), None);
    }
    var verified := manager.VerifyRoute53Access(hostedZoneId, env);
    if verified.Failure? {
      return AccessResult(false, Some(VerifyFailedPrefix + verified.diagnostic), None);
    }
    return AccessResult(true, None, manager.dnsSession);
  }

  /** A failed role assumption ends the setup: verification never runs, no
      session is returned, and the diagnostic is the assume step's, prefixed. */
  lemma SetupStopsAfterFailedAssume(stsAnswers: seq<StsOutcome>, route53Answers: seq<ProbeOutcome>, hostedZoneId: string)
    requires DefaultMaxRetries <= |stsAnswers| && 2 <= |route53Answers|
    requires AssumeStatus(stsAnswers, DefaultMaxRetries).Failure?
    ensures SetupRoute53Calls(stsAnswers, route53Answers, hostedZoneId) == []
    ensures SetupResult(stsAnswers, route53Answers)
         == AccessResult(false, Some(AssumeFailedPrefix + AssumeStatus(stsAnswers, DefaultMaxRetries).diagnostic), None)
  {
  }

  /** The setup succeeds exactly when the role is assumed and both probes
      are answered; a success carries the session built from the issued
      credentials and no diagnostic, a failure a diagnostic and no session. */
  lemma SetupSucceedsIff(stsAnswers: seq<StsOutcome>, route53Answers: seq<ProbeOutcome>)
    requires DefaultMaxRetries <= |stsAnswers| && 2 <= |route53Answers|
    ensures SetupResult(stsAnswers, route53Answers).success
        <==> AssumeStatus(stsAnswers, DefaultMaxRetries) == Success
             && route53Answers[0].Answered? && route53Answers[1].Answered?
    ensures SetupResult(stsAnswers, route53Answers).success
        ==> (var issued := stsAnswers[FinalAttempt(stsAnswers, 0, DefaultMaxRetries)];
             && issued.Issued?
             && SetupResult(stsAnswers, route53Answers)
                == AccessResult(true, None, Some(SessionFrom(issued.credentials))))
    ensures !SetupResult(stsAnswers, route53Answers).success
        ==> SetupResult(stsAnswers, route53Answers).error.Some?
            && SetupResult(stsAnswers, route53Answers).session == None
  {
    AssumeSucceedsIff(stsAnswers, DefaultMaxRetries);
    VerifySucceedsIff(route53Answers, "");
  }

  /** A failure's diagnostic says which step failed: it starts with the
      assume prefix exactly when the role could not be assumed, and with the
      verify prefix exactly when the probes failed after that. The verify
      step never reports a missing session here, since setup only verifies
      after a successful assumption. */
  lemma SetupDiagnosticNamesStep(stsAnswers: seq<StsOutcome>, route53Answers: seq<ProbeOutcome>)
    requires DefaultMaxRetries <= |stsAnswers| && 2 <= |route53Answers|
    requires !SetupResult(stsAnswers, route53Answers).success
    ensures SetupResult(stsAnswers, route53Answers).error.Some?
    ensures var e := SetupResult(stsAnswers, route53Answers).error.value;
            && (AssumeFailedPrefix <= e <==> AssumeStatus(stsAnswers, DefaultMaxRetries).Failure?)
            && (VerifyFailedPrefix <= e <==> AssumeStatus(stsAnswers, DefaultMaxRetries) == Success)
            && e != VerifyFailedPrefix + NoSessionDiagnostic
  {
    var e := SetupResult(stsAnswers, route53Answers).error.value;
    assert AssumeFailedPrefix[10] == 'a' && VerifyFailedPrefix[10] == 'v';
    if AssumeStatus(stsAnswers, DefaultMaxRetries).Failure? {
      assert e[..|AssumeFailedPrefix|] == AssumeFailedPrefix;
    } else {
      assert e[..|VerifyFailedPrefix|] == VerifyFailedPrefix;
      var d := VerifyStatus(true, route53Answers).diagnostic;
      SessionProbesNeverReportMissingSession(route53Answers);
      assert e[|VerifyFailedPrefix|..] == d;
      assert (VerifyFailedPrefix + NoSessionDiagnostic)[|VerifyFailedPrefix|..] == NoSessionDiagnostic;
    }
  }

  /** An AccessDenied on the first attempt whose message matches neither
      marker is reported as "Failed to assume DNS role: Access Denied: <message>"
      after one request, with no sleep and no Route53 call. */
  lemma SetupDeniedOnFirstAttempt(stsAnswers: seq<StsOutcome>, route53Answers: seq<ProbeOutcome>, hostedZoneId: string)
    requires DefaultMaxRetries <= |stsAnswers| && 2 <= |route53Answers|
    requires stsAnswers[0].Rejected? && stsAnswers[0].error.code == AccessDeniedCode
    requires !Contains(stsAnswers[0].error.message, NotAuthorizedMarker)
    requires !Contains(stsAnswers[0].error.message, RoleMissingMarker)
    ensures FinalAttempt(stsAnswers, 0, DefaultMaxRetries) == 0
    ensures SetupRoute53Calls(stsAnswers, route53Answers, hostedZoneId) == []
    ensures SetupResult(stsAnswers, route53Answers).error
         == Some(AssumeFailedPrefix + AccessDeniedPrefix + stsAnswers[0].error.message)
  {
    TerminalErrorStops(stsAnswers, DefaultMaxRetries, 0);
    var m := stsAnswers[0].error.message;
    AccessDeniedClassification(m);
    assert AssumeFailedPrefix + (AccessDeniedPrefix + m) == AssumeFailedPrefix + AccessDeniedPrefix + m;
  }
}
