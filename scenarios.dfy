/** Concrete runs, proved from the method contracts alone: what a caller of
    the manager can rely on for a given script of provider answers. */
module Scenarios {
  import opened Text
  import opened Provider
  import opened Diagnostics
  import opened RetryPolicy
  import opened Verification
  import opened CrossAccount

  const Account := "111122223333"
  const Role := "certbot-dns-role"
  const External := "shared-external-id"
  const Zone := "Z0123456789"
  const Creds := Credentials("AKIA", "secret", "token", "2026-01-01T00:15:00Z")

  /** Three ExpiredToken answers: three requests, two 5-second sleeps, the
      exhausted-retries diagnostic, and the manager's state left unset. */
  method ExpiredTokenEveryTime()
  {
    var expired := Rejected(ProviderError(ExpiredTokenCode, "expired", "ExpiredToken: expired"));
    var env := new Environment([expired, expired, expired], [], 1000);
    var manager := new CrossAccountManager(Account, Role, External);
    var status := manager.AssumeDnsRole(env);
    RetriesExhausted([expired, expired, expired], 3);
    assert status == Failure(MaxRetriesReached);
    assert |env.stsRequests| == 3 && env.sleeps == [5, 5] && env.now == 1010;
    assert manager.credentials == None && manager.dnsSession == None;
    AttemptSessionNamesDistinct(RoleArn(Account, Role), External, 1000, 5, 3, 0, 2);
    assert env.stsRequests[0].roleSessionName != env.stsRequests[2].roleSessionName;
  }

  /** AccessDenied on the first attempt: one request, no sleep. */
  method DeniedAtOnce()
  {
    var denied := Rejected(ProviderError(AccessDeniedCode, "nope", "AccessDenied: nope"));
    var env := new Environment([denied, Issued(Creds), Issued(Creds)], [], 0);
    var manager := new CrossAccountManager(Account, Role, External);
    var status := manager.AssumeDnsRole(env);
    TerminalErrorStops([denied, Issued(Creds), Issued(Creds)], 3, 0);
    assert status == Failure(HandleAccessDenied("nope"));
    assert |env.stsRequests| == 1 && env.sleeps == [];
    AttemptRequestAt(RoleArn(Account, Role), External, 0, 5, 1, 0);
    assert env.stsRequests[0].roleArn == RoleArn(Account, Role);
    assert env.stsRequests[0].externalId == External && env.stsRequests[0].durationSeconds == 900;
  }

  /** Verifying before assuming a role fails at once and calls nothing. */
  method VerifyWithoutSession()
  {
    var env := new Environment([], [Answered, Answered], 0);
    var manager := new CrossAccountManager(Account, Role, External);
    var status := manager.VerifyRoute53Access(Zone, env);
    assert status == Failure(NoSessionDiagnostic);
    assert env.route53Calls == [];
  }

  /** The role is assumed after one retry and both probes are answered:
      the setup returns the session built from the issued credentials. */
  method SetupSucceeds()
  {
    var expired := Rejected(ProviderError(ExpiredTokenCode, "expired", "ExpiredToken: expired"));
    var sts := [expired, Issued(Creds), Issued(Creds)];
    var env := new Environment(sts, [Answered, Answered], 0);
    var result := SetupCrossAccountAccess(Account, Role, External, Zone, env);
    FinalAttemptUnique(sts, 3, 1);
    assert result == AccessResult(true, None, Some(SessionFrom(Creds)));
    assert env.sleeps == [5];
    assert env.route53Calls == [ListZonesCall("1"), GetZoneCall(Zone)];
    assert env.now == 5 && env.stsAnswers == [Issued(Creds)] && env.route53Answers == [];
  }

  /** A denied listing ends the setup before the zone is looked up. */
  method SetupListingDenied()
  {
    var denied := ProbeRejected(ProviderError(AccessDeniedCode, "nope", "AccessDenied: nope"));
    var env := new Environment([Issued(Creds), Issued(Creds), Issued(Creds)], [denied, Answered], 0);
    var result := SetupCrossAccountAccess(Account, Role, External, Zone, env);
    assert result == AccessResult(false, Some(VerifyFailedPrefix + Route53Checklist(ListZonesAction)), None);
    assert env.route53Calls == [ListZonesCall("1")];
  }
}
