/** The role-assumption step of `CrossAccountManager.assume_dns_role` as
    pure functions of the answers the STS endpoint gives: which requests are
    sent, which attempt ends the retry loop, and what the step returns. */
module RetryPolicy {
  import opened Text
  import opened Provider
  import opened Diagnostics

  const ExpiredTokenCode := "ExpiredToken"
  const MaxRetriesReached := "Token expired and max retries reached"
  const AwsErrorPrefix := "AWS Error: "
  const UnexpectedAssumePrefix := "Unexpected error during role assumption: "
  const SessionNamePrefix := "CertbotDNS-"
  /** The fixed credential lifetime requested from STS. */
  const DurationSeconds := 900

  /** The ARN of the role to assume in the DNS account. */
  function RoleArn(accountId: string, roleName: string): string
  {
    "arn:aws:iam::" + accountId + ":role/" + roleName
  }

  /** Account IDs never contain ':', so the ARN names exactly one
      (account, role) pair. */
  lemma RoleArnDeterminesRole(a1: string, r1: string, a2: string, r2: string)
    requires ':' !in a1 && ':' !in a2
    requires RoleArn(a1, r1) == RoleArn(a2, r2)
    ensures a1 == a2 && r1 == r2
  {
    var head, sep := "arn:aws:iam::", ":role/";
    var s := RoleArn(a1, r1);
    assert s == head + a1 + sep + r1 && s == head + a2 + sep + r2;
    if |a1| < |a2| {
      ColonEndsAccount(a1, r1, |a1|);
      ColonEndsAccount(a2, r2, |a1|);
      assert false;
    } else if |a2| < |a1| {
      ColonEndsAccount(a2, r2, |a2|);
      ColonEndsAccount(a1, r1, |a2|);
      assert false;
    }
    assert a1 == s[|head|..|head| + |a1|] == a2;
    assert r1 == s[|head| + |a1| + |sep|..] == r2;
  }

  /** Past the fixed head, the ARN's first ':' is the one right after the
      account ID. */
  lemma ColonEndsAccount(a: string, r: string, i: nat)
    requires ':' !in a && i <= |a|
    ensures |"arn:aws:iam::"| + i < |RoleArn(a, r)|
    ensures RoleArn(a, r)[|"arn:aws:iam::"| + i] == ':' <==> i == |a|
  {
    var s := RoleArn(a, r);
    assert s == "arn:aws:iam::" + a + ":role/" + r;
    if i < |a| {
      assert s[|"arn:aws:iam::"| + i] == a[i];
    }
  }

  /** `RoleSessionName=f"CertbotDNS-{int(time.time())}"`. */
  function SessionName(t: nat): string
  {
    SessionNamePrefix + Decimal(t)
  }

  /** Requests sent at different seconds carry different session names. */
  lemma SessionNameInjective(t1: nat, t2: nat)
    requires SessionName(t1) == SessionName(t2)
    ensures t1 == t2
  {
    assert Decimal(t1) == SessionName(t1)[|SessionNamePrefix|..];
    assert Decimal(t2) == SessionName(t2)[|SessionNamePrefix|..];
    DecimalInjective(t1, t2);
  }

  /** The clock reading at attempt `i` when the first attempt reads `start`
      and each retry is preceded by a sleep of `delay` seconds. */
  function Stamp(start: nat, delay: nat, i: nat): nat
  {
    if i == 0 then start else Stamp(start, delay, i - 1) + delay
  }

  lemma {:induction false} StampIsLinear(start: nat, delay: nat, i: nat)
    ensures Stamp(start, delay, i) == start + i * delay
  {
    if i > 0 {
      StampIsLinear(start, delay, i - 1);
    }
  }

  /** With a positive delay, later attempts read a later second. */
  lemma {:induction false} StampIncreasing(start: nat, delay: nat, i: nat, j: nat)
    requires delay > 0 && i < j
    ensures Stamp(start, delay, i) < Stamp(start, delay, j)
  {
    if i < j - 1 {
      StampIncreasing(start, delay, i, j - 1);
    }
  }

  /** Appending one more entry to a log that already ends with `earlier`. */
  lemma LogGrows<T>(log: seq<T>, earlier: seq<T>, next: T)
    ensures log + earlier + [next] == log + (earlier + [next])
  {
  }

  /** The sleeps taken before the first `n` retries: `delay` seconds each. */
  function Delays(delay: nat, n: nat): (d: seq<nat>)
    ensures |d| == n && forall i :: 0 <= i < n ==> d[i] == delay
  {
    if n == 0 then [] else Delays(delay, n - 1) + [delay]
  }

  /** The requests of the first `n` attempts, when the loop starts at clock
      reading `start` and sleeps `delay` seconds before each retry. */
  function AttemptRequests(arn: string, externalId: string, start: nat, delay: nat, n: nat): (r: seq<AssumeRoleRequest>)
    ensures |r| == n
  {
    if n == 0 then []
    else AttemptRequests(arn, externalId, start, delay, n - 1)
         + [AssumeRoleRequest(arn, SessionName(Stamp(start, delay, n - 1)), externalId, DurationSeconds)]
  }

  /** Attempt `i` asks for the given role with the stored external ID and a
      900-second lifetime, named after its clock reading. */
  lemma {:induction false} AttemptRequestAt(arn: string, externalId: string, start: nat, delay: nat, n: nat, i: nat)
    requires i < n
    ensures AttemptRequests(arn, externalId, start, delay, n)[i]
         == AssumeRoleRequest(arn, SessionName(Stamp(start, delay, i)), externalId, DurationSeconds)
  {
    if i < n - 1 {
      AttemptRequestAt(arn, externalId, start, delay, n - 1, i);
    }
  }

  /** With a positive delay no two attempts share a session name. */
  lemma AttemptSessionNamesDistinct(arn: string, externalId: string, start: nat, delay: nat, n: nat, i: nat, j: nat)
    requires delay > 0 && i < j < n
    ensures AttemptRequests(arn, externalId, start, delay, n)[i].roleSessionName
         != AttemptRequests(arn, externalId, start, delay, n)[j].roleSessionName
  {
    AttemptRequestAt(arn, externalId, start, delay, n, i);
    AttemptRequestAt(arn, externalId, start, delay, n, j);
    StampIncreasing(start, delay, i, j);
    if SessionName(Stamp(start, delay, i)) == SessionName(Stamp(start, delay, j)) {
      SessionNameInjective(Stamp(start, delay, i), Stamp(start, delay, j));
    }
  }

  /** The one failure `assume_dns_role` retries. */
  predicate IsExpiredToken(o: StsOutcome)
  {
    o.Rejected? && o.error.code == ExpiredTokenCode
  }

  /** The attempt at which the loop stops, scanning from `from`: the first
      answer that is not ExpiredToken, or the last permitted attempt. */
  function FinalAttempt(answers: seq<StsOutcome>, from: nat, maxRetries: nat): (k: nat)
    requires from < maxRetries <= |answers|
    ensures from <= k < maxRetries
    ensures forall i :: from <= i < k ==> IsExpiredToken(answers[i])
    ensures k < maxRetries - 1 ==> !IsExpiredToken(answers[k])
    decreases maxRetries - from
  {
    if from == maxRetries - 1 || !IsExpiredToken(answers[from]) then from
    else FinalAttempt(answers, from + 1, maxRetries)
  }

  /** What the attempt that ends the loop makes `assume_dns_role` return. */
  function AttemptStatus(o: StsOutcome): Status
  {
    match o
    case Issued(_) => Success
    case Rejected(e) =>
      if e.code == AccessDeniedCode then Failure(HandleAccessDenied(e.message))
      else if e.code == ExpiredTokenCode then Failure(MaxRetriesReached)
      else Failure(AwsErrorPrefix + e.text)
    case Unexpected(text) => Failure(UnexpectedAssumePrefix + text)
  }

  /** The result of `assume_dns_role` given the STS answers in order. */
  function AssumeStatus(answers: seq<StsOutcome>, maxRetries: nat): Status
    requires 1 <= maxRetries <= |answers|
  {
    AttemptStatus(answers[FinalAttempt(answers, 0, maxRetries)])
  }

  /** The attempt that ends the loop is determined by the two facts
      FinalAttempt promises: all earlier answers were ExpiredToken, and this
      one is not unless it is the last permitted attempt. */
  lemma FinalAttemptUnique(answers: seq<StsOutcome>, maxRetries: nat, j: nat)
    requires j < maxRetries <= |answers|
    requires forall i :: 0 <= i < j ==> IsExpiredToken(answers[i])
    requires j < maxRetries - 1 ==> !IsExpiredToken(answers[j])
    ensures FinalAttempt(answers, 0, maxRetries) == j
  {
  }

  /** An attempt reached after nothing but ExpiredToken errors ends the loop
      when its own answer is not ExpiredToken or no retry is left; the
      step's result is then that attempt's. */
  lemma {:induction false} LoopEndsAt(answers: seq<StsOutcome>, maxRetries: nat, j: nat)
    requires j < maxRetries <= |answers|
    requires j <= FinalAttempt(answers, 0, maxRetries)
    requires j < maxRetries - 1 ==> !IsExpiredToken(answers[j])
    ensures FinalAttempt(answers, 0, maxRetries) == j
    ensures AssumeStatus(answers, maxRetries) == AttemptStatus(answers[j])
  {
    FinalAttemptUnique(answers, maxRetries, j);
  }

  /** If every attempt hits ExpiredToken, all `maxRetries` attempts are made
      and the step reports that retries ran out. */
  lemma {:induction false} RetriesExhausted(answers: seq<StsOutcome>, maxRetries: nat)
    requires 1 <= maxRetries <= |answers|
    requires forall i :: 0 <= i < maxRetries ==> IsExpiredToken(answers[i])
    ensures FinalAttempt(answers, 0, maxRetries) == maxRetries - 1
    ensures AssumeStatus(answers, maxRetries) == Failure(MaxRetriesReached)
  {
    FinalAttemptUnique(answers, maxRetries, maxRetries - 1);
  }

  /** Any error other than ExpiredToken ends the loop on the attempt that
      received it: AccessDenied is explained by `_handle_access_denied`, every
      other code is reported as an AWS error. */
  lemma {:induction false} TerminalErrorStops(answers: seq<StsOutcome>, maxRetries: nat, j: nat)
    requires j < maxRetries <= |answers|
    requires forall i :: 0 <= i < j ==> IsExpiredToken(answers[i])
    requires answers[j].Rejected? && answers[j].error.code != ExpiredTokenCode
    ensures FinalAttempt(answers, 0, maxRetries) == j
    ensures answers[j].error.code == AccessDeniedCode
        ==> AssumeStatus(answers, maxRetries) == Failure(HandleAccessDenied(answers[j].error.message))
    ensures answers[j].error.code != AccessDeniedCode
        ==> AssumeStatus(answers, maxRetries) == Failure(AwsErrorPrefix + answers[j].error.text)
  {
    FinalAttemptUnique(answers, maxRetries, j);
  }

  /** The step succeeds exactly when some attempt within the limit is
      answered with credentials after nothing but ExpiredToken errors; the
      credentials kept are those of that attempt. */
  lemma {:induction false} AssumeSucceedsIff(answers: seq<StsOutcome>, maxRetries: nat)
    requires 1 <= maxRetries <= |answers|
    ensures AssumeStatus(answers, maxRetries) == Success
        <==> exists j :: 0 <= j < maxRetries && answers[j].Issued?
                         && forall i :: 0 <= i < j ==> IsExpiredToken(answers[i])
    ensures AssumeStatus(answers, maxRetries) == Success
        ==> answers[FinalAttempt(answers, 0, maxRetries)].Issued?
  {
    var k := FinalAttempt(answers, 0, maxRetries);
    if j :| 0 <= j < maxRetries && answers[j].Issued? && forall i :: 0 <= i < j ==> IsExpiredToken(answers[i]) {
      FinalAttemptUnique(answers, maxRetries, j);
    }
    if AssumeStatus(answers, maxRetries) == Success {
      assert answers[k].Issued?;
    }
  }
}
