/** The outside world the handler talks to, as a scripted oracle: the STS
    endpoint (assume_role), the Route53 endpoint (list_hosted_zones,
    get_hosted_zone) and the wall clock (time.time, time.sleep). Nothing about
    AWS semantics is modelled: each call simply receives the next scripted
    answer, and every request and every sleep is recorded. */
module Provider {

  datatype Option<+T> = None | Some(value: T)

  /** A botocore ClientError: the `Code` and `Message` of its `Error` entry
      (each '' when absent) and `text`, the opaque `str(e)` rendering. */
  datatype ProviderError = ProviderError(code: string, message: string, text: string)

  /** The temporary credentials in an assume_role response. */
  datatype Credentials = Credentials(
    accessKeyId: string,
    secretAccessKey: string,
    sessionToken: string,
    expiration: string)

  /** A boto3 Session built from the three credential parts. */
  datatype Session = Session(accessKeyId: string, secretAccessKey: string, sessionToken: string)

  function SessionFrom(c: Credentials): Session
  {
    Session(c.accessKeyId, c.secretAccessKey, c.sessionToken)
  }

  /** What one assume_role call does: return credentials, raise a
      ClientError, or raise some other exception (its `str` text). */
  datatype StsOutcome =
    | Issued(credentials: Credentials)
    | Rejected(error: ProviderError)
    | Unexpected(text: string)

  /** What one Route53 probe does; a successful answer's payload is never read. */
  datatype ProbeOutcome =
    | Answered
    | ProbeRejected(error: ProviderError)
    | ProbeUnexpected(text: string)

  /** The keyword arguments of one sts.assume_role call. */
  datatype AssumeRoleRequest = AssumeRoleRequest(
    roleArn: string,
    roleSessionName: string,
    externalId: string,
    durationSeconds: nat)

  /** One Route53 call with its argument. */
  datatype Route53Call =
    | ListZonesCall(maxItems: string)
    | GetZoneCall(id: string)

  class Environment {
    /** Answers still to be given, in order. */
    var stsAnswers: seq<StsOutcome>
    var route53Answers: seq<ProbeOutcome>
    /** Every call received so far, in order. */
    var stsRequests: seq<AssumeRoleRequest>
    var route53Calls: seq<Route53Call>
    /** `int(time.time())`, and every `time.sleep` so far. */
    var now: nat
    var sleeps: seq<nat>

    constructor (stsScript: seq<StsOutcome>, route53Script: seq<ProbeOutcome>, start: nat)
      ensures stsAnswers == stsScript && route53Answers == route53Script && now == start
      ensures stsRequests == [] && route53Calls == [] && sleeps == []
    {
      stsAnswers, route53Answers := stsScript, route53Script;
      stsRequests, route53Calls := [], [];
      now, sleeps := start, [];
    }

    method AssumeRole(request: AssumeRoleRequest) returns (outcome: StsOutcome)
      requires |stsAnswers| > 0
      modifies this`stsAnswers, this`stsRequests
      ensures outcome == old(stsAnswers[0]) && stsAnswers == old(stsAnswers[1..])
      ensures stsRequests == old(stsRequests) + [request]
    {
      outcome := stsAnswers[0];
      stsAnswers := stsAnswers[1..];
      stsRequests := stsRequests + [request];
    }

    method ListHostedZones(maxItems: string) returns (outcome: ProbeOutcome)
      requires |route53Answers| > 0
      modifies this`route53Answers, this`route53Calls
      ensures outcome == old(route53Answers[0]) && route53Answers == old(route53Answers[1..])
      ensures route53Calls == old(route53Calls) + [ListZonesCall(maxItems)]
    {
      outcome := route53Answers[0];
      route53Answers := route53Answers[1..];
      route53Calls := route53Calls + [ListZonesCall(maxItems)];
    }

    method GetHostedZone(id: string) returns (outcome: ProbeOutcome)
      requires |route53Answers| > 0
      modifies this`route53Answers, this`route53Calls
      ensures outcome == old(route53Answers[0]) && route53Answers == old(route53Answers[1..])
      ensures route53Calls == old(route53Calls) + [GetZoneCall(id)]
    {
      outcome := route53Answers[0];
      route53Answers := route53Answers[1..];
      route53Calls := route53Calls + [GetZoneCall(id)];
    }

    method Time() returns (t: nat)
      ensures t == now
    {
      t := now;
    }

    method Sleep(seconds: nat)
      modifies this`now, this`sleeps
      ensures now == old(now) + seconds && sleeps == old(sleeps) + [seconds]
    {
      now := now + seconds;
      sleeps := sleeps + [seconds];
    }
  }
}
