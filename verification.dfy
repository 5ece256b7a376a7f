/** `CrossAccountManager.verify_route53_access` as pure functions of whether
    a session exists and of the answers the Route53 endpoint gives: which
    probes are sent and what the step returns. */
module Verification {
  import opened Text
  import opened Provider
  import opened Diagnostics

  /** Written in two pieces: the verifier reasons about the characters of
      short literals only. */
  const NoSessionDiagnostic := "No DNS session established. " + "Call assume_dns_role first."
  const UnexpectedRoute53Prefix := "Unexpected error accessing Route53: "
  /** The action named in a diagnostic for the first and the second probe. */
  const ListZonesAction := "list zones"
  const AccessZoneAction := "access zone"
  /** `list_hosted_zones(MaxItems='1')`: the least-privileged probe. */
  const ListZonesMaxItems := "1"

  /** What a probe's answer makes the step return; `action` names the probe. */
  function ProbeStatus(o: ProbeOutcome, action: string): Status
  {
    match o
    case Answered => Success
    case ProbeRejected(e) => Failure(HandleRoute53Error(e.code, e.message, action))
    case ProbeUnexpected(text) => Failure(UnexpectedRoute53Prefix + text)
  }

  /** The Route53 calls the step makes: none without a session, the zone
      lookup only after the listing was answered. */
  function ProbeCalls(hasSession: bool, answers: seq<ProbeOutcome>, hostedZoneId: string): seq<Route53Call>
    requires |answers| >= 2
  {
    if !hasSession then []
    else if !answers[0].Answered? then [ListZonesCall(ListZonesMaxItems)]
    else [ListZonesCall(ListZonesMaxItems), GetZoneCall(hostedZoneId)]
  }

  /** The result of `verify_route53_access` given the Route53 answers in order. */
  function VerifyStatus(hasSession: bool, answers: seq<ProbeOutcome>): Status
    requires |answers| >= 2
  {
    if !hasSession then Failure(NoSessionDiagnostic)
    else if !answers[0].Answered? then ProbeStatus(answers[0], ListZonesAction)
    else ProbeStatus(answers[1], AccessZoneAction)
  }

  /** Without a session the step fails at once and calls nothing. */
  lemma NoSessionGuard(answers: seq<ProbeOutcome>, hostedZoneId: string)
    requires |answers| >= 2
    ensures VerifyStatus(false, answers) == Failure(NoSessionDiagnostic)
    ensures ProbeCalls(false, answers, hostedZoneId) == []
  {
  }

  /** A failed listing stops the step: the zone is never looked up and the
      failure is explained for the action "list zones" (by name, when the
      code is AccessDenied). */
  lemma ListFailureShortCircuits(answers: seq<ProbeOutcome>, hostedZoneId: string)
    requires |answers| >= 2 && !answers[0].Answered?
    ensures forall c :: c in ProbeCalls(true, answers, hostedZoneId) ==> !c.GetZoneCall?
    ensures VerifyStatus(true, answers) == ProbeStatus(answers[0], ListZonesAction)
    ensures VerifyStatus(true, answers).Failure?
    ensures answers[0].ProbeRejected? && answers[0].error.code == AccessDeniedCode
        ==> Contains(VerifyStatus(true, answers).diagnostic, UnableTo(ListZonesAction))
  {
    if answers[0].ProbeRejected? && answers[0].error.code == AccessDeniedCode {
      Route53ChecklistNamesAction(answers[0].error.code, answers[0].error.message, ListZonesAction);
    }
  }

  /** A failed zone lookup after a successful listing is explained for the
      action "access zone"; for AccessDenied it names that action, and its
      diagnostic differs from the one a failed listing would give. */
  lemma GetFailureNamesZoneAccess(answers: seq<ProbeOutcome>, hostedZoneId: string)
    requires |answers| >= 2 && answers[0].Answered? && !answers[1].Answered?
    ensures ProbeCalls(true, answers, hostedZoneId) == [ListZonesCall(ListZonesMaxItems), GetZoneCall(hostedZoneId)]
    ensures VerifyStatus(true, answers) == ProbeStatus(answers[1], AccessZoneAction)
    ensures VerifyStatus(true, answers).Failure?
    ensures answers[1].ProbeRejected? && answers[1].error.code == AccessDeniedCode
        ==> (Contains(VerifyStatus(true, answers).diagnostic, UnableTo(AccessZoneAction))
             && VerifyStatus(true, answers).diagnostic != Route53Checklist(ListZonesAction))
  {
    if answers[1].ProbeRejected? && answers[1].error.code == AccessDeniedCode {
      Route53ChecklistNamesAction(answers[1].error.code, answers[1].error.message, AccessZoneAction);
      if Route53Checklist(AccessZoneAction) == Route53Checklist(ListZonesAction) {
        Route53ChecklistDeterminesAction(AccessZoneAction, ListZonesAction);
      }
    }
  }

  /** Verification succeeds exactly when a session exists and both probes
      are answered; only then is the zone looked up and the step passes. */
  lemma VerifySucceedsIff(answers: seq<ProbeOutcome>, hostedZoneId: string)
    requires |answers| >= 2
    ensures VerifyStatus(true, answers) == Success <==> answers[0].Answered? && answers[1].Answered?
    ensures VerifyStatus(false, answers) != Success
    ensures |ProbeCalls(true, answers, hostedZoneId)| == (if answers[0].Answered? then 2 else 1)
  {
  }

  /** Once a session exists, no probe failure is ever reported as a missing
      session: the two kinds of diagnostic are told apart. */
  lemma SessionProbesNeverReportMissingSession(answers: seq<ProbeOutcome>)
    requires |answers| >= 2 && VerifyStatus(true, answers).Failure?
    ensures VerifyStatus(true, answers).diagnostic != NoSessionDiagnostic
  {
    var d := VerifyStatus(true, answers).diagnostic;
    var o := if !answers[0].Answered? then answers[0] else answers[1];
    assert NoSessionDiagnostic[0] == 'N';
    match o
    case ProbeRejected(e) =>
      assert Route53DeniedLead[0] == 'R' && HostedZoneNotFoundPrefix[0] == 'H' && Route53ErrorPrefix[0] == 'R';
      assert d[0] == 'R' || d[0] == 'H';
    case ProbeUnexpected(_) =>
      assert d[0] == UnexpectedRoute53Prefix[0] == 'U';
  }
}
