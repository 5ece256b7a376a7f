/** The two error classifiers of CrossAccountManager: `_handle_access_denied`
    (role assumption) and `_handle_route53_error` (the Route53 probes). Both
    map an error's code and message to an operator-facing diagnostic and are
    total: every input has exactly one diagnostic. */
module Diagnostics {
  import opened Text

  /** What each step of the handler returns: `(True, None)` or `(False, diagnostic)`. */
  datatype Status = Success | Failure(diagnostic: string)

  const AccessDeniedCode := "AccessDenied"
  const NoSuchHostedZoneCode := "NoSuchHostedZone"

  /** Message fragments `_handle_access_denied` looks for, in this order. */
  const NotAuthorizedMarker := "not authorized to perform: sts:AssumeRole"
  const RoleMissingMarker := "role/certbot-dns-role not found"

  /** The line break and indentation inside the source's triple-quoted checklists. */
  const ChecklistIndent := "\n            "

  /** A diagnostic of the form the source writes as a triple-quoted string:
      an opening line followed by three numbered, indented items. */
  function Checklist(intro: string, first: string, second: string, third: string): string
  {
    intro + Numbered("1. ", first) + Numbered("2. ", second) + Numbered("3. ", third)
  }

  /** One item line of a checklist. */
  function Numbered(number: string, item: string): string
  {
    ChecklistIndent + number + item
  }

  const AccessDeniedPrefix := "Access Denied: "
  const TrustItem := "Trust relationship in DNS account role"
  const ExternalIdItem := "External ID matches configuration"
  const AssumePermissionItem := "App account role has permission to assume DNS role"
  const AssumeRoleChecklist :=
    Checklist(AccessDeniedPrefix + "Role assumption failed. Please check:",
              TrustItem, ExternalIdItem, AssumePermissionItem)
  /** Written in two pieces: the verifier reasons about the characters of
      short literals only. */
  const RoleNotFoundDiagnostic := "Role not found: " + "The specified DNS role does not exist"

  /** `_handle_access_denied`: the diagnostic for an AccessDenied error
      during role assumption, chosen from the error's message. */
  function HandleAccessDenied(message: string): string
  {
    if Contains(message, NotAuthorizedMarker) then AssumeRoleChecklist
    else if Contains(message, RoleMissingMarker) then RoleNotFoundDiagnostic
    else AccessDeniedPrefix + message
  }

  const Route53DeniedLead := "Route53 Access Denied: "
  const Route53PermissionsItem := "DNS role has correct Route53 permissions"
  const ZoneExistsItem := "Hosted zone exists in DNS account"
  const PolicyActionsItem := "IAM policy includes required Route53 actions"
  const HostedZoneNotFoundPrefix := "Hosted zone not found: "
  const Route53ErrorPrefix := "Route53 Error: "

  /** The sentence of the Route53 checklist that names the failed action. */
  function UnableTo(action: string): string
  {
    "Unable to " + action + "."
  }

  /** The checklist `_handle_route53_error` gives for an AccessDenied code. */
  function Route53Checklist(action: string): string
  {
    Checklist(Route53DeniedLead + UnableTo(action) + " Please check:",
              Route53PermissionsItem, ZoneExistsItem, PolicyActionsItem)
  }

  /** `_handle_route53_error`: the diagnostic for a failed Route53 probe. */
  function HandleRoute53Error(code: string, message: string, action: string): string
  {
    if code == AccessDeniedCode then Route53Checklist(action)
    else if code == NoSuchHostedZoneCode then HostedZoneNotFoundPrefix + message
    else Route53ErrorPrefix + message
  }

  /** Every checklist contains its opening line and each of its items. */
  lemma ChecklistParts(intro: string, first: string, second: string, third: string)
    ensures Contains(Checklist(intro, first, second, third), intro)
    ensures Contains(Checklist(intro, first, second, third), first)
    ensures Contains(Checklist(intro, first, second, third), second)
    ensures Contains(Checklist(intro, first, second, third), third)
  {
    var n1, n2, n3 := Numbered("1. ", first), Numbered("2. ", second), Numbered("3. ", third);
    var upTo1 := intro + n1;
    var upTo2 := upTo1 + n2;
    var s := upTo2 + n3;
    ContainsLeft(upTo2, n3);
    ContainsLeft(upTo1, n2);
    ContainsWithin(upTo2, upTo1, s);
    // the opening line
    ContainsLeft(intro, n1);
    ContainsWithin(upTo1, intro, s);
    // the first item
    ContainsRight(ChecklistIndent + "1. ", first);
    ContainsRight(intro, n1);
    ContainsWithin(n1, first, upTo1);
    ContainsWithin(upTo1, first, s);
    // the second item
    ContainsRight(ChecklistIndent + "2. ", second);
    ContainsRight(upTo1, n2);
    ContainsWithin(n2, second, upTo2);
    ContainsWithin(upTo2, second, s);
    // the third item
    ContainsRight(ChecklistIndent + "3. ", third);
    ContainsRight(upTo2, n3);
    ContainsWithin(n3, third, s);
  }

  /** `_handle_access_denied` checks the two markers in a fixed order and
      falls back to echoing the message; "role not found" is told apart from
      every denial, so it is reported exactly when its marker alone matches. */
  lemma AccessDeniedClassification(message: string)
    ensures Contains(message, NotAuthorizedMarker) ==> HandleAccessDenied(message) == AssumeRoleChecklist
    ensures HandleAccessDenied(message) == RoleNotFoundDiagnostic
        <==> !Contains(message, NotAuthorizedMarker) && Contains(message, RoleMissingMarker)
    ensures !Contains(message, NotAuthorizedMarker) && !Contains(message, RoleMissingMarker)
        ==> HandleAccessDenied(message) == AccessDeniedPrefix + message
    ensures AccessDeniedPrefix <= HandleAccessDenied(message) <==> HandleAccessDenied(message) != RoleNotFoundDiagnostic
  {
    var d := HandleAccessDenied(message);
    assert RoleNotFoundDiagnostic[0] == 'R';
    if d != RoleNotFoundDiagnostic {
      assert d[0] == 'A';
    }
  }

  /** The assume-role checklist names the three things to check: the trust
      relationship, the external ID, and the application role's permission. */
  lemma AssumeRoleChecklistItems()
    ensures Contains(AssumeRoleChecklist, TrustItem)
    ensures Contains(AssumeRoleChecklist, ExternalIdItem)
    ensures Contains(AssumeRoleChecklist, AssumePermissionItem)
  {
    ChecklistParts(AccessDeniedPrefix + "Role assumption failed. Please check:",
                   TrustItem, ExternalIdItem, AssumePermissionItem);
  }

  /** Each kind of Route53 error has its own leading text, so the code's
      category can be read back from the diagnostic; for the two non-denial
      codes the provider's message is carried through unchanged. */
  lemma Route53ErrorClassification(code: string, message: string, action: string)
    ensures Route53DeniedLead <= HandleRoute53Error(code, message, action) <==> code == AccessDeniedCode
    ensures HostedZoneNotFoundPrefix <= HandleRoute53Error(code, message, action) <==> code == NoSuchHostedZoneCode
    ensures Route53ErrorPrefix <= HandleRoute53Error(code, message, action)
        <==> code != AccessDeniedCode && code != NoSuchHostedZoneCode
    ensures code == NoSuchHostedZoneCode ==> HandleRoute53Error(code, message, action) == HostedZoneNotFoundPrefix + message
    ensures code != AccessDeniedCode && code != NoSuchHostedZoneCode
        ==> HandleRoute53Error(code, message, action) == Route53ErrorPrefix + message
  {
    var d := HandleRoute53Error(code, message, action);
    assert Route53DeniedLead[8] == 'A' && Route53ErrorPrefix[8] == 'E';
    assert HostedZoneNotFoundPrefix[0] == 'H' && Route53ErrorPrefix[0] == 'R';
    if code == AccessDeniedCode {
      assert d[..|Route53DeniedLead|] == Route53DeniedLead;
    } else if code == NoSuchHostedZoneCode {
      assert d[..|HostedZoneNotFoundPrefix|] == HostedZoneNotFoundPrefix;
    } else {
      assert d[..|Route53ErrorPrefix|] == Route53ErrorPrefix;
    }
  }

  /** For an AccessDenied code the diagnostic names the probe that failed:
      it contains "Unable to <action>." */
  lemma Route53ChecklistNamesAction(code: string, message: string, action: string)
    requires code == AccessDeniedCode
    ensures Contains(HandleRoute53Error(code, message, action), UnableTo(action))
  {
    var intro := Route53DeniedLead + UnableTo(action) + " Please check:";
    ChecklistParts(intro, Route53PermissionsItem, ZoneExistsItem, PolicyActionsItem);
    ContainsMiddle(Route53DeniedLead, UnableTo(action), " Please check:");
    ContainsWithin(intro, UnableTo(action), Route53Checklist(action));
  }

  /** Different actions give different checklists: the checklist for
      "list zones" can never be mistaken for the one for "access zone". */
  lemma {:induction false} Route53ChecklistDeterminesAction(a1: string, a2: string)
    requires Route53Checklist(a1) == Route53Checklist(a2)
    ensures a1 == a2
  {
    var s := Route53Checklist(a1);
    var k := |Route53DeniedLead| + |"Unable to "|;
    assert |a1| == |a2|;
    assert s[k..k + |a1|] == a1;
    assert Route53Checklist(a2)[k..k + |a2|] == a2;
  }

  /** The Route53 checklist lists the three things to check, whatever the action. */
  lemma Route53ChecklistItems(action: string)
    ensures Contains(Route53Checklist(action), Route53PermissionsItem)
    ensures Contains(Route53Checklist(action), ZoneExistsItem)
    ensures Contains(Route53Checklist(action), PolicyActionsItem)
  {
    ChecklistParts(Route53DeniedLead + UnableTo(action) + " Please check:",
                   Route53PermissionsItem, ZoneExistsItem, PolicyActionsItem);
  }
}
