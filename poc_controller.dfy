/**
 * The trust-policy editing of the proof-of-concept controller: a federated
 * web-identity statement per OIDC provider is added (replacing an earlier
 * one for the same provider) or removed.
 */
module PocController {
  import IamNames

  datatype Condition = Condition(stringLike: map<string, string>, stringEquals: map<string, string>)

  datatype Principal = Principal(federated: string)

  datatype Statement = Statement(effect: string, principal: Principal, action: string, condition: Condition)

  datatype AssumeRolePolicy = AssumeRolePolicy(statements: seq<Statement>)

  /** `getServiceAccountName`: the service account a role is trusted for; unknown names get "". */
  function ServiceAccountName(roleName: string): string
  {
    if roleName == "ALBController-Role" then "aws-load-balancer-controller"
    else if roleName == "ebs-csi-driver-role" then "ebs-csi-controller-sa"
    else if roleName == "efs-csi-driver-role" then "efs-csi-controller-sa"
    else if roleName == "cluster-autoscaler-role" then "cluster-autoscaler"
    else if roleName == "CertManager-Role" then "cert-manager"
    else if roleName == "Route53Manager-Role" then "external-dns"
    else ""
  }

  /** The role names the controller manages trust for, in the order it visits them. */
  const IamRoleNames: seq<string> := [
    "ALBController-Role", "ebs-csi-driver-role", "efs-csi-driver-role",
    "cluster-autoscaler-role", "CertManager-Role", "Route53Manager-Role"]

  /** The table has an entry for exactly the managed role names, and no other name gets an account. */
  lemma ServiceAccountNameTable(roleName: string)
    ensures ServiceAccountName(roleName) != "" <==> roleName in IamRoleNames
    ensures roleName !in IamRoleNames ==> ServiceAccountName(roleName) == ""
  {
  }

  /**
   * This table and the one the role reconciler uses name different service
   * accounts for the EFS CSI driver role, so the two controllers trust
   * different identities for it.
   */
  lemma ServiceAccountTablesDiffer()
    ensures ServiceAccountName(IamNames.EFSCSIDriverRole) == "efs-csi-controller-sa"
    ensures IamNames.GetServiceAccount(IamNames.EFSCSIDriverRole).Ok?
    ensures IamNames.GetServiceAccount(IamNames.EFSCSIDriverRole).value != ServiceAccountName(IamNames.EFSCSIDriverRole)
    ensures ServiceAccountName(IamNames.ALBControllerRole) == IamNames.GetServiceAccount(IamNames.ALBControllerRole).value
    ensures ServiceAccountName(IamNames.CertManagerRole) == ""
  {
  }

  /** The statement `addStatement` wants for a role, an OIDC issuer domain and a provider ARN. */
  function DesiredStatement(roleName: string, irsaDomain: string, principal: string): (st: Statement)
    ensures st.principal.federated == principal
    ensures st.effect == "Allow" && st.action == "sts:AssumeRoleWithWebIdentity"
    ensures st.condition.stringLike == map[irsaDomain + ":sub" := "system:serviceaccount:*:" + ServiceAccountName(roleName)]
    ensures st.condition.stringEquals == map[]
  {
    Statement("Allow", Principal(principal), "sts:AssumeRoleWithWebIdentity",
              Condition(map[irsaDomain + ":sub" := "system:serviceaccount:*:" + ServiceAccountName(roleName)], map[]))
  }

  /** The index of the first statement for `principal`, or the length when there is none. */
  function FirstFor(ss: seq<Statement>, principal: string): (k: nat)
    ensures k <= |ss|
    ensures k < |ss| ==> ss[k].principal.federated == principal
    ensures forall j :: 0 <= j < k ==> ss[j].principal.federated != principal
  {
    if ss == [] then 0
    else if ss[0].principal.federated == principal then 0
    else 1 + FirstFor(ss[1..], principal)
  }

  /** The statements after an upsert of `st` for `principal`. */
  function Upserted(ss: seq<Statement>, st: Statement, principal: string): seq<Statement>
  {
    var k := FirstFor(ss, principal);
    if k < |ss| then ss[k := st] else ss + [st]
  }

  /** The statements not for `principal`, in their original order. */
  function Filtered(ss: seq<Statement>, principal: string): (r: seq<Statement>)
    ensures |r| <= |ss|
    ensures forall x :: x in r <==> x in ss && x.principal.federated != principal
    decreases |ss|
  {
    if ss == [] then []
    else
      var last := ss[|ss| - 1];
      Filtered(ss[..|ss| - 1], principal) + (if last.principal.federated != principal then [last] else [])
  }

  /**
   * `addStatement`: the first statement for the provider is replaced by the
   * desired one; when there is none, the desired statement is appended.
   */
  method AddStatement(policy: AssumeRolePolicy, roleName: string, irsaDomain: string, principal: string)
    returns (r: AssumeRolePolicy)
    ensures r.statements == Upserted(policy.statements, DesiredStatement(roleName, irsaDomain, principal), principal)
  {
    var desired := DesiredStatement(roleName, irsaDomain, principal);
    var ss := policy.statements;
    var i := 0;
    while i < |ss|
      invariant 0 <= i <= |ss|
      invariant forall j :: 0 <= j < i ==> ss[j].principal.federated != principal
    {
      if ss[i].principal.federated == principal {
        assert FirstFor(ss, principal) == i;
        return policy.(statements := ss[i := desired]);
      }
      i := i + 1;
    }
    assert FirstFor(ss, principal) == |ss|;
    return policy.(statements := ss + [desired]);
  }

  /** `removeStatement`: every statement for the provider is dropped, the others kept in order. */
  method RemoveStatement(policy: AssumeRolePolicy, roleName: string, principal: string)
    returns (r: AssumeRolePolicy)
    ensures r.statements == Filtered(policy.statements, principal)
  {
    var ss := policy.statements;
    var kept: seq<Statement> := [];
    var i := 0;
    while i < |ss|
      invariant 0 <= i <= |ss|
      invariant kept == Filtered(ss[..i], principal)
    {
      assert ss[..i + 1][..i] == ss[..i];
      if ss[i].principal.federated != principal {
        kept := kept + [ss[i]];
      }
      i := i + 1;
    }
    assert ss[..|ss|] == ss;
    return policy.(statements := kept);
  }

  /** An upsert either replaces exactly the first statement for the provider or appends. */
  lemma UpsertedShape(ss: seq<Statement>, st: Statement, principal: string)
    ensures var r := Upserted(ss, st, principal);
      && ((exists j :: 0 <= j < |ss| && ss[j].principal.federated == principal) ==>
            var k := FirstFor(ss, principal);
            |r| == |ss| && r[k] == st && forall j :: 0 <= j < |ss| && j != k ==> r[j] == ss[j])
      && ((forall j :: 0 <= j < |ss| ==> ss[j].principal.federated != principal) ==> r == ss + [st])
  {
  }

  /** Adding the same statement twice is the same as adding it once. */
  lemma UpsertIdempotent(ss: seq<Statement>, st: Statement, principal: string)
    requires st.principal.federated == principal
    ensures Upserted(Upserted(ss, st, principal), st, principal) == Upserted(ss, st, principal)
  {
    var k := FirstFor(ss, principal);
    var once := Upserted(ss, st, principal);
    assert FirstFor(once, principal) == k by {
      assert once[k].principal.federated == principal;
      forall j | 0 <= j < k ensures once[j].principal.federated != principal {
        assert once[j] == ss[j];
      }
      FirstForIsFirst(once, principal, k);
    }
  }

  /** Any index whose statement is the first for the provider is the one `FirstFor` finds. */
  lemma FirstForIsFirst(ss: seq<Statement>, principal: string, k: nat)
    requires k < |ss| && ss[k].principal.federated == principal
    requires forall j :: 0 <= j < k ==> ss[j].principal.federated != principal
    ensures FirstFor(ss, principal) == k
  {
  }

  /** Filtering distributes over concatenation. */
  lemma {:induction false} FilteredAppend(a: seq<Statement>, b: seq<Statement>, principal: string)
    ensures Filtered(a + b, principal) == Filtered(a, principal) + Filtered(b, principal)
    decreases |b|
  {
    if b == [] {
      assert a + b == a;
    } else {
      var init := b[..|b| - 1];
      var last := b[|b| - 1];
      assert (a + b)[..|a + b| - 1] == a + init;
      assert (a + b)[|a + b| - 1] == last;
      FilteredAppend(a, init, principal);
    }
  }

  /** Statements with no statement for the provider are left as they are. */
  lemma {:induction false} FilteredUnchanged(ss: seq<Statement>, principal: string)
    requires forall j :: 0 <= j < |ss| ==> ss[j].principal.federated != principal
    ensures Filtered(ss, principal) == ss
    decreases |ss|
  {
    if ss != [] {
      FilteredUnchanged(ss[..|ss| - 1], principal);
      assert ss[..|ss| - 1] + [ss[|ss| - 1]] == ss;
    }
  }

  /** Removing twice is the same as removing once. */
  lemma RemoveIdempotent(ss: seq<Statement>, principal: string)
    ensures Filtered(Filtered(ss, principal), principal) == Filtered(ss, principal)
  {
    var r := Filtered(ss, principal);
    forall j | 0 <= j < |r| ensures r[j].principal.federated != principal {
      assert r[j] in r;
    }
    FilteredUnchanged(r, principal);
  }

  /** Removing after adding for a provider that had no statement restores the original statements. */
  lemma RemoveUndoesFreshAdd(ss: seq<Statement>, st: Statement, principal: string)
    requires st.principal.federated == principal
    requires forall j :: 0 <= j < |ss| ==> ss[j].principal.federated != principal
    ensures Filtered(Upserted(ss, st, principal), principal) == ss
  {
    assert Upserted(ss, st, principal) == ss + [st];
    FilteredAppend(ss, [st], principal);
    assert [st][..0] == [];
    FilteredUnchanged(ss, principal);
  }

  /** After an add, exactly one statement is for the provider when there was at most one before. */
  lemma AddLeavesOneStatementFor(ss: seq<Statement>, st: Statement, principal: string)
    requires st.principal.federated == principal
    requires forall i, j :: 0 <= i < j < |ss| && ss[i].principal.federated == principal ==> ss[j].principal.federated != principal
    ensures var r := Upserted(ss, st, principal);
      st in r && forall j :: 0 <= j < |r| && r[j].principal.federated == principal ==> r[j] == st
  {
    var k := FirstFor(ss, principal);
    var r := Upserted(ss, st, principal);
    if k < |ss| {
      assert r[k] == st;
    } else {
      assert r[|ss|] == st;
    }
  }
}
