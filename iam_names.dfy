/**
 * Role kinds and the pure naming helpers of the IAM package: the role-name
 * exception table, inline policy names, the service account bound to each
 * workload-identity kind, and the fixed order of the IRSA role family.
 */
module IamNames {
  import opened Wrappers
  import Strings

  const BastionRole := "bastion"
  const ControlPlaneRole := "control-plane"
  const NodesRole := "nodes"
  const Route53Role := "route53-role"
  const KIAMRole := "kiam-role"
  const IRSARole := "irsa-role"
  const CertManagerRole := "cert-manager-role"
  const ALBControllerRole := "ALBController-Role"
  const EBSCSIDriverRole := "ebs-csi-driver-role"
  const EFSCSIDriverRole := "efs-csi-driver-role"
  const ClusterAutoscalerRole := "cluster-autoscaler-role"

  /** What follows `{cluster}-` in the name of a role of kind `role`. */
  function RoleNameSuffix(role: string): string
  {
    if role == Route53Role then "Route53Manager-Role"
    else if role == KIAMRole then "IAMManager-Role"
    else if role == CertManagerRole then "CertManager-Role"
    else role
  }

  /** `roleName`: the remote name of the role of kind `role` for cluster `clusterID`. */
  function RoleName(role: string, clusterID: string): string
  {
    clusterID + "-" + RoleNameSuffix(role)
  }

  /** `policyName`: `{role}-{cluster}-policy`. */
  function PolicyName(role: string, clusterID: string): string
  {
    role + "-" + clusterID + "-policy"
  }

  /** The exception table of `roleName`, and the default `{cluster}-{kind}` form. */
  lemma RoleNameTable(clusterID: string, role: string)
    ensures RoleName(Route53Role, clusterID) == clusterID + "-Route53Manager-Role"
    ensures RoleName(KIAMRole, clusterID) == clusterID + "-IAMManager-Role"
    ensures RoleName(CertManagerRole, clusterID) == clusterID + "-CertManager-Role"
    ensures role != Route53Role && role != KIAMRole && role != CertManagerRole ==>
      RoleName(role, clusterID) == clusterID + "-" + role
  {
    DashJoin(clusterID, "Route53Manager-Role", "-Route53Manager-Role");
    DashJoin(clusterID, "IAMManager-Role", "-IAMManager-Role");
    DashJoin(clusterID, "CertManager-Role", "-CertManager-Role");
  }

  lemma DashJoin(c: string, x: string, dashed: string)
    requires dashed == "-" + x
    ensures c + "-" + x == c + dashed
  {
  }

  /** `{a}-{x}` names split uniquely when either the prefixes or the suffixes have the same length. */
  lemma DashedInjective(c1: string, x1: string, c2: string, x2: string)
    requires |c1| == |c2| || x1 == x2
    requires c1 + "-" + x1 == c2 + "-" + x2
    ensures c1 == c2 && x1 == x2
  {
    if x1 == x2 {
      Strings.SameSuffixCancels(c1 + "-", c2 + "-", x1);
      assert c1 == (c1 + "-")[..|c1|];
      assert c2 == (c2 + "-")[..|c2|];
    } else {
      var n := c1 + "-" + x1;
      assert c1 == n[..|c1|] && c2 == n[..|c2|];
      assert c1 + "-" + x1 == c1 + ("-" + x1);
      assert c2 + "-" + x2 == c1 + ("-" + x2);
      Strings.SamePrefixCancels(c1, "-" + x1, "-" + x2);
      Strings.SamePrefixCancels("-", x1, x2);
    }
  }

  /** A role name determines its cluster and, through the suffix, its kind's spelling. */
  lemma RoleNameInjective(r1: string, c1: string, r2: string, c2: string)
    requires |c1| == |c2| || RoleNameSuffix(r1) == RoleNameSuffix(r2)
    requires RoleName(r1, c1) == RoleName(r2, c2)
    ensures c1 == c2 && RoleNameSuffix(r1) == RoleNameSuffix(r2)
  {
    DashedInjective(c1, RoleNameSuffix(r1), c2, RoleNameSuffix(r2));
  }

  /** The policy name identifies the cluster once the role part is fixed. */
  lemma PolicyNameInjective(role: string, c1: string, c2: string)
    requires PolicyName(role, c1) == PolicyName(role, c2)
    ensures c1 == c2
  {
    assert role + "-" + c1 + "-policy" == (role + "-") + (c1 + "-policy");
    assert role + "-" + c2 + "-policy" == (role + "-") + (c2 + "-policy");
    Strings.SamePrefixCancels(role + "-", c1 + "-policy", c2 + "-policy");
    Strings.SameSuffixCancels(c1, c2, "-policy");
  }

  /** `getServiceAccount`: the Kubernetes service account bound to a workload-identity kind. */
  function GetServiceAccount(role: string): (r: Result<string, string>)
    ensures r.Err? ==> r.error == "cannot get service account for specified role - " + role
  {
    if role == CertManagerRole then Ok("cert-manager-app")
    else if role == IRSARole then Ok("external-dns")
    else if role == Route53Role then Ok("external-dns")
    else if role == ALBControllerRole then Ok("aws-load-balancer-controller")
    else if role == EBSCSIDriverRole then Ok("ebs-csi-controller-sa")
    else if role == EFSCSIDriverRole then Ok("efs-csi-sa")
    else if role == ClusterAutoscalerRole then Ok("cluster-autoscaler")
    else Err("cannot get service account for specified role - " + role)
  }

  /** `getIRSARoles`: the IRSA role family, in the order it is reconciled and deleted. */
  function GetIRSARoles(): seq<string>
  {
    [Route53Role, CertManagerRole, ALBControllerRole, EBSCSIDriverRole, EFSCSIDriverRole, ClusterAutoscalerRole]
  }

  /** Kinds whose trust policy is re-applied on every reconciliation. */
  predicate RefreshesTrust(role: string)
  {
    role == IRSARole || role == CertManagerRole || role == Route53Role || role == ALBControllerRole
    || role == EBSCSIDriverRole || role == EFSCSIDriverRole || role == ClusterAutoscalerRole
  }

  /** Kinds subject to the release gate. */
  predicate IsReleaseGated(role: string)
  {
    role == ControlPlaneRole || role == NodesRole
  }

  /**
   * Every member of the IRSA family has a service account and refreshes its
   * trust; the legacy KIAM kind and the EC2 kinds have no service account and
   * never refresh trust.
   */
  lemma IRSAFamilyKinds()
    ensures forall k :: k in GetIRSARoles() ==> GetServiceAccount(k).Ok? && RefreshesTrust(k) && !IsReleaseGated(k)
    ensures forall k :: k in [KIAMRole, ControlPlaneRole, NodesRole, BastionRole] ==>
      GetServiceAccount(k).Err? && !RefreshesTrust(k)
  {
  }

  /** The six IRSA roles of one cluster have six different remote names. */
  lemma IRSARoleNamesDistinct(clusterID: string)
    ensures forall i, j :: 0 <= i < j < |GetIRSARoles()| ==>
      RoleName(GetIRSARoles()[i], clusterID) != RoleName(GetIRSARoles()[j], clusterID)
  {
    var ks := GetIRSARoles();
    forall i, j | 0 <= i < j < |ks|
      ensures RoleName(ks[i], clusterID) != RoleName(ks[j], clusterID)
    {
      if RoleName(ks[i], clusterID) == RoleName(ks[j], clusterID) {
        RoleNameInjective(ks[i], clusterID, ks[j], clusterID);
        assert false;
      }
    }
  }
}
