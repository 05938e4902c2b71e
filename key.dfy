/**
 * Label, naming and domain helpers shared by the controllers: the finalizer
 * name, label predicates over an object's labels, cluster-ID extraction, the
 * IRSA issuer domain, and annotation lookup that tolerates a nil map.
 */
module Key {
  import opened Wrappers
  import Strings
  import IamNames
  import Template

  const ClusterNameLabel := "cluster.x-k8s.io/cluster-name"
  const ClusterWatchFilterLabel := "cluster.x-k8s.io/watch-filter"
  const ClusterRole := "cluster.x-k8s.io/role"
  const FinalizerPrefix := "capa-iam-operator.finalizers.giantswarm.io/"
  const AdditionalIrsaDomainAnnotation := "aws.giantswarm.io/irsa-additional-domain"

  /** `FinalizerName`: the operator's finalizer for objects of one role. */
  function FinalizerName(roleName: string): (r: string)
    ensures FinalizerPrefix <= r && r[|FinalizerPrefix|..] == roleName
  {
    FinalizerPrefix + roleName
  }

  /** Distinct roles get distinct finalizers. */
  lemma FinalizerNameInjective(a: string, b: string)
    requires FinalizerName(a) == FinalizerName(b)
    ensures a == b
  {
    Strings.SamePrefixCancels(FinalizerPrefix, a, b);
  }

  /** Go's lookup in a label map: a missing key reads as "". */
  function Lookup(labels: map<string, string>, k: string): string
  {
    if k in labels then labels[k] else ""
  }

  /** `GetClusterIDFromLabels`: the cluster-name label, which must be present and non-empty. */
  function GetClusterIDFromLabels(labels: map<string, string>): (r: Result<string, string>)
    ensures r.Err? <==> ClusterNameLabel !in labels || labels[ClusterNameLabel] == ""
    ensures r.Ok? ==> r.value == labels[ClusterNameLabel] && r.value != ""
    ensures r.Err? ==> r.error == "missing label \"" + ClusterNameLabel + "\""
  {
    var value := Lookup(labels, ClusterNameLabel);
    if value == "" then Err("missing label \"" + ClusterNameLabel + "\"") else Ok(value)
  }

  /** `HasCapiWatchLabel`. */
  function HasCapiWatchLabel(labels: map<string, string>): (r: bool)
    ensures r <==> ClusterWatchFilterLabel in labels && labels[ClusterWatchFilterLabel] == "capi"
  {
    if ClusterWatchFilterLabel in labels then labels[ClusterWatchFilterLabel] == "capi" else false
  }

  /** `IsControlPlaneAWSMachineTemplate`. */
  function IsControlPlaneAWSMachineTemplate(labels: map<string, string>): bool
  {
    if ClusterRole in labels then labels[ClusterRole] == IamNames.ControlPlaneRole else false
  }

  /** `IsBastionAWSMachineTemplate`. */
  function IsBastionAWSMachineTemplate(labels: map<string, string>): bool
  {
    if ClusterRole in labels then labels[ClusterRole] == IamNames.BastionRole else false
  }

  /** The two role predicates read the same label and can never both hold. */
  lemma MachineTemplateRoles(labels: map<string, string>)
    ensures IsControlPlaneAWSMachineTemplate(labels) <==> Lookup(labels, ClusterRole) == "control-plane"
    ensures IsBastionAWSMachineTemplate(labels) <==> Lookup(labels, ClusterRole) == "bastion"
    ensures !(IsControlPlaneAWSMachineTemplate(labels) && IsBastionAWSMachineTemplate(labels))
  {
  }

  /** `IsChinaRegion`. */
  function IsChinaRegion(region: string): bool
  {
    Strings.Contains(region, "cn-")
  }

  /** This package and the IAM package agree on which regions are Chinese. */
  lemma ChinaRegionAgrees(region: string)
    ensures IsChinaRegion(region) == Template.IsChinaRegion(region)
  {
  }

  /** `IRSADomain`: the OIDC issuer host of the cluster's IRSA setup. */
  function IRSADomain(baseDomain: string, region: string, awsAccount: string, clusterName: string): string
  {
    if IsChinaRegion(region) then
      "s3." + region + ".amazonaws.com.cn/" + awsAccount + "-g8s-" + clusterName + "-oidc-pod-identity-v2"
    else
      "irsa." + baseDomain
  }

  /**
   * Outside China the domain is `irsa.` followed by the base domain, which it
   * determines; in China it is the regional S3 bucket host and the base
   * domain plays no part.
   */
  lemma IRSADomainShape(baseDomain: string, region: string, awsAccount: string, clusterName: string)
    ensures var d := IRSADomain(baseDomain, region, awsAccount, clusterName);
      && (!IsChinaRegion(region) ==> "irsa." <= d && Strings.TrimPrefix(d, "irsa.") == baseDomain)
      && (IsChinaRegion(region) ==>
            "s3." + region <= d
            && d == IRSADomain("", region, awsAccount, clusterName)
            && !("irsa." <= d))
  {
    var d := IRSADomain(baseDomain, region, awsAccount, clusterName);
    if IsChinaRegion(region) {
      assert d == ("s3." + region) + (".amazonaws.com.cn/" + awsAccount + "-g8s-" + clusterName + "-oidc-pod-identity-v2");
      assert d[1] == '3';
    } else {
      assert d == "irsa." + baseDomain;
    }
  }

  /** `GetAnnotation`: "" for a nil annotation map or a missing key. */
  function GetAnnotation(annotations: Option<map<string, string>>, annotation: string): (r: string)
    ensures annotations.None? ==> r == ""
    ensures annotations.Some? && annotation !in annotations.value ==> r == ""
    ensures annotations.Some? && annotation in annotations.value ==> r == annotations.value[annotation]
  {
    match annotations
    case None => ""
    case Some(m) => Lookup(m, annotation)
  }

  /** `GetAdditionalIrsaDomain`: the extra IRSA domain annotation, or "". */
  function GetAdditionalIrsaDomain(annotations: Option<map<string, string>>): (r: string)
    ensures r != "" ==>
      && annotations.Some?
      && AdditionalIrsaDomainAnnotation in annotations.value
      && annotations.value[AdditionalIrsaDomainAnnotation] == r
    ensures annotations.Some? && AdditionalIrsaDomainAnnotation in annotations.value ==>
      r == annotations.value[AdditionalIrsaDomainAnnotation]
    ensures annotations.None? || AdditionalIrsaDomainAnnotation !in annotations.value ==> r == ""
  {
    GetAnnotation(annotations, AdditionalIrsaDomainAnnotation)
  }
}
