/**
 * Region helpers and template selection of the IAM package: China-region
 * detection, the partition and EC2 service domain that follow from it, the
 * EC2 assume-role document with its single placeholder, and the choice of
 * permission template by role type.
 */
module Template {
  import opened Wrappers
  import Strings
  import IamNames

  /** `isChinaRegion`: the region name contains `cn-`. */
  function IsChinaRegion(region: string): (r: bool)
    ensures r <==> exists i :: Strings.OccursAt(region, "cn-", i)
  {
    Strings.ContainsIff(region, "cn-");
    Strings.Contains(region, "cn-")
  }

  /** `regionARN`: the partition part of ARNs in that region. */
  function RegionARN(region: string): string
  {
    if IsChinaRegion(region) then "aws-cn" else "aws"
  }

  /** `ec2ServiceDomain`: the EC2 service principal of that region. */
  function Ec2ServiceDomain(region: string): string
  {
    var domain := "ec2.amazonaws.com";
    if IsChinaRegion(region) then domain + ".cn" else domain
  }

  /** Partition and EC2 domain switch together, on exactly the China regions. */
  lemma RegionHelpersAgree(region: string)
    ensures RegionARN(region) == "aws-cn" <==> IsChinaRegion(region)
    ensures RegionARN(region) == "aws" <==> !IsChinaRegion(region)
    ensures Ec2ServiceDomain(region) == "ec2.amazonaws.com.cn" <==> IsChinaRegion(region)
    ensures Ec2ServiceDomain(region) == "ec2.amazonaws.com" <==> !IsChinaRegion(region)
  {
  }

  /** The test regions: `cn-north-1` is a China region, `eu-west-1` is not. */
  lemma ChinaRegionExamples()
    ensures IsChinaRegion("cn-north-1")
    ensures !IsChinaRegion("eu-west-1")
  {
    assert Strings.OccursAt("cn-north-1", "cn-", 0);
    var r := "eu-west-1";
    forall i ensures !Strings.OccursAt(r, "cn-", i) {
      if 0 <= i && i + 3 <= |r| {
        assert r[i..i + 3][0] == r[i] != 'c';
      }
    }
  }

  /** Text of the assume-role document before and after its one placeholder. */
  const AssumeRoleHead: string :=
    "\n{\n  \"Version\": \"2012-10-17\",\n  \"Statement\": [\n    {\n      \"Effect\": \"Allow\",\n"
    + "      \"Principal\": {\n        \"Service\": \""
  const AssumeRoleTail: string :=
    "\"\n      },\n      \"Action\": \"sts:AssumeRole\"\n    }\n  ]\n}"

  /** `generateAssumeRolePolicyDocument`: the EC2 domain of the region fills the placeholder. */
  function GenerateAssumeRolePolicyDocument(region: string): (r: Result<string, string>)
    ensures r.Ok?
  {
    Ok(AssumeRoleHead + Ec2ServiceDomain(region) + AssumeRoleTail)
  }

  /** The text that stands where the placeholder was. */
  function ServicePrincipalOf(doc: string): string
    requires |doc| >= |AssumeRoleHead| + |AssumeRoleTail|
  {
    doc[|AssumeRoleHead|..|doc| - |AssumeRoleTail|]
  }

  /**
   * The rendered document is the template with the EC2 domain, and only it,
   * in place of the placeholder; a China region yields the `.cn` principal.
   */
  lemma AssumeRoleDocumentPrincipal(region: string)
    ensures var doc := GenerateAssumeRolePolicyDocument(region).value;
      && AssumeRoleHead <= doc
      && |doc| >= |AssumeRoleHead| + |AssumeRoleTail|
      && doc[|doc| - |AssumeRoleTail|..] == AssumeRoleTail
      && ServicePrincipalOf(doc) == Ec2ServiceDomain(region)
      && (IsChinaRegion(region) <==> ServicePrincipalOf(doc) == "ec2.amazonaws.com.cn")
  {
    var d := Ec2ServiceDomain(region);
    var doc := AssumeRoleHead + d + AssumeRoleTail;
    assert doc[..|AssumeRoleHead|] == AssumeRoleHead;
    assert doc[|doc| - |AssumeRoleTail|..] == AssumeRoleTail;
    assert doc[|AssumeRoleHead|..|doc| - |AssumeRoleTail|] == d;
  }

  /** The two permission templates `generatePolicyDocument` chooses from. */
  datatype PolicyTemplate = ControlPlaneTemplate | NodesTemplate

  /** Parameters handed to the permission templates. */
  datatype TemplateParams = TemplateParams(clusterID: string, ec2ServiceDomain: string, region: string, regionARN: string)

  /** Template rendering (Go's `text/template`) is not modelled. */
  type TemplateExecutor = (PolicyTemplate, TemplateParams) -> Result<string, string>

  /** Role type to permission template; any other role type is an error. */
  function SelectPolicyTemplate(roleType: string): (r: Result<PolicyTemplate, string>)
    ensures r == Ok(ControlPlaneTemplate) <==> roleType == IamNames.ControlPlaneRole
    ensures r == Ok(NodesTemplate) <==> roleType == IamNames.NodesRole
    ensures r.Err? <==> roleType != IamNames.ControlPlaneRole && roleType != IamNames.NodesRole
    ensures r.Err? ==> r.error == "unknown role type '" + roleType + "'"
  {
    if roleType == IamNames.ControlPlaneRole then Ok(ControlPlaneTemplate)
    else if roleType == IamNames.NodesRole then Ok(NodesTemplate)
    else Err("unknown role type '" + roleType + "'")
  }

  /**
   * `generatePolicyDocument` of this file: select the template, then render
   * it with the cluster, region and partition (the EC2 domain is left empty).
   */
  function GeneratePolicyDocument(roleType: string, clusterID: string, region: string, execute: TemplateExecutor)
    : (r: Result<string, string>)
    ensures SelectPolicyTemplate(roleType).Err? ==> r == Err("unknown role type '" + roleType + "'")
    ensures SelectPolicyTemplate(roleType).Ok? ==>
      r == execute(SelectPolicyTemplate(roleType).value, TemplateParams(clusterID, "", region, RegionARN(region)))
  {
    match SelectPolicyTemplate(roleType)
    case Err(e) => Err(e)
    case Ok(t) => execute(t, TemplateParams(clusterID, "", region, RegionARN(region)))
  }
}
