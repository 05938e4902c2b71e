/**
 * The IAM service object: the fields it is built with, and its operations
 * written as the step-by-step calls they issue through the IAM client. Each
 * operation is proved to report the error and leave the backend exactly as
 * the corresponding engine function says.
 */
module Iam {
  import opened Wrappers
  import opened Gateway
  import opened PolicyCompare
  import opened IamNames
  import opened RoleEngine
  import SemVer
  import Template

  /** What the service is constructed from. The SDK configuration and client factory are only checked for presence. */
  datatype ServiceConfig = ServiceConfig(
    objectLabels: Option<map<string, string>>,
    hasAWSConfig: bool,
    hasIAMClientFactory: bool,
    clusterName: string,
    clusterRelease: string,
    mainRoleName: string,
    roleType: string,
    region: string,
    principalRoleARN: string,
    customTags: seq<Tag>)

  /** The checks of `New`, in order: the first that fails gives the error. */
  function ValidateConfig(config: ServiceConfig): (err: Option<string>)
    ensures err.None? <==>
      && config.hasAWSConfig && config.hasIAMClientFactory
      && config.clusterName != "" && config.clusterRelease != "" && config.mainRoleName != ""
      && config.roleType in {ControlPlaneRole, NodesRole, BastionRole, IRSARole}
    ensures !config.hasAWSConfig ==> err == Some("cannot create IAMService with AWSConfig equal to nil")
    ensures (&& config.hasAWSConfig && config.hasIAMClientFactory && config.clusterName != ""
             && config.clusterRelease != "" && config.mainRoleName != ""
             && config.roleType !in {ControlPlaneRole, NodesRole, BastionRole, IRSARole}) ==>
      err == Some("cannot create IAMService with invalid RoleType '" + config.roleType + "'")
  {
    if !config.hasAWSConfig then Some("cannot create IAMService with AWSConfig equal to nil")
    else if !config.hasIAMClientFactory then Some("cannot create IAMService with IAMClientFactory equal to nil")
    else if config.clusterName == "" then Some("cannot create IAMService with empty ClusterName")
    else if config.clusterRelease == "" then Some("cannot create IAMService with empty ClusterRelease")
    else if config.mainRoleName == "" then Some("cannot create IAMService with empty MainRoleName")
    else if config.roleType != ControlPlaneRole && config.roleType != NodesRole
         && config.roleType != BastionRole && config.roleType != IRSARole then
      Some("cannot create IAMService with invalid RoleType '" + config.roleType + "'")
    else None
  }

  class IamService {
    const objectLabels: map<string, string>
    const clusterName: string
    const clusterRelease: string
    const iamClient: IamClient
    const mainRoleName: string
    const region: string
    const roleType: string
    var principalRoleARN: string
    const customTags: seq<Tag>
    const render: Renderer

    /** The fields every run reads; the principal role ARN is not among them. */
    function Config(): Settings
    {
      Settings(objectLabels, clusterName, clusterRelease, mainRoleName, region, roleType, customTags, render)
    }

    constructor (config: ServiceConfig, client: IamClient, render: Renderer)
      requires ValidateConfig(config).None?
      ensures objectLabels == (if config.objectLabels.None? then map[] else config.objectLabels.value)
      ensures clusterName == config.clusterName && clusterRelease == config.clusterRelease
      ensures mainRoleName == config.mainRoleName && roleType == config.roleType && region == config.region
      ensures principalRoleARN == config.principalRoleARN && customTags == config.customTags
      ensures iamClient == client && this.render == render
    {
      objectLabels := if config.objectLabels.None? then map[] else config.objectLabels.value;
      clusterName := config.clusterName;
      clusterRelease := config.clusterRelease;
      iamClient := client;
      mainRoleName := config.mainRoleName;
      region := config.region;
      roleType := config.roleType;
      principalRoleARN := config.principalRoleARN;
      customTags := config.customTags;
      this.render := render;
    }

    /** `ReconcileRole`: the main role, with the cluster's parameters. */
    method ReconcileRole() returns (err: Option<EngineError>)
      modifies iamClient
      ensures Run(err, iamClient.cloud) == ReconcileMainRoleRun(Config(), iamClient.fault, old(iamClient.cloud))
    {
      var params := MainParams(clusterName, Template.Ec2ServiceDomain(region), render.awsPartition(region), objectLabels);
      err := ReconcileRoleNamed(mainRoleName, roleType, params);
    }

    /** `ReconcileKiamRole`: fetch the main role's ARN, then reconcile the KIAM role. */
    method ReconcileKiamRole() returns (err: Option<EngineError>)
      modifies iamClient
      ensures Run(err, iamClient.cloud) == ReconcileKiamRoleRun(Config(), iamClient.fault, old(iamClient.cloud))
    {
      var reply := iamClient.Send(GetRole(mainRoleName));
      if reply.Failed? {
        return Some(Api(reply.error));
      }
      var params := KiamParams(render.awsPartition(region), reply.role.arn, Template.Ec2ServiceDomain(region));
      err := ReconcileRoleNamed(RoleName(KIAMRole, clusterName), KIAMRole, params);
    }

    /** `ReconcileRolesForIRSA`: each IRSA kind in order, stopping at the first error. */
    method ReconcileRolesForIRSA(accountID: string, domains: seq<string>) returns (err: Option<EngineError>)
      modifies iamClient
      ensures Run(err, iamClient.cloud) ==
        ReconcileFamilyRun(Config(), iamClient.fault, old(iamClient.cloud), GetIRSARoles(), accountID, domains)
    {
      var kinds := GetIRSARoles();
      var i := 0;
      while i < |kinds|
        invariant 0 <= i <= |kinds|
        invariant ReconcileFamilyRun(Config(), iamClient.fault, old(iamClient.cloud), kinds, accountID, domains)
               == ReconcileFamilyRun(Config(), iamClient.fault, iamClient.cloud, kinds[i..], accountID, domains)
      {
        var params := Route53RoleParams(Config(), kinds[i], accountID, domains);
        if params.Err? {
          return Some(params.error);
        }
        err := ReconcileRoleNamed(RoleName(kinds[i], clusterName), kinds[i], params.value);
        if err.Some? {
          return;
        }
        assert kinds[i..][1..] == kinds[i + 1..];
        i := i + 1;
      }
      return None;
    }

    /** `reconcileRole`: the release gate for the node kinds, then create, refresh trust, attach the inline policy. */
    method ReconcileRoleNamed(name: string, kind: string, params: Params) returns (err: Option<EngineError>)
      modifies iamClient
      ensures Run(err, iamClient.cloud) == ReconcileRoleRun(Config(), iamClient.fault, old(iamClient.cloud), name, kind, params)
    {
      if kind == ControlPlaneRole || kind == NodesRole {
        var current := SemVer.Parse(clusterRelease);
        if current.None? {
          return Some(BadRelease(clusterRelease));
        }
        var threshold := SemVer.Parse(CrossplaneNodesRelease);
        if threshold.None? {
          return Some(BadRelease(CrossplaneNodesRelease));
        }
        if SemVer.GreaterThanEqual(current.value, threshold.value) {
          return None;
        }
      }
      err := Converge(name, kind, params);
    }

    /** The three steps of `reconcileRole` after the release gate. */
    method Converge(name: string, kind: string, params: Params) returns (err: Option<EngineError>)
      modifies iamClient
      ensures Run(err, iamClient.cloud) == ConvergeRun(Config(), iamClient.fault, old(iamClient.cloud), name, kind, params)
    {
      err := CreateRoleNamed(name, kind, params);
      if err.Some? {
        return;
      }
      if kind == IRSARole || kind == CertManagerRole || kind == Route53Role || kind == ALBControllerRole
         || kind == EBSCSIDriverRole || kind == EFSCSIDriverRole || kind == ClusterAutoscalerRole {
        err := ApplyAssumePolicyRole(name, kind, params);
        if err.Some? {
          return;
        }
      }
      err := AttachInlinePolicy(name, kind, params);
    }

    /** The two fixed tags, then each custom tag in turn. */
    method BuildTags() returns (tags: seq<Tag>)
      ensures tags == RoleTags(clusterName, customTags)
    {
      tags := [Tag(OwnedTagKey, ""), Tag(ClusterIDTagPrefix + clusterName, "owned")];
      var i := 0;
      while i < |customTags|
        invariant 0 <= i <= |customTags|
        invariant tags == RoleTags(clusterName, customTags[..i])
      {
        tags := tags + [customTags[i]];
        assert customTags[..i + 1] == customTags[..i] + [customTags[i]];
        i := i + 1;
      }
      assert customTags[..|customTags|] == customTags;
    }

    /** `createRole`. */
    method CreateRoleNamed(name: string, kind: string, params: Params) returns (err: Option<EngineError>)
      modifies iamClient
      ensures Run(err, iamClient.cloud) == CreateRoleRun(Config(), iamClient.fault, old(iamClient.cloud), name, kind, params)
    {
      var reply := iamClient.Send(GetRole(name));
      if !reply.Failed? {
        return None;
      }
      if reply.error != NotFound {
        return Some(Api(reply.error));
      }
      var trust := render.generatePolicyDocument(render.trustPolicyTemplate(kind), params);
      if trust.Err? {
        return Some(RenderFailed(trust.error));
      }
      var tags := BuildTags();
      err := Provision(name, trust.value, tags);
    }

    /** The creating half of `createRole`: the role, then its instance profile, then the role in the profile. */
    method Provision(name: string, trust: Doc, tags: seq<Tag>) returns (err: Option<EngineError>)
      modifies iamClient
      ensures Run(err, iamClient.cloud) == ProvisionRun(iamClient.fault, old(iamClient.cloud), name, trust, tags)
    {
      var reply := iamClient.Send(CreateRole(name, trust, tags));
      if reply.Failed? {
        return Some(Api(reply.error));
      }
      reply := iamClient.Send(CreateInstanceProfile(name, tags));
      if reply.Failed? && reply.error != AlreadyExists {
        return Some(Api(reply.error));
      }
      reply := iamClient.Send(AddRoleToInstanceProfile(name, name));
      if reply.Failed? && reply.error != AlreadyExists {
        return Some(Api(reply.error));
      }
      return None;
    }

    /** `applyAssumePolicyRole`. */
    method ApplyAssumePolicyRole(name: string, kind: string, params: Params) returns (err: Option<EngineError>)
      modifies iamClient
      ensures Run(err, iamClient.cloud) ==
        ApplyAssumePolicyRoleRun(Config(), iamClient.fault, old(iamClient.cloud), name, kind, params)
    {
      var reply := iamClient.Send(GetRole(name));
      if reply == Failed(NotFound) {
        return None;
      }
      if reply.Failed? {
        return Some(Api(reply.error));
      }
      var trust := render.generatePolicyDocument(render.trustPolicyTemplate(kind), params);
      if trust.Err? {
        return Some(RenderFailed(trust.error));
      }
      reply := iamClient.Send(UpdateAssumeRolePolicy(name, trust.value));
      err := if reply.Failed? then Some(Api(reply.error)) else None;
    }

    /** `attachInlinePolicy`. */
    method AttachInlinePolicy(name: string, kind: string, params: Params) returns (err: Option<EngineError>)
      modifies iamClient
      ensures Run(err, iamClient.cloud) ==
        AttachInlinePolicyRun(Config(), iamClient.fault, old(iamClient.cloud), name, kind, params)
    {
      var doc := render.generatePolicyDocument(render.inlinePolicyTemplate(kind, objectLabels), params);
      if doc.Err? {
        return Some(RenderFailed(doc.error));
      }
      var policy := PolicyName(roleType, clusterName);
      var reply := iamClient.Send(GetRolePolicy(name, policy));
      if reply.Failed? && reply.error != NotFound {
        return Some(Api(reply.error));
      }
      if !reply.Failed? {
        var same := AreEqualPolicy(reply.document, doc.value, render.parseJson);
        if same.Err? {
          return Some(CompareFailed(same.error));
        }
        if same.value {
          return None;
        }
        reply := iamClient.Send(DeleteRolePolicy(name, policy));
        if reply.Failed? {
          return Some(Api(reply.error));
        }
      }
      reply := iamClient.Send(PutRolePolicy(name, policy, doc.value));
      err := if reply.Failed? then Some(Api(reply.error)) else None;
    }

    /** `DeleteRole`: the main role. */
    method DeleteRole() returns (err: Option<EngineError>)
      modifies iamClient
      ensures Run(err, iamClient.cloud) == DeleteRoleRun(iamClient.fault, old(iamClient.cloud), mainRoleName)
    {
      err := DeleteRoleNamed(mainRoleName);
    }

    /** `DeleteKiamRole`. */
    method DeleteKiamRole() returns (err: Option<EngineError>)
      modifies iamClient
      ensures Run(err, iamClient.cloud) ==
        DeleteRoleRun(iamClient.fault, old(iamClient.cloud), RoleName(KIAMRole, clusterName))
    {
      err := DeleteRoleNamed(RoleName(KIAMRole, clusterName));
    }

    /** `DeleteRoute53Role`. */
    method DeleteRoute53Role() returns (err: Option<EngineError>)
      modifies iamClient
      ensures Run(err, iamClient.cloud) ==
        DeleteRoleRun(iamClient.fault, old(iamClient.cloud), RoleName(Route53Role, clusterName))
    {
      err := DeleteRoleNamed(RoleName(Route53Role, clusterName));
    }

    /** `DeleteRolesForIRSA`: each IRSA role in order, stopping at the first error. */
    method DeleteRolesForIRSA() returns (err: Option<EngineError>)
      modifies iamClient
      ensures Run(err, iamClient.cloud) ==
        DeleteFamilyRun(iamClient.fault, old(iamClient.cloud), clusterName, GetIRSARoles())
    {
      var kinds := GetIRSARoles();
      var i := 0;
      while i < |kinds|
        invariant 0 <= i <= |kinds|
        invariant DeleteFamilyRun(iamClient.fault, old(iamClient.cloud), clusterName, kinds)
               == DeleteFamilyRun(iamClient.fault, iamClient.cloud, clusterName, kinds[i..])
      {
        err := DeleteRoleNamed(RoleName(kinds[i], clusterName));
        if err.Some? {
          return;
        }
        assert kinds[i..][1..] == kinds[i + 1..];
        i := i + 1;
      }
      return None;
    }

    /** `deleteRole`. */
    method DeleteRoleNamed(name: string) returns (err: Option<EngineError>)
      modifies iamClient
      ensures Run(err, iamClient.cloud) == DeleteRoleRun(iamClient.fault, old(iamClient.cloud), name)
    {
      err := CleanRolePolicies(name);
      if err.Some? {
        return;
      }
      var reply := iamClient.Send(RemoveRoleFromInstanceProfile(name, name));
      if reply.Failed? && reply.error != NotFound {
        return Some(Api(reply.error));
      }
      reply := iamClient.Send(DeleteInstanceProfile(name));
      if reply.Failed? && reply.error != NotFound {
        return Some(Api(reply.error));
      }
      reply := iamClient.Send(Gateway.DeleteRole(name));
      if reply.Failed? && reply.error != NotFound {
        return Some(Api(reply.error));
      }
      return None;
    }

    /** `cleanRolePolicies`. */
    method CleanRolePolicies(name: string) returns (err: Option<EngineError>)
      modifies iamClient
      ensures Run(err, iamClient.cloud) == CleanRolePoliciesRun(iamClient.fault, old(iamClient.cloud), name)
    {
      err := CleanAttachedPolicies(name);
      if err.Some? {
        return;
      }
      err := CleanInlinePolicies(name);
    }

    /** `cleanAttachedPolicies`: list, then detach each; a failed detach is returned, NotFound included. */
    method CleanAttachedPolicies(name: string) returns (err: Option<EngineError>)
      modifies iamClient
      ensures Run(err, iamClient.cloud) == CleanAttachedPoliciesRun(iamClient.fault, old(iamClient.cloud), name)
    {
      var reply := iamClient.Send(ListAttachedRolePolicies(name));
      if reply == Failed(NotFound) {
        return None;
      }
      if reply.Failed? {
        return Some(Api(reply.error));
      }
      var arns := reply.names;
      ghost var listed := iamClient.cloud;
      var i := 0;
      while i < |arns|
        invariant 0 <= i <= |arns|
        invariant DetachAllRun(iamClient.fault, listed, name, arns) == DetachAllRun(iamClient.fault, iamClient.cloud, name, arns[i..])
      {
        var detached := iamClient.Send(DetachRolePolicy(name, arns[i]));
        if detached.Failed? {
          return Some(Api(detached.error));
        }
        assert arns[i..][1..] == arns[i + 1..];
        i := i + 1;
      }
      return None;
    }

    /** `cleanInlinePolicies`: list, then delete each; NotFound on a deletion is ignored. */
    method CleanInlinePolicies(name: string) returns (err: Option<EngineError>)
      modifies iamClient
      ensures Run(err, iamClient.cloud) == CleanInlinePoliciesRun(iamClient.fault, old(iamClient.cloud), name)
    {
      var reply := iamClient.Send(ListRolePolicies(name));
      if reply == Failed(NotFound) {
        return None;
      }
      if reply.Failed? {
        return Some(Api(reply.error));
      }
      var policies := reply.names;
      ghost var listed := iamClient.cloud;
      var i := 0;
      while i < |policies|
        invariant 0 <= i <= |policies|
        invariant DeleteInlineAllRun(iamClient.fault, listed, name, policies)
               == DeleteInlineAllRun(iamClient.fault, iamClient.cloud, name, policies[i..])
      {
        var deleted := iamClient.Send(DeleteRolePolicy(name, policies[i]));
        if deleted.Failed? && deleted.error != NotFound {
          return Some(Api(deleted.error));
        }
        assert policies[i..][1..] == policies[i + 1..];
        i := i + 1;
      }
      return None;
    }

    /** `GetRoleARN`: the role's ARN, or the lookup error. */
    method GetRoleARN(name: string) returns (arn: string, err: Option<ApiError>)
      modifies iamClient
      ensures var g := Invoke(old(iamClient.cloud), iamClient.fault, GetRole(name));
        && iamClient.cloud == g.cloud
        && (g.reply.Failed? ==> arn == "" && err == Some(g.reply.error))
        && (!g.reply.Failed? ==> arn == g.reply.role.arn && err.None?)
      ensures iamClient.fault(|old(iamClient.cloud).trace|).None? ==>
        (err.None? <==> name in old(iamClient.cloud).remote.roles)
        && (err.None? ==> arn == old(iamClient.cloud).remote.roles[name].arn)
    {
      var reply := iamClient.Send(GetRole(name));
      if reply.Failed? {
        return "", Some(reply.error);
      }
      return reply.role.arn, None;
    }

    /** `SetPrincipalRoleARN`: only the field changes; no run reads it. */
    method SetPrincipalRoleARN(arn: string)
      modifies this
      ensures principalRoleARN == arn
    {
      principalRoleARN := arn;
    }

    /** `GetIRSAOpenIDForEKS`, with the cluster description supplied. */
    method GetIRSAOpenIDForEKS(name: string, described: Described) returns (id: string, err: Option<OpenIDError>)
      ensures err.None? <==> IRSAOpenIDForEKS(name, described).Ok?
      ensures err.None? ==> id == IRSAOpenIDForEKS(name, described).value
      ensures err.Some? ==> id == "" && err.value == IRSAOpenIDForEKS(name, described).error
    {
      match IRSAOpenIDForEKS(name, described)
      case Ok(v) => id, err := v, None;
      case Err(e) => id, err := "", Some(e);
    }
  }

  /** `New`: validate the configuration, then build the service around the client. */
  method New(config: ServiceConfig, client: IamClient, render: Renderer) returns (s: IamService?, err: Option<string>)
    ensures err == ValidateConfig(config)
    ensures err.Some? <==> s == null
    ensures s != null ==>
      && fresh(s) && s.iamClient == client && s.render == render
      && s.objectLabels == (if config.objectLabels.None? then map[] else config.objectLabels.value)
      && s.clusterName == config.clusterName && s.clusterRelease == config.clusterRelease
      && s.mainRoleName == config.mainRoleName && s.roleType == config.roleType && s.region == config.region
      && s.principalRoleARN == config.principalRoleARN && s.customTags == config.customTags
    ensures s != null ==>
      s.Config() == Settings(if config.objectLabels.None? then map[] else config.objectLabels.value,
                             config.clusterName, config.clusterRelease, config.mainRoleName,
                             config.region, config.roleType, config.customTags, render)
  {
    err := ValidateConfig(config);
    if err.Some? {
      return null, err;
    }
    s := new IamService(config, client, render);
  }
}
