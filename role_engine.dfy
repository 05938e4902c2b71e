/**
 * The role lifecycle engine of the IAM service, as functions of the cloud
 * state before a run: each returns the error the operation reports (if any)
 * and the cloud afterwards, including every call it issued. The service
 * class proves its methods equal to these functions; the properties of the
 * engine are lemmas about them.
 */
module RoleEngine {
  import opened Wrappers
  import opened Gateway
  import opened PolicyCompare
  import opened IamNames
  import SemVer
  import Strings
  import Template

  /** The three parameter records the templates are rendered with. */
  datatype Params =
    | MainParams(clusterName: string, ec2ServiceDomain: string, awsPartition: string, objectLabels: map<string, string>)
    | KiamParams(awsPartition: string, controlPlaneRoleARN: string, ec2ServiceDomain: string)
    | Route53Params(awsPartition: string, ec2ServiceDomain: string, accountID: string,
                    irsaTrustDomains: seq<string>, namespace: string, serviceAccount: string,
                    principalRoleARN: string)

  /**
   * Definitions the engine uses but that are not modelled: template lookup by
   * role kind, rendering (`text/template`), the partition of a region and the
   * JSON parser.
   */
  datatype Renderer = Renderer(
    trustPolicyTemplate: string -> string,
    inlinePolicyTemplate: (string, map<string, string>) -> string,
    generatePolicyDocument: (string, Params) -> Result<Doc, string>,
    awsPartition: string -> string,
    parseJson: JsonParser)

  /** The fields of an IAM service that a run reads. */
  datatype Settings = Settings(
    objectLabels: map<string, string>,
    clusterName: string,
    clusterRelease: string,
    mainRoleName: string,
    region: string,
    roleType: string,
    customTags: seq<Tag>,
    render: Renderer)

  datatype EngineError =
    | Api(error: ApiError)
    | RenderFailed(message: string)
    | BadRelease(release: string)
    | CompareFailed(cause: CompareError)
    | BadTrustDomains(domains: seq<string>)
    | NoServiceAccount(message: string)

  /** What a run reports, and the cloud it leaves behind. */
  datatype Run = Run(err: Option<EngineError>, cloud: Cloud)

  const CrossplaneNodesRelease := "34.0.0"
  const OwnedTagKey := "capi-iam-controller/owned"
  const ClusterIDTagPrefix := "sigs.k8s.io/cluster-api-provider-aws/cluster/"
  const IRSANamespace := "kube-system"

  /** Tags put on a created role and its instance profile: the two fixed tags, then the custom ones. */
  function RoleTags(clusterName: string, customTags: seq<Tag>): (tags: seq<Tag>)
    ensures |tags| == 2 + |customTags| && tags[2..] == customTags
    ensures tags[0] == Tag(OwnedTagKey, "") && tags[1] == Tag(ClusterIDTagPrefix + clusterName, "owned")
  {
    [Tag(OwnedTagKey, ""), Tag(ClusterIDTagPrefix + clusterName, "owned")] + customTags
  }

  function TrustDocument(s: Settings, kind: string, p: Params): Result<Doc, string>
  {
    s.render.generatePolicyDocument(s.render.trustPolicyTemplate(kind), p)
  }

  function InlineDocument(s: Settings, kind: string, p: Params): Result<Doc, string>
  {
    s.render.generatePolicyDocument(s.render.inlinePolicyTemplate(kind, s.objectLabels), p)
  }

  /** The inline policy name: always derived from the service's own role type. */
  function InlinePolicyName(s: Settings): string
  {
    PolicyName(s.roleType, s.clusterName)
  }

  /** A call's outcome as a run: its error, if it failed. */
  function Step(resp: Response): (r: Run)
    ensures r.cloud == resp.cloud
    ensures r.err.None? <==> !resp.reply.Failed?
  {
    Run(if resp.reply.Failed? then Some(Api(resp.reply.error)) else None, resp.cloud)
  }

  /** A call's outcome as a run, with one error kind treated as success. */
  function Tolerating(resp: Response, tolerated: ApiError): (r: Run)
    ensures r.cloud == resp.cloud
    ensures r.err.None? <==> !resp.reply.Failed? || resp.reply.error == tolerated
  {
    if resp.reply == Failed(tolerated) then Run(None, resp.cloud) else Step(resp)
  }

  /**
   * The release gate: `Ok(true)` when the release is at or past the one from
   * which the node roles are managed elsewhere, an error when it does not parse.
   */
  function ReleaseGate(release: string): Result<bool, EngineError>
  {
    match SemVer.Parse(release)
    case None => Err(BadRelease(release))
    case Some(v) =>
      match SemVer.Parse(CrossplaneNodesRelease)
      case None => Err(BadRelease(CrossplaneNodesRelease))
      case Some(t) => Ok(SemVer.GreaterThanEqual(v, t))
  }

  /** Creation proper: role, then instance profile, then membership. */
  function ProvisionRun(f: Faults, c: Cloud, name: string, trust: Doc, tags: seq<Tag>): (r: Run)
    ensures c.trace <= r.cloud.trace
  {
    var cr := Invoke(c, f, CreateRole(name, trust, tags));
    if cr.reply.Failed? then Step(cr)
    else
      var ip := Tolerating(Invoke(cr.cloud, f, CreateInstanceProfile(name, tags)), AlreadyExists);
      if ip.err.Some? then ip
      else Tolerating(Invoke(ip.cloud, f, AddRoleToInstanceProfile(name, name)), AlreadyExists)
  }

  /** `createRole`: create the role only when the lookup says it does not exist. */
  function CreateRoleRun(s: Settings, f: Faults, c: Cloud, name: string, kind: string, p: Params): (r: Run)
    ensures c.trace <= r.cloud.trace
  {
    var g := Invoke(c, f, GetRole(name));
    if !g.reply.Failed? then Run(None, g.cloud)
    else if g.reply.error != NotFound then Step(g)
    else match TrustDocument(s, kind, p)
      case Err(m) => Run(Some(RenderFailed(m)), g.cloud)
      case Ok(doc) => ProvisionRun(f, g.cloud, name, doc, RoleTags(s.clusterName, s.customTags))
  }

  /** `applyAssumePolicyRole`: overwrite the trust policy of an existing role. */
  function ApplyAssumePolicyRoleRun(s: Settings, f: Faults, c: Cloud, name: string, kind: string, p: Params): (r: Run)
    ensures c.trace <= r.cloud.trace
  {
    var g := Invoke(c, f, GetRole(name));
    if g.reply == Failed(NotFound) then Run(None, g.cloud)
    else if g.reply.Failed? then Step(g)
    else match TrustDocument(s, kind, p)
      case Err(m) => Run(Some(RenderFailed(m)), g.cloud)
      case Ok(doc) => Step(Invoke(g.cloud, f, UpdateAssumeRolePolicy(name, doc)))
  }

  function PutPolicyRun(f: Faults, c: Cloud, name: string, policy: string, doc: Doc): (r: Run)
    ensures c.trace <= r.cloud.trace
  {
    Step(Invoke(c, f, PutRolePolicy(name, policy, doc)))
  }

  /** A policy that differs from the rendered one is deleted, then put again. */
  function ReplacePolicyRun(f: Faults, c: Cloud, name: string, policy: string, doc: Doc): (r: Run)
    ensures c.trace <= r.cloud.trace
  {
    var d := Invoke(c, f, DeleteRolePolicy(name, policy));
    if d.reply.Failed? then Step(d) else PutPolicyRun(f, d.cloud, name, policy, doc)
  }

  /** `attachInlinePolicy`: make the inline policy match the rendered document. */
  function AttachInlinePolicyRun(s: Settings, f: Faults, c: Cloud, name: string, kind: string, p: Params): (r: Run)
    ensures c.trace <= r.cloud.trace
  {
    match InlineDocument(s, kind, p)
    case Err(m) => Run(Some(RenderFailed(m)), c)
    case Ok(doc) =>
      var policy := InlinePolicyName(s);
      var g := Invoke(c, f, GetRolePolicy(name, policy));
      if g.reply.Failed? && g.reply.error != NotFound then Step(g)
      else if g.reply.Failed? then PutPolicyRun(f, g.cloud, name, policy, doc)
      else match AreEqualPolicy(g.reply.document, doc, s.render.parseJson)
        case Err(e) => Run(Some(CompareFailed(e)), g.cloud)
        case Ok(same) =>
          if same then Run(None, g.cloud) else ReplacePolicyRun(f, g.cloud, name, policy, doc)
  }

  /** The three steps of `reconcileRole` after the release gate. */
  function ConvergeRun(s: Settings, f: Faults, c: Cloud, name: string, kind: string, p: Params): (r: Run)
    ensures c.trace <= r.cloud.trace
  {
    var cr := CreateRoleRun(s, f, c, name, kind, p);
    if cr.err.Some? then cr
    else
      var tr := if RefreshesTrust(kind) then ApplyAssumePolicyRoleRun(s, f, cr.cloud, name, kind, p) else cr;
      if tr.err.Some? then tr
      else AttachInlinePolicyRun(s, f, tr.cloud, name, kind, p)
  }

  /** `reconcileRole`: the release gate for the node kinds, then converge. */
  function ReconcileRoleRun(s: Settings, f: Faults, c: Cloud, name: string, kind: string, p: Params): (r: Run)
    ensures c.trace <= r.cloud.trace
  {
    if !IsReleaseGated(kind) then ConvergeRun(s, f, c, name, kind, p)
    else match ReleaseGate(s.clusterRelease)
      case Err(e) => Run(Some(e), c)
      case Ok(skip) => if skip then Run(None, c) else ConvergeRun(s, f, c, name, kind, p)
  }

  /** The loop of `cleanAttachedPolicies`: detach each listed ARN, stopping at any error. */
  function DetachAllRun(f: Faults, c: Cloud, name: string, arns: seq<string>): (r: Run)
    ensures c.trace <= r.cloud.trace
    decreases |arns|
  {
    if arns == [] then Run(None, c)
    else
      var d := Invoke(c, f, DetachRolePolicy(name, arns[0]));
      if d.reply.Failed? then Step(d)
      else DetachAllRun(f, d.cloud, name, arns[1..])
  }

  function CleanAttachedPoliciesRun(f: Faults, c: Cloud, name: string): (r: Run)
    ensures c.trace <= r.cloud.trace
  {
    var l := Invoke(c, f, ListAttachedRolePolicies(name));
    if l.reply == Failed(NotFound) then Run(None, l.cloud)
    else if l.reply.Failed? then Step(l)
    else DetachAllRun(f, l.cloud, name, l.reply.names)
  }

  /** The loop of `cleanInlinePolicies`: delete each listed policy, tolerating NotFound. */
  function DeleteInlineAllRun(f: Faults, c: Cloud, name: string, policies: seq<string>): (r: Run)
    ensures c.trace <= r.cloud.trace
    decreases |policies|
  {
    if policies == [] then Run(None, c)
    else
      var d := Tolerating(Invoke(c, f, DeleteRolePolicy(name, policies[0])), NotFound);
      if d.err.Some? then d
      else DeleteInlineAllRun(f, d.cloud, name, policies[1..])
  }

  function CleanInlinePoliciesRun(f: Faults, c: Cloud, name: string): (r: Run)
    ensures c.trace <= r.cloud.trace
  {
    var l := Invoke(c, f, ListRolePolicies(name));
    if l.reply == Failed(NotFound) then Run(None, l.cloud)
    else if l.reply.Failed? then Step(l)
    else DeleteInlineAllRun(f, l.cloud, name, l.reply.names)
  }

  function CleanRolePoliciesRun(f: Faults, c: Cloud, name: string): (r: Run)
    ensures c.trace <= r.cloud.trace
  {
    var a := CleanAttachedPoliciesRun(f, c, name);
    if a.err.Some? then a else CleanInlinePoliciesRun(f, a.cloud, name)
  }

  /** The last three steps of `deleteRole`, each tolerating NotFound: leave the profile, delete it, delete the role. */
  function RemoveProfileAndRoleRun(f: Faults, c: Cloud, name: string): (r: Run)
    ensures c.trace <= r.cloud.trace
  {
    var rm := Tolerating(Invoke(c, f, RemoveRoleFromInstanceProfile(name, name)), NotFound);
    if rm.err.Some? then rm
    else
      var dp := Tolerating(Invoke(rm.cloud, f, DeleteInstanceProfile(name)), NotFound);
      if dp.err.Some? then dp
      else Tolerating(Invoke(dp.cloud, f, Gateway.DeleteRole(name)), NotFound)
  }

  /** `deleteRole`: policies first, then profile membership, profile and role. */
  function DeleteRoleRun(f: Faults, c: Cloud, name: string): (r: Run)
    ensures c.trace <= r.cloud.trace
  {
    var pr := CleanRolePoliciesRun(f, c, name);
    if pr.err.Some? then pr else RemoveProfileAndRoleRun(f, pr.cloud, name)
  }

  /** `generateRoute53RoleParams`: validate the trust domains, look up the service account. */
  function Route53RoleParams(s: Settings, kind: string, accountID: string, domains: seq<string>)
    : (r: Result<Params, EngineError>)
    ensures r.Ok? <==> |domains| > 0 && "" !in domains && GetServiceAccount(kind).Ok?
    ensures (|domains| == 0 || "" in domains) ==> r == Err(BadTrustDomains(domains))
    ensures r.Ok? ==>
      && r.value.Route53Params?
      && r.value.namespace == IRSANamespace
      && r.value.serviceAccount == GetServiceAccount(kind).value
      && r.value.irsaTrustDomains == domains
      && r.value.accountID == accountID
      && r.value.principalRoleARN == ""
  {
    if |domains| == 0 || "" in domains then Err(BadTrustDomains(domains))
    else match GetServiceAccount(kind)
      case Err(m) => Err(NoServiceAccount(m))
      case Ok(sa) =>
        Ok(Route53Params(s.render.awsPartition(s.region), Template.Ec2ServiceDomain(s.region), accountID,
                         domains, IRSANamespace, sa, ""))
  }

  /** The loop of `ReconcileRolesForIRSA`, over the kinds still to do. */
  function ReconcileFamilyRun(s: Settings, f: Faults, c: Cloud, kinds: seq<string>, accountID: string, domains: seq<string>)
    : (r: Run)
    ensures c.trace <= r.cloud.trace
    decreases |kinds|
  {
    if kinds == [] then Run(None, c)
    else match Route53RoleParams(s, kinds[0], accountID, domains)
      case Err(e) => Run(Some(e), c)
      case Ok(p) =>
        var one := ReconcileRoleRun(s, f, c, RoleName(kinds[0], s.clusterName), kinds[0], p);
        if one.err.Some? then one
        else ReconcileFamilyRun(s, f, one.cloud, kinds[1..], accountID, domains)
  }

  /** The loop of `DeleteRolesForIRSA`, over the kinds still to do. */
  function DeleteFamilyRun(f: Faults, c: Cloud, clusterName: string, kinds: seq<string>): (r: Run)
    ensures c.trace <= r.cloud.trace
    decreases |kinds|
  {
    if kinds == [] then Run(None, c)
    else
      var one := DeleteRoleRun(f, c, RoleName(kinds[0], clusterName));
      if one.err.Some? then one
      else DeleteFamilyRun(f, one.cloud, clusterName, kinds[1..])
  }

  function MainParamsOf(s: Settings): Params
  {
    MainParams(s.clusterName, Template.Ec2ServiceDomain(s.region), s.render.awsPartition(s.region), s.objectLabels)
  }

  /** `ReconcileRole`: the main role, of the service's own role type. */
  function ReconcileMainRoleRun(s: Settings, f: Faults, c: Cloud): (r: Run)
    ensures c.trace <= r.cloud.trace
  {
    ReconcileRoleRun(s, f, c, s.mainRoleName, s.roleType, MainParamsOf(s))
  }

  /** `ReconcileKiamRole`: read the main role's ARN, then reconcile the KIAM role trusting it. */
  function ReconcileKiamRoleRun(s: Settings, f: Faults, c: Cloud): (r: Run)
    ensures c.trace <= r.cloud.trace
  {
    var g := Invoke(c, f, GetRole(s.mainRoleName));
    if g.reply.Failed? then Step(g)
    else
      var p := KiamParams(s.render.awsPartition(s.region), g.reply.role.arn, Template.Ec2ServiceDomain(s.region));
      ReconcileRoleRun(s, f, g.cloud, RoleName(KIAMRole, s.clusterName), KIAMRole, p)
  }

  /** What the EKS cluster description yields: a failure, or the OIDC issuer if there is one. */
  datatype Described = DescribeFailed(message: string) | Description(issuer: Option<string>)

  datatype OpenIDError = DescribeError(message: string) | NoOIDCIdentity(clusterName: string)

  /** `GetIRSAOpenIDForEKS`: the issuer without its `https://` scheme. */
  function IRSAOpenIDForEKS(clusterName: string, described: Described): (r: Result<string, OpenIDError>)
    ensures described.DescribeFailed? ==> r == Err(DescribeError(described.message))
    ensures described.Description? && described.issuer.None? ==> r == Err(NoOIDCIdentity(clusterName))
    ensures described.Description? && described.issuer.Some? ==>
      r.Ok? && (if "https://" <= described.issuer.value then "https://" + r.value else r.value) == described.issuer.value
  {
    match described
    case DescribeFailed(m) => Err(DescribeError(m))
    case Description(None) => Err(NoOIDCIdentity(clusterName))
    case Description(Some(issuer)) => Ok(Strings.TrimPrefix(issuer, "https://"))
  }
}
