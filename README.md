# capa-iam-operator: IAM role lifecycle engine in Dafny

This project models the core of giantswarm/capa-iam-operator, an operator that
creates, refreshes and tears down the AWS IAM roles, instance profiles, trust
policies and inline policies of Cluster API clusters, and proves properties
of that model.

- `IAMService` is the class `Iam.IamService`. Its methods issue calls through
  an IAM client (`Gateway.IamClient`). The client holds the remote IAM state:
  roles with their trust document, tags, inline policies and attached
  policy ARNs, plus instance profiles and the roles they hold. It also keeps
  the trace of every call issued.
- Every call goes through `Gateway.Invoke`. A fault oracle may make the n-th
  call fail with any error: NotFound, AlreadyExists or another error.
  Otherwise the call has its usual IAM effect. For example, GetRole of a
  missing role is NotFound, and DeleteRole of a role that still has policies
  is a DeleteConflict.
- Each method of the service is proved equal to a function of module
  `RoleEngine`. That function gives the error and the cloud (backend plus
  trace) left after the run. The modules `EngineFacts`, `ConvergenceFacts`,
  `FamilyFacts`, `FrameFacts` and `TeardownFacts` prove the engine's
  properties about these functions: the version gate, the outcomes of
  creation, trust refresh and the inline-policy step, the five-step teardown
  order, family order and stopping at the first failure, the KIAM chain,
  that a run for one role leaves every other role alone, idempotence and
  convergence.
- The pure helpers are functions with lemmas:
  - role and policy naming (`IamNames`);
  - query unescaping and JSON policy comparison (`PolicyCompare`);
  - the region, partition and template-selection helpers (`Template`);
  - the label, finalizer, domain and annotation helpers (`Key`);
  - a strict `MAJOR.MINOR.PATCH` version parser (`SemVer`).
- The controller helpers are in `CapaUtils`: the shared-reference search
  and the bounded finalizer-removal retry loop, which works on a
  `KubeObject` whose finalizer list it updates in place. The API server's
  replies are oracle functions indexed by attempt number.
- The proof-of-concept controller's trust-statement editing is in
  `PocController`.

Quirks of the code are reproduced as written:
- The inline policy name always comes from the service's own role type.
- A rendered inline document is always put when the policy is absent or
  differs. There is no "empty document means no policy" branch.
- The KIAM role never has its trust policy refreshed.
- `SetPrincipalRoleARN` sets a field that no run reads.

## Model

| member | source | states |
|---|---|---|
| `IamNames.RoleNameTable` | pkg/iam/iam.go:702-713 | route53, kiam and cert-manager roles get the `-Route53Manager-Role`, `-IAMManager-Role` and `-CertManager-Role` names; every other kind is `{cluster}-{kind}` |
| `IamNames.RoleNameInjective` | pkg/iam/iam.go:702-713 | a role name determines its cluster and the kind's name suffix |
| `IamNames.PolicyNameInjective` | pkg/iam/iam.go:715-717 | `{role}-{cluster}-policy` determines the cluster once the role is fixed |
| `IamNames.GetServiceAccount` | pkg/iam/iam.go:719-738 | a kind without a service account gets the "cannot get service account" error naming it |
| `IamNames.IRSAFamilyKinds` | pkg/iam/iam.go:719-749 | every IRSA family kind has a service account, refreshes its trust and is not release-gated; KIAM, control-plane, nodes and bastion have no service account and never refresh trust |
| `IamNames.IRSARoleNamesDistinct` | pkg/iam/iam.go:740-749 | the six IRSA roles of a cluster have six distinct remote names |
| `PolicyCompare.UnescapeEncode` | pkg/iam/iam.go:776-783 | query-unescaping undoes the backend's RFC 3986 percent-encoding of any document |
| `PolicyCompare.UnescapePlain` | pkg/iam/iam.go:776-783 | a document without `%` and `+` unescapes to itself |
| `PolicyCompare.PlusDecodesToSpace` | pkg/iam/iam.go:776-783 | a literal `+` decodes to a space, as `url.QueryUnescape` does |
| `PolicyCompare.AreEqualJSON` | pkg/iam/iam.go:759-774 | an error exactly when either document fails to parse; otherwise true iff both parse to the same JSON value, as `reflect.DeepEqual` compares them |
| `PolicyCompare.AreEqualPolicy` | pkg/iam/iam.go:751-757 | an error exactly when decoding or either parse fails, never `false`; otherwise true iff the decoded and expected documents parse to equal values |
| `PolicyCompare.AreEqualJSONSymmetric` | pkg/iam/iam.go:759-774 | comparison is symmetric and reflexive on parseable documents |
| `PolicyCompare.AreEqualPolicyAfterRoundTrip` | pkg/iam/iam.go:751-757 | a stored document read back percent-encoded compares as its own JSON value |
| `Strings.ContainsIff` | pkg/iam/template.go:48-50 | `strings.Contains` holds iff the substring occurs at some position |
| `Template.IsChinaRegion` | pkg/iam/template.go:48-50 | a region is Chinese iff `cn-` occurs in it |
| `Template.RegionHelpersAgree` | pkg/iam/template.go:31-46 | partition `aws-cn` and domain `ec2.amazonaws.com.cn` exactly for China regions, `aws` and `ec2.amazonaws.com` otherwise |
| `Template.ChinaRegionExamples` | pkg/iam/template.go:48-50 | `cn-north-1` is a China region, `eu-west-1` is not |
| `Template.AssumeRoleDocumentPrincipal` | pkg/iam/template.go:52-71 | the assume-role document is the template with the region's EC2 domain in its one placeholder, the `.cn` principal exactly for China regions |
| `Template.SelectPolicyTemplate` | pkg/iam/template.go:73-81 | control-plane selects the control-plane template, nodes the nodes template, any other role type the "unknown role type" error |
| `Template.GeneratePolicyDocument` | pkg/iam/template.go:73-100 | an unknown role type is an error; otherwise the selected template is rendered with cluster, region and partition |
| `Key.FinalizerName` | pkg/key/key.go:28-30 | the finalizer is the operator prefix followed by the role name |
| `Key.FinalizerNameInjective` | pkg/key/key.go:28-30 | distinct roles get distinct finalizers |
| `Key.GetClusterIDFromLabels` | pkg/key/key.go:32-38 | an error iff the cluster-name label is missing or empty, otherwise its value |
| `Key.HasCapiWatchLabel` | pkg/key/key.go:84-92 | true iff the watch-filter label is present and equals `capi` |
| `Key.MachineTemplateRoles` | pkg/key/key.go:94-112 | the control-plane and bastion predicates test the role label for `control-plane` and `bastion` and never both hold |
| `Key.ChinaRegionAgrees` | pkg/key/key.go:180-182 | this package's China test agrees with the IAM package's on every region |
| `Key.IRSADomainShape` | pkg/key/key.go:114-120 | outside China the domain is `irsa.` and the base domain; in China it is the regional S3 bucket host, which ignores the base domain |
| `Key.GetAnnotation` | pkg/key/key.go:171-178 | `""` for nil annotations or a missing key, otherwise the value |
| `Key.GetAdditionalIrsaDomain` | pkg/key/key.go:167-169 | the value of the additional-domain annotation when it is present, and `""` when the annotations are nil or lack it |
| `SemVer.ParseFormat` | pkg/iam/iam.go:262-274 | parsing a formatted `MAJOR.MINOR.PATCH` gives the version back |
| `SemVer.DecimalRoundTrip` | pkg/iam/iam.go:262-274 | decimal spelling and value are inverse |
| `SemVer.GreaterThanEqualIsTotalOrder` | pkg/iam/iam.go:276-279 | version precedence is a total order |
| `Gateway.Effect` | pkg/iam/iam.go:41-60 | failed calls and read-only calls leave the backend unchanged; a successful reply has the shape its call expects |
| `Gateway.Invoke` | pkg/iam/iam.go:41-60 | every call is appended to the trace; an injected fault is the reply; otherwise the call's effect applies |
| `Gateway.IamClient.Send` | pkg/iam/iam.go:41-60 | the client's cloud moves as `Invoke` says |
| `Gateway.PutInline` | pkg/iam/iam.go:468-478 | after PutRolePolicy the named policy holds the new document and the other policies are unchanged |
| `Gateway.DropInline` | pkg/iam/iam.go:458-461 | after DeleteRolePolicy the named policy is gone and the others are unchanged |
| `Gateway.DropArn` | pkg/iam/iam.go:619-624 | after DetachRolePolicy the ARN is gone and the other ARNs stay attached |
| `RoleEngine.RoleTags` | pkg/iam/iam.go:329-344 | tags are the owned tag with value `""`, then the cluster-ID tag with value `owned`, then every custom tag |
| `RoleEngine.Route53RoleParams` | pkg/iam/iam.go:232-254 | an empty domain list or one containing `""` is an error; otherwise namespace kube-system, the kind's service account, the given domains and account, and an empty principal ARN |
| `RoleEngine.IRSAOpenIDForEKS` | pkg/iam/iam.go:685-700 | a describe error or a missing issuer is an error; otherwise the issuer with its `https://` prefix stripped |
| `Iam.ValidateConfig` | pkg/iam/iam.go:107-125 | construction succeeds iff config, factory, cluster name, release and main role name are set and the role type is one of the four allowed |
| `Iam.New` | pkg/iam/iam.go:107-148 | a service is returned exactly when validation passes; every field comes from the configuration, with nil labels becoming an empty map, so the settings every run reads are fixed by the configuration and the renderer |
| `Iam.IamService.constructor` | pkg/iam/iam.go:126-145 | fields come from the configuration, with nil labels turned into an empty map |
| `Iam.IamService.ReconcileRole` | pkg/iam/iam.go:150-171 | reconciles the main role with the cluster parameters, as `RoleEngine.ReconcileMainRoleRun` |
| `Iam.IamService.ReconcileKiamRole` | pkg/iam/iam.go:173-209 | reads the main role's ARN, failing on any error, then reconciles the KIAM role, as `RoleEngine.ReconcileKiamRoleRun` |
| `Iam.IamService.ReconcileRolesForIRSA` | pkg/iam/iam.go:211-230 | the loop over the IRSA family equals `RoleEngine.ReconcileFamilyRun` |
| `Iam.IamService.ReconcileRoleNamed` | pkg/iam/iam.go:256-301 | the release gate for control-plane and nodes, then convergence, as `RoleEngine.ReconcileRoleRun` |
| `Iam.IamService.Converge` | pkg/iam/iam.go:282-300 | create, trust refresh for the refreshing kinds, inline policy, stopping at the first error |
| `Iam.IamService.BuildTags` | pkg/iam/iam.go:329-344 | the tag slice built by appending equals `RoleEngine.RoleTags` |
| `Iam.IamService.CreateRoleNamed` | pkg/iam/iam.go:304-385 | `createRole` equals `RoleEngine.CreateRoleRun` |
| `Iam.IamService.Provision` | pkg/iam/iam.go:346-384 | CreateRole, then CreateInstanceProfile and AddRoleToInstanceProfile tolerating AlreadyExists |
| `Iam.IamService.ApplyAssumePolicyRole` | pkg/iam/iam.go:387-422 | `applyAssumePolicyRole` equals `RoleEngine.ApplyAssumePolicyRoleRun` |
| `Iam.IamService.AttachInlinePolicy` | pkg/iam/iam.go:425-482 | `attachInlinePolicy` equals `RoleEngine.AttachInlinePolicyRun` |
| `Iam.IamService.DeleteRole` | pkg/iam/iam.go:484-495 | tears down the main role |
| `Iam.IamService.DeleteKiamRole` | pkg/iam/iam.go:497-508 | tears down the KIAM role |
| `Iam.IamService.DeleteRoute53Role` | pkg/iam/iam.go:510-521 | tears down the Route53 role |
| `Iam.IamService.DeleteRolesForIRSA` | pkg/iam/iam.go:523-535 | the deletion loop over the IRSA family equals `RoleEngine.DeleteFamilyRun` |
| `Iam.IamService.DeleteRoleNamed` | pkg/iam/iam.go:537-579 | `deleteRole` equals `RoleEngine.DeleteRoleRun` |
| `Iam.IamService.CleanRolePolicies` | pkg/iam/iam.go:581-598 | attached policies, then inline policies |
| `Iam.IamService.CleanAttachedPolicies` | pkg/iam/iam.go:600-633 | the detach loop equals `RoleEngine.CleanAttachedPoliciesRun` |
| `Iam.IamService.CleanInlinePolicies` | pkg/iam/iam.go:635-668 | the delete loop equals `RoleEngine.CleanInlinePoliciesRun` |
| `Iam.IamService.GetRoleARN` | pkg/iam/iam.go:670-679 | the ARN of the role as the backend holds it, or the GetRole error |
| `Iam.IamService.SetPrincipalRoleARN` | pkg/iam/iam.go:681-683 | only the principal ARN field changes |
| `Iam.IamService.GetIRSAOpenIDForEKS` | pkg/iam/iam.go:685-700 | the issuer without `https://`, or the error, from the supplied cluster description |
| `EngineFacts.CrossplaneReleaseParses` | pkg/iam/iam.go:269-274 | the threshold release parses to 34.0.0 |
| `EngineFacts.ReleaseGateOutcomes` | pkg/iam/iam.go:262-280 | for control-plane and nodes: an unparsable release is an error with no call, a release of at least 34.0.0 succeeds with no call, an older one converges |
| `EngineFacts.UngatedKindsIgnoreRelease` | pkg/iam/iam.go:262-282 | other kinds converge whatever the release |
| `EngineFacts.ProvisionCalls` | pkg/iam/iam.go:346-380 | creation issues a prefix of CreateRole, CreateInstanceProfile, AddRoleToInstanceProfile, all of it on success; a CreateRole error, AlreadyExists included, aborts |
| `EngineFacts.CreateRoleOutcomes` | pkg/iam/iam.go:304-385 | an existing role means one read and no change; a non-NotFound lookup error is returned unchanged; only NotFound walks the creation plan |
| `EngineFacts.TrustRefreshOutcomes` | pkg/iam/iam.go:387-422 | a missing role is skipped with no update; an existing role always gets UpdateAssumeRolePolicy with the rendered document, with no diff |
| `EngineFacts.InlinePolicyOutcomes` | pkg/iam/iam.go:425-482 | an absent policy is put; an equal one is left with zero writes; a different one is deleted strictly before the put; comparison and other lookup errors abort without a write |
| `EngineFacts.CreateRoleCalls` | pkg/iam/iam.go:304-385 | `createRole` only issues creation calls about its role |
| `EngineFacts.TrustRefreshCalls` | pkg/iam/iam.go:387-422 | the trust refresh only reads the role and updates its trust policy |
| `EngineFacts.InlinePolicyCalls` | pkg/iam/iam.go:436-474 | every inline-policy call uses the service's policy name |
| `EngineFacts.ReconcileRoleCalls` | pkg/iam/iam.go:282-298 | every call is about the reconciled role, and the trust policy is only written for the refreshing kinds |
| `ConvergenceFacts.CreateRoleEstablishes` | pkg/iam/iam.go:304-385 | fault-free, a successful `createRole` leaves the role present and an existing role untouched |
| `ConvergenceFacts.TrustRefreshEstablishes` | pkg/iam/iam.go:387-422 | fault-free, a successful refresh leaves exactly the rendered trust policy |
| `ConvergenceFacts.InlinePolicyEstablishes` | pkg/iam/iam.go:425-482 | fault-free, a successful inline step leaves a policy of the service's name whose JSON equals the rendered one |
| `ConvergenceFacts.InlineAbsentEstablishes` | pkg/iam/iam.go:468-478 | an absent policy is stored by one put |
| `ConvergenceFacts.InlinePresentEstablishes` | pkg/iam/iam.go:445-478 | an existing policy is kept when equal, else replaced |
| `ConvergenceFacts.ReplacePolicyStores` | pkg/iam/iam.go:458-478 | delete then put stores the new document and keeps the trust policy |
| `ConvergenceFacts.PutPolicyStores` | pkg/iam/iam.go:468-478 | a put stores the document and keeps the trust policy |
| `ConvergenceFacts.ConvergeEstablishes` | pkg/iam/iam.go:282-300 | a successful fault-free reconciliation leaves the role converged |
| `ConvergenceFacts.ConvergedIsStable` | pkg/iam/iam.go:282-300 | on a converged role, a run only reads, rewrites the same trust policy for refreshing kinds, and leaves the backend unchanged |
| `ConvergenceFacts.StableTrust` | pkg/iam/iam.go:387-422 | on a converged role the trust update writes the value already there |
| `ConvergenceFacts.StableInline` | pkg/iam/iam.go:435-456 | on a converged role the inline policy compares equal and is not written |
| `ConvergenceFacts.ReconcileIdempotent` | pkg/iam/iam.go:256-301 | after a successful fault-free run, a second run succeeds and leaves the backend as it was |
| `ConvergenceFacts.FreshRoleIsCreated` | pkg/iam/iam.go:304-482 | a role absent everywhere is created with role and profile carrying the same tags, the profile holding it, then trust and inline policy, in that call order |
| `ConvergenceFacts.FreshCreation` | pkg/iam/iam.go:346-380 | on a fresh role the creation plan runs in full |
| `ConvergenceFacts.FreshTrust` | pkg/iam/iam.go:387-422 | the refresh right after creation rewrites the same trust policy |
| `ConvergenceFacts.FreshInline` | pkg/iam/iam.go:436-478 | the absent inline policy is put and nothing else about the role changes |
| `FamilyFacts.ReconcileRoleTargets` | pkg/iam/iam.go:436-474 | all calls of one `reconcileRole` are about its role and use the service's policy name |
| `FamilyFacts.ReconcileFamilyOrder` | pkg/iam/iam.go:211-254 | the trust domains are checked before any call; roles are reconciled one after another in family order; every policy call uses the service's policy name |
| `FamilyFacts.ReconcileFamilyStops` | pkg/iam/iam.go:211-230 | a failed loop stopped at some kind k: the loop over the kinds before k succeeded, the error and cloud are those of kind k's parameter build or `reconcileRole`, and no call is about the role of a later kind |
| `FamilyFacts.ReconcileFamilyCompletes` | pkg/iam/iam.go:211-230 | a successful loop built the parameters of every kind and completed a successful `reconcileRole` for it, starting where the loop over the earlier kinds ended |
| `FamilyFacts.ReconcileFamilyUntouched` | pkg/iam/iam.go:211-230 | the loop leaves alone every role and instance profile whose name is not the role of one of its kinds |
| `FamilyFacts.ReconcileFamilyConverges` | pkg/iam/iam.go:211-230 | fault-free, a successful loop leaves the role of every kind that is not release-gated converged at the end, so a later role never undoes an earlier one |
| `FamilyFacts.DeleteFamilyOrder` | pkg/iam/iam.go:523-535 | roles are torn down one after another in family order |
| `FamilyFacts.DeleteFamilyStops` | pkg/iam/iam.go:523-535 | a failed loop stopped at some kind k: the loop over the kinds before k succeeded, the error and cloud are those of the teardown of kind k's role, and no call is about the role of a later kind |
| `FamilyFacts.DeleteFamilyCompletes` | pkg/iam/iam.go:523-535 | a successful loop completed a successful `deleteRole` for every kind, starting where the loop over the earlier kinds ended |
| `FamilyFacts.DeleteFamilyUntouched` | pkg/iam/iam.go:523-535 | the loop leaves alone every role and instance profile whose name is not the role of one of its kinds |
| `FamilyFacts.DeleteFamilyRemoves` | pkg/iam/iam.go:523-535 | fault-free, a successful loop leaves neither the role of any kind nor its instance profile |
| `FamilyFacts.IRSAFamilyOrder` | pkg/iam/iam.go:740-749 | both IRSA loops visit the six roles in the fixed order and stop at the first failure; on success every role had its turn, and without faults all six are converged after reconciliation and gone, with their profiles, after deletion |
| `FrameFacts.InvokeUntouched` | pkg/iam/iam.go:41-60 | a call about another name leaves a role and its instance profile unchanged, whatever the reply |
| `FrameFacts.ReconcileRoleUntouched` | pkg/iam/iam.go:256-301 | `reconcileRole` for one role leaves every other role and instance profile unchanged |
| `FrameFacts.DeleteRoleUntouched` | pkg/iam/iam.go:537-579 | `deleteRole` for one role leaves every other role and instance profile unchanged |
| `FrameFacts.DeleteRoleSuccessRemoves` | pkg/iam/iam.go:537-579 | fault-free, a `deleteRole` that reports success leaves neither the role nor its instance profile, whatever the backend held before |
| `FamilyFacts.KiamChain` | pkg/iam/iam.go:173-209 | any GetRole error on the main role is returned after that one call; otherwise the KIAM role trusts the ARN as read and its trust is never rewritten |
| `FamilyFacts.NoTrustWrites` | pkg/iam/iam.go:287-292 | a kind outside the refresh list never gets UpdateAssumeRolePolicy |
| `TeardownFacts.DetachAllShape` | pkg/iam/iam.go:616-631 | the detach loop only detaches from this role, and its only error is a detach's |
| `TeardownFacts.DeleteInlineAllShape` | pkg/iam/iam.go:651-665 | the inline loop only deletes this role's policies and never reports NotFound |
| `TeardownFacts.CleanAttachedShape` | pkg/iam/iam.go:600-633 | list then detach, in order, NotFound on the list tolerated |
| `TeardownFacts.CleanInlineShape` | pkg/iam/iam.go:635-668 | list then delete, in order, NotFound tolerated |
| `TeardownFacts.CleanRolePoliciesShape` | pkg/iam/iam.go:581-598 | attached before inline; a NotFound is only reported from a detach |
| `TeardownFacts.RemoveProfileAndRoleShape` | pkg/iam/iam.go:546-578 | remove from profile, delete profile, delete role, in order, each tolerating NotFound |
| `TeardownFacts.DeleteRoleOrder` | pkg/iam/iam.go:537-579 | attached, inline, profile membership, profile, role, in that order; it stops at the first error; NotFound is reported only from DetachRolePolicy |
| `TeardownFacts.DetachAllClears` | pkg/iam/iam.go:616-632 | detaching every listed ARN leaves none attached |
| `TeardownFacts.DeleteInlineAllClears` | pkg/iam/iam.go:651-667 | deleting every listed inline policy leaves none |
| `TeardownFacts.AttachedCleared` | pkg/iam/iam.go:600-633 | fault-free, the attached list ends empty and nothing else changes |
| `TeardownFacts.InlineCleared` | pkg/iam/iam.go:635-668 | fault-free, the inline list ends empty and nothing else changes |
| `TeardownFacts.CleanPoliciesClear` | pkg/iam/iam.go:581-598 | fault-free, both policy lists end empty |
| `TeardownFacts.RemoveProfileAndRoleRemoves` | pkg/iam/iam.go:546-578 | the last three steps remove exactly the role and its profile |
| `TeardownFacts.DeleteRoleRemoves` | pkg/iam/iam.go:537-579 | fault-free teardown removes exactly the role and its same-named profile, and succeeds when neither exists |
| `CapaUtils.IsRoleUsedElsewhere` | controllers/capa_utils.go:23-55 | true iff a non-deleting template, or else a non-deleting pool, names the profile; a list failure gives `(false, err)`; a template match skips the pool listing |
| `CapaUtils.Without` | controllers/capa_utils.go:71 | the named finalizer is removed and every other one kept |
| `CapaUtils.RemovalFrom` | controllers/capa_utils.go:65-98 | at most five patches and four re-fetches, with fetches never exceeding patches |
| `CapaUtils.RemoveFinalizer` | controllers/capa_utils.go:57-101 | the retry loop's error and final finalizers equal `CapaUtils.FinalizerRemoval`; the code after the loop is unreachable |
| `CapaUtils.AttemptBounds` | controllers/capa_utils.go:21-98 | whatever the replies, at most 5 patches and 4 re-fetches |
| `CapaUtils.AbsentFinalizerIsNoOp` | controllers/capa_utils.go:60-63 | without the finalizer: nil, no patch, no change |
| `CapaUtils.AllInvalidReturnsLastError` | controllers/capa_utils.go:84-100 | Invalid on every attempt gives five patches, four re-fetches and the fifth attempt's own error |
| `CapaUtils.SuccessRemovesOnlyTheFinalizer` | controllers/capa_utils.go:71-97 | on success the finalizer is absent and the others are those last read, in order |
| `CapaUtils.ErrorsEndTheLoop` | controllers/capa_utils.go:66-94 | a helper failure, a non-Invalid patch error or a failed re-fetch is returned at once |
| `PocController.ServiceAccountNameTable` | controllers/poc_controller.go:296-313 | the six managed role names, and only they, get a non-empty service account |
| `PocController.ServiceAccountTablesDiffer` | controllers/poc_controller.go:296-313 | this table names `efs-csi-controller-sa` for the EFS role where the IAM package names `efs-csi-sa` |
| `PocController.DesiredStatement` | controllers/poc_controller.go:259-270 | Allow, federated principal, `sts:AssumeRoleWithWebIdentity`, StringLike `{domain}:sub` to `system:serviceaccount:*:{sa}` |
| `PocController.FirstFor` | controllers/poc_controller.go:272-277 | the index of the first statement for the principal, or the length |
| `PocController.Filtered` | controllers/poc_controller.go:284-294 | the statements kept are exactly those not for the principal |
| `PocController.AddStatement` | controllers/poc_controller.go:258-282 | the scan replaces the first statement for the principal, or appends |
| `PocController.RemoveStatement` | controllers/poc_controller.go:284-294 | the loop keeps the statements not for the principal, in order |
| `PocController.UpsertedShape` | controllers/poc_controller.go:272-281 | on a match, same length with only the first match replaced; otherwise the desired statement appended |
| `PocController.UpsertIdempotent` | controllers/poc_controller.go:258-282 | adding twice equals adding once |
| `PocController.FilteredUnchanged` | controllers/poc_controller.go:286-290 | with no statement for the principal, removal changes nothing |
| `PocController.RemoveIdempotent` | controllers/poc_controller.go:284-294 | removing twice equals removing once |
| `PocController.RemoveUndoesFreshAdd` | controllers/poc_controller.go:258-294 | when no statement had the principal, removing after adding restores the statements |
| `PocController.AddLeavesOneStatementFor` | controllers/poc_controller.go:272-281 | after an add, every statement for the principal is the desired one |

## Left out

- The template texts and Go's `text/template` engine. Template lookup by
  kind (`getTrustPolicyTemplate`, `getInlinePolicyTemplate`), the
  two-argument `generatePolicyDocument`, `awsPartition` and the JSON parser
  are function-valued parameters of the model. Rendered documents are
  opaque byte strings.
- `Template.GeneratePolicyDocument`: pkg/iam/template.go reads a `clusterID`
  field that `IAMService` in pkg/iam/iam.go does not have. The cluster ID is
  a parameter here, and the EC2 domain is left empty as in that file.
- `reflect.DeepEqual` and the JSON number representation: JSON values are
  a datatype compared by equality.
- Semantic-version leniencies (a `v` prefix, partial versions, pre-release
  and build suffixes): only `MAJOR.MINOR.PATCH` parses. A release the
  original library accepts in a lenient form is an error here.
- `RoleEngine.RoleTags`: custom tags are a sequence in one fixed order. The
  source iterates a Go map, whose order varies from run to run.
- Logging, `context`, and the SDK's option functions.
- The EKS `DescribeCluster` call: its outcome is a parameter of
  `GetIRSAOpenIDForEKS`.
- The cluster-API server behind `isRoleUsedElsewhere` and `removeFinalizer`:
  list, patch and get results are parameters or oracle functions. The patch
  helper is modelled only as "could not be built". The object's fields other
  than its finalizer list are left out.
- Paging of the list calls: `cleanAttachedPolicies` and `cleanInlinePolicies`
  read only the first page of `ListAttachedRolePolicies` and
  `ListRolePolicies` (pkg/iam/iam.go:606, 641). They never look at
  `IsTruncated` or pass a `Marker`, and the backend pages at 100 items by
  default. The model's list replies are the complete list. So
  `TeardownFacts.AttachedCleared`, `TeardownFacts.InlineCleared`,
  `TeardownFacts.CleanPoliciesClear` and `TeardownFacts.DeleteRoleRemoves`
  hold only for roles whose lists fit in one page. With more, the source
  leaves the rest in place, and the final `DeleteRole` fails with
  DeleteConflict. The lemmas that start from a reported success
  (`FrameFacts.DeleteRoleSuccessRemoves`, `FamilyFacts.DeleteFamilyRemoves`)
  do not depend on this.
- Controller `Reconcile` methods, manager bootstrap, session acquisition,
  account-ID parsing and the Kubernetes-backed lookups of pkg/key/key.go
  (`GetBaseDomain`, `GetClusterByName`, `GetAWSClusterByName`,
  `GetAWSClusterRoleIdentity`, `GetAWSAccountID`) are not part of this model.
- Concurrency: the engine runs one sequential call chain per invocation.
