/**
 * Properties of the role lifecycle engine: the release gate, the creation
 * path, the trust refresh, the inline-policy step and the calls each step
 * may issue.
 */
module EngineFacts {
  import opened Wrappers
  import opened Gateway
  import opened PolicyCompare
  import opened IamNames
  import opened RoleEngine
  import SemVer

  /** The calls issued between two states of the cloud. */
  function NewCalls(before: Cloud, after: Cloud): seq<Call>
    requires before.trace <= after.trace
  {
    after.trace[|before.trace|..]
  }

  lemma NewCallsSplit(a: Cloud, b: Cloud, c: Cloud)
    requires a.trace <= b.trace && b.trace <= c.trace
    ensures NewCalls(a, c) == NewCalls(a, b) + NewCalls(b, c)
  {
  }

  // ---------------------------------------------------------------- gate

  /** The threshold release is well-formed, so its parse never fails. */
  lemma CrossplaneReleaseParses()
    ensures SemVer.Parse(CrossplaneNodesRelease) == Some(SemVer.Version(34, 0, 0))
  {
    var v := SemVer.Version(34, 0, 0);
    SemVer.ParseFormat(v);
    assert SemVer.DecimalString(3) == "3";
    assert SemVer.DecimalString(34) == "34";
    assert SemVer.DecimalString(0) == "0";
    assert SemVer.Format(v) == CrossplaneNodesRelease;
  }

  /**
   * For control-plane and nodes roles: an unparsable release is an error, a
   * release at or past 34.0.0 ends the run before any call, anything older
   * converges as the other kinds do.
   */
  lemma ReleaseGateOutcomes(s: Settings, f: Faults, c: Cloud, name: string, kind: string, p: Params)
    requires IsReleaseGated(kind)
    ensures SemVer.Parse(s.clusterRelease).None? ==>
      ReconcileRoleRun(s, f, c, name, kind, p) == Run(Some(BadRelease(s.clusterRelease)), c)
    ensures (SemVer.Parse(s.clusterRelease).Some? &&
             SemVer.GreaterThanEqual(SemVer.Parse(s.clusterRelease).value, SemVer.Version(34, 0, 0))) ==>
      ReconcileRoleRun(s, f, c, name, kind, p) == Run(None, c)
    ensures (SemVer.Parse(s.clusterRelease).Some? &&
             !SemVer.GreaterThanEqual(SemVer.Parse(s.clusterRelease).value, SemVer.Version(34, 0, 0))) ==>
      ReconcileRoleRun(s, f, c, name, kind, p) == ConvergeRun(s, f, c, name, kind, p)
  {
    CrossplaneReleaseParses();
  }

  /** Every other kind goes straight to convergence, whatever the release says. */
  lemma UngatedKindsIgnoreRelease(s: Settings, f: Faults, c: Cloud, name: string, kind: string, p: Params)
    requires !IsReleaseGated(kind)
    ensures ReconcileRoleRun(s, f, c, name, kind, p) == ConvergeRun(s, f, c, name, kind, p)
  {
  }

  // ---------------------------------------------------------------- creation

  /** The calls `createRole` makes when the role is missing, in order. */
  function CreationPlan(s: Settings, name: string, trust: Doc): seq<Call>
  {
    var tags := RoleTags(s.clusterName, s.customTags);
    [GetRole(name), CreateRole(name, trust, tags), CreateInstanceProfile(name, tags), AddRoleToInstanceProfile(name, name)]
  }

  lemma ProvisionCalls(f: Faults, c: Cloud, name: string, trust: Doc, tags: seq<Tag>)
    ensures var r := ProvisionRun(f, c, name, trust, tags);
      var plan := [CreateRole(name, trust, tags), CreateInstanceProfile(name, tags), AddRoleToInstanceProfile(name, name)];
      && 1 <= |NewCalls(c, r.cloud)|
      && NewCalls(c, r.cloud) <= plan
      && (r.err.None? ==> NewCalls(c, r.cloud) == plan)
      && (Invoke(c, f, plan[0]).reply.Failed? ==> r == Step(Invoke(c, f, plan[0])))
  {
  }

  /**
   * `createRole`: a role the lookup finds is left alone (one read, no write);
   * any lookup error but NotFound is returned as it is; NotFound renders the
   * trust policy and walks the creation plan, stopping at the first error
   * not tolerated (an existing role aborts, an existing profile or membership
   * does not).
   */
  lemma CreateRoleOutcomes(s: Settings, f: Faults, c: Cloud, name: string, kind: string, p: Params)
    ensures var r := CreateRoleRun(s, f, c, name, kind, p);
      var g := Invoke(c, f, GetRole(name));
      && (!g.reply.Failed? ==> r == Run(None, g.cloud) && r.cloud.remote == c.remote && NewCalls(c, r.cloud) == [GetRole(name)])
      && (g.reply.Failed? && g.reply.error != NotFound ==>
            r == Run(Some(Api(g.reply.error)), g.cloud) && r.cloud.remote == c.remote)
      && (g.reply == Failed(NotFound) && TrustDocument(s, kind, p).Err? ==>
            r == Run(Some(RenderFailed(TrustDocument(s, kind, p).error)), g.cloud))
      && (g.reply == Failed(NotFound) && TrustDocument(s, kind, p).Ok? ==>
            var plan := CreationPlan(s, name, TrustDocument(s, kind, p).value);
            && 2 <= |NewCalls(c, r.cloud)|
            && NewCalls(c, r.cloud) <= plan
            && (r.err.None? ==> NewCalls(c, r.cloud) == plan)
            && (Invoke(g.cloud, f, plan[1]).reply.Failed? ==>
                  r == Run(Some(Api(Invoke(g.cloud, f, plan[1]).reply.error)), Invoke(g.cloud, f, plan[1]).cloud)))
  {
    var g := Invoke(c, f, GetRole(name));
    if g.reply == Failed(NotFound) && TrustDocument(s, kind, p).Ok? {
      var doc := TrustDocument(s, kind, p).value;
      var tags := RoleTags(s.clusterName, s.customTags);
      ProvisionCalls(f, g.cloud, name, doc, tags);
      var r := CreateRoleRun(s, f, c, name, kind, p);
      NewCallsSplit(c, g.cloud, r.cloud);
    }
  }

  // ---------------------------------------------------------------- trust refresh

  /**
   * `applyAssumePolicyRole`: a missing role is skipped without an update;
   * any other lookup error is returned; an existing role always gets the
   * freshly rendered document, with no comparison against the current one.
   */
  lemma TrustRefreshOutcomes(s: Settings, f: Faults, c: Cloud, name: string, kind: string, p: Params)
    ensures var r := ApplyAssumePolicyRoleRun(s, f, c, name, kind, p);
      var g := Invoke(c, f, GetRole(name));
      && (g.reply == Failed(NotFound) ==> r == Run(None, g.cloud) && NewCalls(c, r.cloud) == [GetRole(name)])
      && (g.reply.Failed? && g.reply.error != NotFound ==> r == Run(Some(Api(g.reply.error)), g.cloud))
      && (!g.reply.Failed? && TrustDocument(s, kind, p).Ok? ==>
            && NewCalls(c, r.cloud) == [GetRole(name), UpdateAssumeRolePolicy(name, TrustDocument(s, kind, p).value)]
            && (f(|c.trace| + 1).None? ==>
                  r.err.None? && r.cloud.remote.roles == c.remote.roles[name := c.remote.roles[name].(trust := TrustDocument(s, kind, p).value)]))
  {
  }

  // ---------------------------------------------------------------- inline policy

  /**
   * `attachInlinePolicy`, given the rendered document: an absent policy is
   * put (whatever the document, the empty one included); an existing one that
   * compares equal as JSON is left alone; one that differs is deleted and
   * then put; a failed comparison or any other lookup error aborts without a
   * write. The policy name is always the service's, not the role kind's.
   */
  lemma InlinePolicyOutcomes(s: Settings, f: Faults, c: Cloud, name: string, kind: string, p: Params)
    requires InlineDocument(s, kind, p).Ok?
    ensures var r := AttachInlinePolicyRun(s, f, c, name, kind, p);
      var doc := InlineDocument(s, kind, p).value;
      var policy := InlinePolicyName(s);
      var g := Invoke(c, f, GetRolePolicy(name, policy));
      && (g.reply == Failed(NotFound) ==>
            NewCalls(c, r.cloud) == [GetRolePolicy(name, policy), PutRolePolicy(name, policy, doc)])
      && (g.reply.Failed? && g.reply.error != NotFound ==>
            r == Run(Some(Api(g.reply.error)), g.cloud) && r.cloud.remote == c.remote)
      && (!g.reply.Failed? && AreEqualPolicy(g.reply.document, doc, s.render.parseJson).Err? ==>
            r == Run(Some(CompareFailed(AreEqualPolicy(g.reply.document, doc, s.render.parseJson).error)), g.cloud)
            && r.cloud.remote == c.remote)
      && (!g.reply.Failed? && AreEqualPolicy(g.reply.document, doc, s.render.parseJson) == Ok(true) ==>
            r == Run(None, g.cloud) && r.cloud.remote == c.remote && NewCalls(c, r.cloud) == [GetRolePolicy(name, policy)])
      && (!g.reply.Failed? && AreEqualPolicy(g.reply.document, doc, s.render.parseJson) == Ok(false) ==>
            && 2 <= |NewCalls(c, r.cloud)|
            && NewCalls(c, r.cloud) <= [GetRolePolicy(name, policy), DeleteRolePolicy(name, policy), PutRolePolicy(name, policy, doc)]
            && (r.err.None? ==> |NewCalls(c, r.cloud)| == 3))
  {
  }

  // ---------------------------------------------------------------- which calls

  predicate CreationCall(call: Call, name: string)
  {
    Target(call) == name &&
    (call.GetRole? || call.CreateRole? || call.CreateInstanceProfile? || call == AddRoleToInstanceProfile(name, name))
  }

  predicate TrustCall(call: Call, name: string)
  {
    call == GetRole(name) || (call.UpdateAssumeRolePolicy? && call.role == name)
  }

  predicate InlineCall(call: Call, name: string, policy: string)
  {
    (call.GetRolePolicy? || call.DeleteRolePolicy? || call.PutRolePolicy?) && call.role == name && call.policy == policy
  }

  /** A call `reconcileRole` may issue for role `name`. */
  predicate ReconcileCall(call: Call, name: string, policy: string, refresh: bool)
  {
    CreationCall(call, name) || (refresh && TrustCall(call, name)) || InlineCall(call, name, policy)
  }

  lemma CreateRoleCalls(s: Settings, f: Faults, c: Cloud, name: string, kind: string, p: Params)
    ensures var r := CreateRoleRun(s, f, c, name, kind, p);
      forall call :: call in NewCalls(c, r.cloud) ==> CreationCall(call, name)
  {
    CreateRoleOutcomes(s, f, c, name, kind, p);
  }

  lemma TrustRefreshCalls(s: Settings, f: Faults, c: Cloud, name: string, kind: string, p: Params)
    ensures var r := ApplyAssumePolicyRoleRun(s, f, c, name, kind, p);
      forall call :: call in NewCalls(c, r.cloud) ==> TrustCall(call, name)
  {
  }

  lemma InlinePolicyCalls(s: Settings, f: Faults, c: Cloud, name: string, kind: string, p: Params)
    ensures var r := AttachInlinePolicyRun(s, f, c, name, kind, p);
      forall call :: call in NewCalls(c, r.cloud) ==> InlineCall(call, name, InlinePolicyName(s))
  {
    if InlineDocument(s, kind, p).Ok? {
      InlinePolicyOutcomes(s, f, c, name, kind, p);
    }
  }

  /**
   * Every call of `reconcileRole` is about the role being reconciled; the
   * trust policy is only ever written for the kinds that refresh it (never
   * for KIAM, control-plane, nodes or bastion); every inline-policy call
   * uses the service's policy name, whatever the kind.
   */
  lemma ReconcileRoleCalls(s: Settings, f: Faults, c: Cloud, name: string, kind: string, p: Params)
    ensures var r := ReconcileRoleRun(s, f, c, name, kind, p);
      forall call :: call in NewCalls(c, r.cloud) ==> ReconcileCall(call, name, InlinePolicyName(s), RefreshesTrust(kind))
  {
    var r := ReconcileRoleRun(s, f, c, name, kind, p);
    var cv := ConvergeRun(s, f, c, name, kind, p);
    var cr := CreateRoleRun(s, f, c, name, kind, p);
    CreateRoleCalls(s, f, c, name, kind, p);
    if cr.err.None? {
      var tr := if RefreshesTrust(kind) then ApplyAssumePolicyRoleRun(s, f, cr.cloud, name, kind, p) else cr;
      if RefreshesTrust(kind) {
        TrustRefreshCalls(s, f, cr.cloud, name, kind, p);
      }
      NewCallsSplit(c, cr.cloud, tr.cloud);
      if tr.err.None? {
        InlinePolicyCalls(s, f, tr.cloud, name, kind, p);
        NewCallsSplit(c, tr.cloud, cv.cloud);
      }
    }
    assert r.cloud == c || r == cv;
  }
}
