/**
 * Fault-free behaviour of `reconcileRole`: a fresh role is created with its
 * profile, tags, trust and inline policy; a successful run leaves the role
 * converged; a run over a converged role writes nothing that changes the
 * backend.
 */
module ConvergenceFacts {
  import opened Wrappers
  import opened Gateway
  import opened PolicyCompare
  import opened IamNames
  import opened RoleEngine
  import opened EngineFacts

  /** The remote role matches what reconciling it renders. */
  predicate Converged(s: Settings, remote: Remote, name: string, kind: string, p: Params)
  {
    && name in remote.roles
    && InlineDocument(s, kind, p).Ok?
    && FindInline(remote.roles[name].inline, InlinePolicyName(s)).Some?
    && s.render.parseJson(FindInline(remote.roles[name].inline, InlinePolicyName(s)).value)
       == s.render.parseJson(InlineDocument(s, kind, p).value)
    && (RefreshesTrust(kind) ==>
          TrustDocument(s, kind, p).Ok? && remote.roles[name].trust == TrustDocument(s, kind, p).value)
  }

  /** Without faults, a successful `createRole` leaves the role in place and its other state untouched. */
  lemma CreateRoleEstablishes(s: Settings, f: Faults, c: Cloud, name: string, kind: string, p: Params)
    requires NoFaults(f)
    ensures var r := CreateRoleRun(s, f, c, name, kind, p);
      r.err.None? ==> name in r.cloud.remote.roles && (name in c.remote.roles ==> r.cloud.remote == c.remote)
  {
  }

  /** Without faults, a successful trust refresh of an existing role leaves exactly the rendered trust policy. */
  lemma TrustRefreshEstablishes(s: Settings, f: Faults, c: Cloud, name: string, kind: string, p: Params)
    requires NoFaults(f) && name in c.remote.roles
    ensures var r := ApplyAssumePolicyRoleRun(s, f, c, name, kind, p);
      r.err.None? ==>
        && TrustDocument(s, kind, p).Ok?
        && r.cloud.remote == c.remote.(roles := c.remote.roles[name := c.remote.roles[name].(trust := TrustDocument(s, kind, p).value)])
  {
    TrustRefreshOutcomes(s, f, c, name, kind, p);
  }

  /**
   * Without faults, a successful inline-policy step leaves a policy of the
   * service's name whose JSON equals the rendered one, and keeps the trust
   * policy.
   */
  lemma InlinePolicyEstablishes(s: Settings, f: Faults, c: Cloud, name: string, kind: string, p: Params)
    requires NoFaults(f) && name in c.remote.roles
    ensures var r := AttachInlinePolicyRun(s, f, c, name, kind, p);
      r.err.None? ==>
        && InlineDocument(s, kind, p).Ok?
        && name in r.cloud.remote.roles
        && r.cloud.remote.roles[name].trust == c.remote.roles[name].trust
        && FindInline(r.cloud.remote.roles[name].inline, InlinePolicyName(s)).Some?
        && s.render.parseJson(FindInline(r.cloud.remote.roles[name].inline, InlinePolicyName(s)).value)
           == s.render.parseJson(InlineDocument(s, kind, p).value)
  {
    if InlineDocument(s, kind, p).Ok? {
      var policy := InlinePolicyName(s);
      var stored := FindInline(c.remote.roles[name].inline, policy);
      if stored.None? {
        InlineAbsentEstablishes(s, f, c, name, kind, p);
      } else {
        InlinePresentEstablishes(s, f, c, name, kind, p);
      }
    }
  }

  /** The inline-policy step when the role has no policy of that name yet: one put. */
  lemma InlineAbsentEstablishes(s: Settings, f: Faults, c: Cloud, name: string, kind: string, p: Params)
    requires NoFaults(f) && name in c.remote.roles && InlineDocument(s, kind, p).Ok?
    requires FindInline(c.remote.roles[name].inline, InlinePolicyName(s)).None?
    ensures var r := AttachInlinePolicyRun(s, f, c, name, kind, p);
      r.err.None? ==>
        && name in r.cloud.remote.roles
        && r.cloud.remote.roles[name].trust == c.remote.roles[name].trust
        && FindInline(r.cloud.remote.roles[name].inline, InlinePolicyName(s)) == Some(InlineDocument(s, kind, p).value)
  {
    var doc := InlineDocument(s, kind, p).value;
    var policy := InlinePolicyName(s);
    var g := Invoke(c, f, GetRolePolicy(name, policy));
    assert g.reply == Failed(NotFound) && g.cloud.remote == c.remote;
    assert AttachInlinePolicyRun(s, f, c, name, kind, p) == PutPolicyRun(f, g.cloud, name, policy, doc);
    PutPolicyStores(f, g.cloud, name, policy, doc);
  }

  /** The inline-policy step when a policy of that name exists: kept when equal, else deleted and put again. */
  lemma InlinePresentEstablishes(s: Settings, f: Faults, c: Cloud, name: string, kind: string, p: Params)
    requires NoFaults(f) && name in c.remote.roles && InlineDocument(s, kind, p).Ok?
    requires FindInline(c.remote.roles[name].inline, InlinePolicyName(s)).Some?
    ensures var r := AttachInlinePolicyRun(s, f, c, name, kind, p);
      r.err.None? ==>
        && name in r.cloud.remote.roles
        && r.cloud.remote.roles[name].trust == c.remote.roles[name].trust
        && FindInline(r.cloud.remote.roles[name].inline, InlinePolicyName(s)).Some?
        && s.render.parseJson(FindInline(r.cloud.remote.roles[name].inline, InlinePolicyName(s)).value)
           == s.render.parseJson(InlineDocument(s, kind, p).value)
  {
    var r := AttachInlinePolicyRun(s, f, c, name, kind, p);
    var doc := InlineDocument(s, kind, p).value;
    var policy := InlinePolicyName(s);
    var stored := FindInline(c.remote.roles[name].inline, policy).value;
    var g := Invoke(c, f, GetRolePolicy(name, policy));
    assert g.reply == PolicyDocument(PercentEncode(stored)) && g.cloud.remote == c.remote;
    UnescapeEncode(stored);
    var cmp := AreEqualPolicy(g.reply.document, doc, s.render.parseJson);
    if cmp == Ok(true) {
      assert r == Run(None, g.cloud);
    } else if cmp == Ok(false) {
      assert r == ReplacePolicyRun(f, g.cloud, name, policy, doc);
      ReplacePolicyStores(f, g.cloud, name, policy, doc);
    }
  }

  /** Fault-free, replacing an existing policy stores the new document and keeps the trust policy. */
  lemma ReplacePolicyStores(f: Faults, c: Cloud, name: string, policy: string, doc: Doc)
    requires NoFaults(f) && name in c.remote.roles && FindInline(c.remote.roles[name].inline, policy).Some?
    ensures var r := ReplacePolicyRun(f, c, name, policy, doc);
      && r.err.None?
      && name in r.cloud.remote.roles
      && r.cloud.remote.roles[name].trust == c.remote.roles[name].trust
      && FindInline(r.cloud.remote.roles[name].inline, policy) == Some(doc)
  {
    var d := Invoke(c, f, DeleteRolePolicy(name, policy));
    assert d.reply == Done;
    assert d.cloud.remote.roles[name].trust == c.remote.roles[name].trust;
    PutPolicyStores(f, d.cloud, name, policy, doc);
  }

  /** A successful fault-free PutRolePolicy stores the document and keeps the trust policy. */
  lemma PutPolicyStores(f: Faults, c: Cloud, name: string, policy: string, doc: Doc)
    requires NoFaults(f) && name in c.remote.roles
    ensures var r := PutPolicyRun(f, c, name, policy, doc);
      r.err.None? ==>
        && name in r.cloud.remote.roles
        && r.cloud.remote.roles[name].trust == c.remote.roles[name].trust
        && FindInline(r.cloud.remote.roles[name].inline, policy) == Some(doc)
  {
  }

  /** A successful fault-free reconciliation leaves the role converged. */
  lemma ConvergeEstablishes(s: Settings, f: Faults, c: Cloud, name: string, kind: string, p: Params)
    requires NoFaults(f)
    ensures var r := ConvergeRun(s, f, c, name, kind, p);
      r.err.None? ==> Converged(s, r.cloud.remote, name, kind, p)
  {
    var r := ConvergeRun(s, f, c, name, kind, p);
    var cr := CreateRoleRun(s, f, c, name, kind, p);
    CreateRoleEstablishes(s, f, c, name, kind, p);
    if r.err.None? {
      var tr := if RefreshesTrust(kind) then ApplyAssumePolicyRoleRun(s, f, cr.cloud, name, kind, p) else cr;
      if RefreshesTrust(kind) {
        TrustRefreshEstablishes(s, f, cr.cloud, name, kind, p);
      }
      InlinePolicyEstablishes(s, f, tr.cloud, name, kind, p);
    }
  }

  /**
   * Reconciling a converged role: the role and policy are found, the trust
   * policy is rewritten with the value it already has (for the kinds that
   * refresh it), the policy compares equal, and the backend is unchanged.
   */
  lemma ConvergedIsStable(s: Settings, f: Faults, c: Cloud, name: string, kind: string, p: Params)
    requires NoFaults(f)
    requires Converged(s, c.remote, name, kind, p)
    requires s.render.parseJson(InlineDocument(s, kind, p).value).Some?
    ensures var r := ConvergeRun(s, f, c, name, kind, p);
      && r.err.None?
      && r.cloud.remote == c.remote
      && NewCalls(c, r.cloud) ==
           [GetRole(name)]
           + (if RefreshesTrust(kind) then [GetRole(name), UpdateAssumeRolePolicy(name, TrustDocument(s, kind, p).value)] else [])
           + [GetRolePolicy(name, InlinePolicyName(s))]
  {
    var r := ConvergeRun(s, f, c, name, kind, p);
    var cr := CreateRoleRun(s, f, c, name, kind, p);
    assert cr == Run(None, Cloud(c.remote, c.trace + [GetRole(name)]));
    var tr := if RefreshesTrust(kind) then ApplyAssumePolicyRoleRun(s, f, cr.cloud, name, kind, p) else cr;
    if RefreshesTrust(kind) {
      StableTrust(s, f, cr.cloud, name, kind, p);
    }
    StableInline(s, f, tr.cloud, name, kind, p);
    NewCallsSplit(c, cr.cloud, tr.cloud);
    NewCallsSplit(c, tr.cloud, r.cloud);
  }

  /** On a converged role the trust refresh rewrites the trust policy it already has. */
  lemma StableTrust(s: Settings, f: Faults, c: Cloud, name: string, kind: string, p: Params)
    requires NoFaults(f) && RefreshesTrust(kind)
    requires Converged(s, c.remote, name, kind, p)
    ensures var tr := ApplyAssumePolicyRoleRun(s, f, c, name, kind, p);
      && tr.err.None? && tr.cloud.remote == c.remote
      && NewCalls(c, tr.cloud) == [GetRole(name), UpdateAssumeRolePolicy(name, TrustDocument(s, kind, p).value)]
  {
    var role := c.remote.roles[name];
    assert role.(trust := TrustDocument(s, kind, p).value) == role;
    assert c.remote.roles[name := role] == c.remote.roles;
    TrustRefreshOutcomes(s, f, c, name, kind, p);
  }

  /** On a converged role the inline policy is read, compares equal, and is left alone. */
  lemma StableInline(s: Settings, f: Faults, c: Cloud, name: string, kind: string, p: Params)
    requires NoFaults(f)
    requires Converged(s, c.remote, name, kind, p)
    requires s.render.parseJson(InlineDocument(s, kind, p).value).Some?
    ensures var r := AttachInlinePolicyRun(s, f, c, name, kind, p);
      && r.err.None? && r.cloud.remote == c.remote
      && NewCalls(c, r.cloud) == [GetRolePolicy(name, InlinePolicyName(s))]
  {
    var doc := InlineDocument(s, kind, p).value;
    var policy := InlinePolicyName(s);
    var stored := FindInline(c.remote.roles[name].inline, policy).value;
    var g := Invoke(c, f, GetRolePolicy(name, policy));
    assert g.reply == PolicyDocument(PercentEncode(stored)) && g.cloud.remote == c.remote;
    AreEqualPolicyAfterRoundTrip(stored, doc, s.render.parseJson);
    assert AttachInlinePolicyRun(s, f, c, name, kind, p) == Run(None, g.cloud);
  }

  /**
   * Reconciliation is idempotent: after a fault-free successful run, a
   * second run succeeds and leaves the backend as the first one left it.
   */
  lemma ReconcileIdempotent(s: Settings, f: Faults, c: Cloud, name: string, kind: string, p: Params)
    requires NoFaults(f)
    requires InlineDocument(s, kind, p).Ok? && s.render.parseJson(InlineDocument(s, kind, p).value).Some?
    requires ReconcileRoleRun(s, f, c, name, kind, p).err.None?
    ensures var r1 := ReconcileRoleRun(s, f, c, name, kind, p);
      var r2 := ReconcileRoleRun(s, f, r1.cloud, name, kind, p);
      r2.err.None? && r2.cloud.remote == r1.cloud.remote
  {
    var r1 := ReconcileRoleRun(s, f, c, name, kind, p);
    if r1 == ConvergeRun(s, f, c, name, kind, p) {
      ConvergeEstablishes(s, f, c, name, kind, p);
      ConvergedIsStable(s, f, r1.cloud, name, kind, p);
    }
  }

  /**
   * A role that exists nowhere yet is created in full by one fault-free run:
   * the creation plan, the trust refresh where the kind has one, then the
   * policy put; role and profile carry the same tags and the profile holds
   * exactly the role.
   */
  lemma FreshRoleIsCreated(s: Settings, f: Faults, c: Cloud, name: string, kind: string, p: Params)
    requires NoFaults(f)
    requires name !in c.remote.roles && name !in c.remote.profiles
    requires TrustDocument(s, kind, p).Ok? && InlineDocument(s, kind, p).Ok?
    ensures var r := ConvergeRun(s, f, c, name, kind, p);
      var trust := TrustDocument(s, kind, p).value;
      var tags := RoleTags(s.clusterName, s.customTags);
      && r.err.None?
      && Converged(s, r.cloud.remote, name, kind, p)
      && NewCalls(c, r.cloud) ==
           CreationPlan(s, name, trust)
           + (if RefreshesTrust(kind) then [GetRole(name), UpdateAssumeRolePolicy(name, trust)] else [])
           + [GetRolePolicy(name, InlinePolicyName(s)), PutRolePolicy(name, InlinePolicyName(s), InlineDocument(s, kind, p).value)]
      && r.cloud.remote.roles[name].tags == tags
      && r.cloud.remote.roles[name].trust == trust
      && name in r.cloud.remote.profiles
      && r.cloud.remote.profiles[name] == Profile(tags, {name})
  {
    var trust := TrustDocument(s, kind, p).value;
    var tags := RoleTags(s.clusterName, s.customTags);
    var r := ConvergeRun(s, f, c, name, kind, p);
    var cr := CreateRoleRun(s, f, c, name, kind, p);
    FreshCreation(s, f, c, name, kind, p);
    var tr := if RefreshesTrust(kind) then ApplyAssumePolicyRoleRun(s, f, cr.cloud, name, kind, p) else cr;
    if RefreshesTrust(kind) {
      FreshTrust(s, f, cr.cloud, name, kind, p, tags);
    }
    FreshInline(s, f, tr.cloud, name, kind, p, tags, trust);
    NewCallsSplit(c, cr.cloud, tr.cloud);
    NewCallsSplit(c, tr.cloud, r.cloud);
    ConvergeEstablishes(s, f, c, name, kind, p);
  }

  /** A just-created role: its tags and trust, no inline policy, and a profile holding only it. */
  predicate JustCreated(remote: Remote, name: string, tags: seq<Tag>, trust: Doc)
  {
    && name in remote.roles
    && remote.roles[name].tags == tags
    && remote.roles[name].trust == trust
    && remote.roles[name].inline == []
    && name in remote.profiles
    && remote.profiles[name] == Profile(tags, {name})
  }

  /** First stage of a fresh reconciliation: the creation plan runs in full. */
  lemma FreshCreation(s: Settings, f: Faults, c: Cloud, name: string, kind: string, p: Params)
    requires NoFaults(f)
    requires name !in c.remote.roles && name !in c.remote.profiles
    requires TrustDocument(s, kind, p).Ok?
    ensures var cr := CreateRoleRun(s, f, c, name, kind, p);
      && cr.err.None?
      && NewCalls(c, cr.cloud) == CreationPlan(s, name, TrustDocument(s, kind, p).value)
      && JustCreated(cr.cloud.remote, name, RoleTags(s.clusterName, s.customTags), TrustDocument(s, kind, p).value)
  {
    CreateRoleOutcomes(s, f, c, name, kind, p);
  }

  /** Second stage: the trust refresh writes the trust policy the role already has. */
  lemma FreshTrust(s: Settings, f: Faults, c: Cloud, name: string, kind: string, p: Params, tags: seq<Tag>)
    requires NoFaults(f) && TrustDocument(s, kind, p).Ok?
    requires JustCreated(c.remote, name, tags, TrustDocument(s, kind, p).value)
    ensures var tr := ApplyAssumePolicyRoleRun(s, f, c, name, kind, p);
      && tr.err.None?
      && NewCalls(c, tr.cloud) == [GetRole(name), UpdateAssumeRolePolicy(name, TrustDocument(s, kind, p).value)]
      && JustCreated(tr.cloud.remote, name, tags, TrustDocument(s, kind, p).value)
  {
    TrustRefreshOutcomes(s, f, c, name, kind, p);
  }

  /** Last stage: the absent inline policy is put, and nothing else about the role changes. */
  lemma FreshInline(s: Settings, f: Faults, c: Cloud, name: string, kind: string, p: Params, tags: seq<Tag>, trust: Doc)
    requires NoFaults(f) && InlineDocument(s, kind, p).Ok?
    requires JustCreated(c.remote, name, tags, trust)
    ensures var r := AttachInlinePolicyRun(s, f, c, name, kind, p);
      && r.err.None?
      && NewCalls(c, r.cloud) == [GetRolePolicy(name, InlinePolicyName(s)), PutRolePolicy(name, InlinePolicyName(s), InlineDocument(s, kind, p).value)]
      && name in r.cloud.remote.roles
      && r.cloud.remote.roles[name].tags == tags
      && r.cloud.remote.roles[name].trust == trust
      && name in r.cloud.remote.profiles
      && r.cloud.remote.profiles[name] == Profile(tags, {name})
  {
    var doc := InlineDocument(s, kind, p).value;
    var policy := InlinePolicyName(s);
    var g := Invoke(c, f, GetRolePolicy(name, policy));
    assert g.reply == Failed(NotFound) && g.cloud.remote == c.remote;
    var r := AttachInlinePolicyRun(s, f, c, name, kind, p);
    assert r == PutPolicyRun(f, g.cloud, name, policy, doc);
    NewCallsSplit(c, g.cloud, r.cloud);
  }
}
