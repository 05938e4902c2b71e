/**
 * Frame properties of the engine: a run for one role never touches the
 * remote entry of any other role, nor the instance profile of any other
 * name. Every call the engine issues names the role (and the same-named
 * instance profile) it works on, and the backend changes only what a call
 * names.
 */
module FrameFacts {
  import opened Wrappers
  import opened Gateway
  import opened PolicyCompare
  import opened IamNames
  import opened RoleEngine

  /** The role and the instance profile called `n` are the same in `b` as in `a`, or absent from both. */
  predicate Untouched(a: Remote, b: Remote, n: string)
  {
    && (n in a.roles <==> n in b.roles)
    && (n in a.roles ==> b.roles[n] == a.roles[n])
    && (n in a.profiles <==> n in b.profiles)
    && (n in a.profiles ==> b.profiles[n] == a.profiles[n])
  }

  /** A call about another name leaves role and profile `n` alone, whatever its reply. */
  lemma InvokeUntouched(c: Cloud, f: Faults, call: Call, n: string)
    requires Target(call) != n
    ensures Untouched(c.remote, Invoke(c, f, call).cloud.remote, n)
  {
  }

  lemma ProvisionUntouched(f: Faults, c: Cloud, name: string, trust: Doc, tags: seq<Tag>, n: string)
    requires name != n
    ensures Untouched(c.remote, ProvisionRun(f, c, name, trust, tags).cloud.remote, n)
  {
    var cr := Invoke(c, f, CreateRole(name, trust, tags));
    InvokeUntouched(c, f, CreateRole(name, trust, tags), n);
    var ip := Invoke(cr.cloud, f, CreateInstanceProfile(name, tags));
    InvokeUntouched(cr.cloud, f, CreateInstanceProfile(name, tags), n);
    InvokeUntouched(ip.cloud, f, AddRoleToInstanceProfile(name, name), n);
  }

  lemma CreateRoleUntouched(s: Settings, f: Faults, c: Cloud, name: string, kind: string, p: Params, n: string)
    requires name != n
    ensures Untouched(c.remote, CreateRoleRun(s, f, c, name, kind, p).cloud.remote, n)
  {
    var g := Invoke(c, f, GetRole(name));
    InvokeUntouched(c, f, GetRole(name), n);
    if g.reply == Failed(NotFound) && TrustDocument(s, kind, p).Ok? {
      ProvisionUntouched(f, g.cloud, name, TrustDocument(s, kind, p).value, RoleTags(s.clusterName, s.customTags), n);
    }
  }

  lemma ApplyAssumePolicyRoleUntouched(s: Settings, f: Faults, c: Cloud, name: string, kind: string, p: Params, n: string)
    requires name != n
    ensures Untouched(c.remote, ApplyAssumePolicyRoleRun(s, f, c, name, kind, p).cloud.remote, n)
  {
    var g := Invoke(c, f, GetRole(name));
    InvokeUntouched(c, f, GetRole(name), n);
    if !g.reply.Failed? && TrustDocument(s, kind, p).Ok? {
      InvokeUntouched(g.cloud, f, UpdateAssumeRolePolicy(name, TrustDocument(s, kind, p).value), n);
    }
  }

  lemma AttachInlinePolicyUntouched(s: Settings, f: Faults, c: Cloud, name: string, kind: string, p: Params, n: string)
    requires name != n
    ensures Untouched(c.remote, AttachInlinePolicyRun(s, f, c, name, kind, p).cloud.remote, n)
  {
    if InlineDocument(s, kind, p).Ok? {
      var doc := InlineDocument(s, kind, p).value;
      var policy := InlinePolicyName(s);
      var g := Invoke(c, f, GetRolePolicy(name, policy));
      InvokeUntouched(c, f, GetRolePolicy(name, policy), n);
      InvokeUntouched(g.cloud, f, PutRolePolicy(name, policy, doc), n);
      var d := Invoke(g.cloud, f, DeleteRolePolicy(name, policy));
      InvokeUntouched(g.cloud, f, DeleteRolePolicy(name, policy), n);
      InvokeUntouched(d.cloud, f, PutRolePolicy(name, policy, doc), n);
    }
  }

  lemma ConvergeUntouched(s: Settings, f: Faults, c: Cloud, name: string, kind: string, p: Params, n: string)
    requires name != n
    ensures Untouched(c.remote, ConvergeRun(s, f, c, name, kind, p).cloud.remote, n)
  {
    var cr := CreateRoleRun(s, f, c, name, kind, p);
    CreateRoleUntouched(s, f, c, name, kind, p, n);
    if cr.err.None? {
      var tr := if RefreshesTrust(kind) then ApplyAssumePolicyRoleRun(s, f, cr.cloud, name, kind, p) else cr;
      if RefreshesTrust(kind) {
        ApplyAssumePolicyRoleUntouched(s, f, cr.cloud, name, kind, p, n);
      }
      if tr.err.None? {
        AttachInlinePolicyUntouched(s, f, tr.cloud, name, kind, p, n);
      }
    }
  }

  /** `reconcileRole` for `name` leaves every other role and instance profile as it was. */
  lemma ReconcileRoleUntouched(s: Settings, f: Faults, c: Cloud, name: string, kind: string, p: Params, n: string)
    requires name != n
    ensures Untouched(c.remote, ReconcileRoleRun(s, f, c, name, kind, p).cloud.remote, n)
  {
    ConvergeUntouched(s, f, c, name, kind, p, n);
  }

  lemma {:induction false} DetachAllUntouched(f: Faults, c: Cloud, name: string, arns: seq<string>, n: string)
    requires name != n
    ensures Untouched(c.remote, DetachAllRun(f, c, name, arns).cloud.remote, n)
    decreases |arns|
  {
    if arns != [] {
      var d := Invoke(c, f, DetachRolePolicy(name, arns[0]));
      InvokeUntouched(c, f, DetachRolePolicy(name, arns[0]), n);
      DetachAllUntouched(f, d.cloud, name, arns[1..], n);
    }
  }

  lemma {:induction false} DeleteInlineAllUntouched(f: Faults, c: Cloud, name: string, policies: seq<string>, n: string)
    requires name != n
    ensures Untouched(c.remote, DeleteInlineAllRun(f, c, name, policies).cloud.remote, n)
    decreases |policies|
  {
    if policies != [] {
      var d := Invoke(c, f, DeleteRolePolicy(name, policies[0]));
      InvokeUntouched(c, f, DeleteRolePolicy(name, policies[0]), n);
      DeleteInlineAllUntouched(f, d.cloud, name, policies[1..], n);
    }
  }

  lemma CleanRolePoliciesUntouched(f: Faults, c: Cloud, name: string, n: string)
    requires name != n
    ensures Untouched(c.remote, CleanRolePoliciesRun(f, c, name).cloud.remote, n)
  {
    var l := Invoke(c, f, ListAttachedRolePolicies(name));
    InvokeUntouched(c, f, ListAttachedRolePolicies(name), n);
    if l.reply.Names? {
      DetachAllUntouched(f, l.cloud, name, l.reply.names, n);
    }
    var a := CleanAttachedPoliciesRun(f, c, name);
    var li := Invoke(a.cloud, f, ListRolePolicies(name));
    InvokeUntouched(a.cloud, f, ListRolePolicies(name), n);
    if li.reply.Names? {
      DeleteInlineAllUntouched(f, li.cloud, name, li.reply.names, n);
    }
  }

  /** `deleteRole` for `name` leaves every other role and instance profile as it was. */
  lemma DeleteRoleUntouched(f: Faults, c: Cloud, name: string, n: string)
    requires name != n
    ensures Untouched(c.remote, DeleteRoleRun(f, c, name).cloud.remote, n)
  {
    var pr := CleanRolePoliciesRun(f, c, name);
    CleanRolePoliciesUntouched(f, c, name, n);
    var rm := Invoke(pr.cloud, f, RemoveRoleFromInstanceProfile(name, name));
    InvokeUntouched(pr.cloud, f, RemoveRoleFromInstanceProfile(name, name), n);
    var dp := Invoke(rm.cloud, f, DeleteInstanceProfile(name));
    InvokeUntouched(rm.cloud, f, DeleteInstanceProfile(name), n);
    InvokeUntouched(dp.cloud, f, Gateway.DeleteRole(name), n);
  }

  /** Fault-free, a `deleteRole` that reports success leaves neither the role nor its instance profile. */
  lemma DeleteRoleSuccessRemoves(f: Faults, c: Cloud, name: string)
    requires NoFaults(f)
    ensures var r := DeleteRoleRun(f, c, name);
      r.err.None? ==> name !in r.cloud.remote.roles && name !in r.cloud.remote.profiles
  {
    var pr := CleanRolePoliciesRun(f, c, name);
    if pr.err.None? {
      var rm := Tolerating(Invoke(pr.cloud, f, RemoveRoleFromInstanceProfile(name, name)), NotFound);
      if rm.err.None? {
        var dp := Tolerating(Invoke(rm.cloud, f, DeleteInstanceProfile(name)), NotFound);
        assert f(|rm.cloud.trace|).None?;
        if dp.err.None? {
          assert name !in dp.cloud.remote.profiles;
          assert f(|dp.cloud.trace|).None?;
        }
      }
    }
  }
}
