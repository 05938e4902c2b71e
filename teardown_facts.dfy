/**
 * Properties of `deleteRole`: the order of its steps, which NotFound errors
 * it tolerates, and that a fault-free run removes the role and its profile
 * and nothing else.
 */
module TeardownFacts {
  import opened Wrappers
  import opened Gateway
  import opened RoleEngine
  import opened EngineFacts

  /** The step of the teardown a call belongs to. */
  function Phase(call: Call): nat
  {
    match call
    case ListAttachedRolePolicies(_) => 0
    case DetachRolePolicy(_, _) => 1
    case ListRolePolicies(_) => 2
    case DeleteRolePolicy(_, _) => 3
    case RemoveRoleFromInstanceProfile(_, _) => 4
    case DeleteInstanceProfile(_) => 5
    case DeleteRole(_) => 6
    case _ => 7
  }

  /** Only the per-policy steps repeat. */
  predicate Repeatable(phase: nat)
  {
    phase == 1 || phase == 3
  }

  /** Calls in teardown order: each step at most once, except the per-policy ones, and never going back. */
  predicate PhaseOrdered(cs: seq<Call>)
  {
    forall i, j :: 0 <= i < j < |cs| ==>
      Phase(cs[i]) < Phase(cs[j]) || (Phase(cs[i]) == Phase(cs[j]) && Repeatable(Phase(cs[i])))
  }

  predicate PhasesWithin(cs: seq<Call>, name: string, lo: nat, hi: nat)
  {
    forall i :: 0 <= i < |cs| ==> lo <= Phase(cs[i]) <= hi && Target(cs[i]) == name
  }

  lemma OrderedConcat(a: seq<Call>, b: seq<Call>, name: string, lo: nat, mid: nat, hi: nat)
    requires PhaseOrdered(a) && PhaseOrdered(b) && lo <= mid < hi
    requires PhasesWithin(a, name, lo, mid) && PhasesWithin(b, name, mid + 1, hi)
    ensures PhaseOrdered(a + b) && PhasesWithin(a + b, name, lo, hi)
  {
    var ab := a + b;
    forall i | 0 <= i < |ab| ensures lo <= Phase(ab[i]) <= hi && Target(ab[i]) == name {
      if i < |a| { assert ab[i] == a[i]; } else { assert ab[i] == b[i - |a|]; }
    }
    forall i, j | 0 <= i < j < |ab|
      ensures Phase(ab[i]) < Phase(ab[j]) || (Phase(ab[i]) == Phase(ab[j]) && Repeatable(Phase(ab[i])))
    {
      if j < |a| {
        assert ab[i] == a[i] && ab[j] == a[j];
      } else if i >= |a| {
        assert ab[i] == b[i - |a|] && ab[j] == b[j - |a|];
      } else {
        assert ab[i] == a[i] && ab[j] == b[j - |a|];
      }
    }
  }

  lemma WithinConcat(a: seq<Call>, b: seq<Call>, name: string, lo: nat, hi: nat)
    requires PhasesWithin(a, name, lo, hi) && PhasesWithin(b, name, lo, hi)
    ensures PhasesWithin(a + b, name, lo, hi)
  {
    var ab := a + b;
    forall i | 0 <= i < |ab| ensures lo <= Phase(ab[i]) <= hi && Target(ab[i]) == name {
      if i < |a| { assert ab[i] == a[i]; } else { assert ab[i] == b[i - |a|]; }
    }
  }

  /** Detaching: every call is a detach of this role; the only error it reports is a detach's. */
  lemma {:induction false} DetachAllShape(f: Faults, c: Cloud, name: string, arns: seq<string>)
    ensures var r := DetachAllRun(f, c, name, arns);
      && PhasesWithin(NewCalls(c, r.cloud), name, 1, 1)
      && (r.err.Some? ==> NewCalls(c, r.cloud) != [] && r.err.value.Api?)
    decreases |arns|
  {
    if arns != [] {
      var d := Invoke(c, f, DetachRolePolicy(name, arns[0]));
      if !d.reply.Failed? {
        var r := DetachAllRun(f, d.cloud, name, arns[1..]);
        DetachAllShape(f, d.cloud, name, arns[1..]);
        NewCallsSplit(c, d.cloud, r.cloud);
        WithinConcat([DetachRolePolicy(name, arns[0])], NewCalls(d.cloud, r.cloud), name, 1, 1);
      }
    }
  }

  /** Deleting inline policies: every call is a policy deletion on this role; NotFound is never reported. */
  lemma {:induction false} DeleteInlineAllShape(f: Faults, c: Cloud, name: string, policies: seq<string>)
    ensures var r := DeleteInlineAllRun(f, c, name, policies);
      && PhasesWithin(NewCalls(c, r.cloud), name, 3, 3)
      && (r.err.Some? ==> r.err.value.Api? && r.err.value.error != NotFound)
    decreases |policies|
  {
    if policies != [] {
      var d := Tolerating(Invoke(c, f, DeleteRolePolicy(name, policies[0])), NotFound);
      if d.err.None? {
        var r := DeleteInlineAllRun(f, d.cloud, name, policies[1..]);
        DeleteInlineAllShape(f, d.cloud, name, policies[1..]);
        NewCallsSplit(c, d.cloud, r.cloud);
        WithinConcat([DeleteRolePolicy(name, policies[0])], NewCalls(d.cloud, r.cloud), name, 3, 3);
      }
    }
  }

  /** Calls that all share one repeatable phase are in order. */
  lemma SinglePhaseOrdered(cs: seq<Call>, name: string, ph: nat)
    requires PhasesWithin(cs, name, ph, ph) && Repeatable(ph)
    ensures PhaseOrdered(cs)
  {
  }

  lemma CleanAttachedShape(f: Faults, c: Cloud, name: string)
    ensures var r := CleanAttachedPoliciesRun(f, c, name);
      && PhaseOrdered(NewCalls(c, r.cloud)) && PhasesWithin(NewCalls(c, r.cloud), name, 0, 1)
      && (r.err.Some? ==> r.err.value.Api?)
      && (r.err == Some(Api(NotFound)) ==> NewCalls(c, r.cloud)[|NewCalls(c, r.cloud)| - 1].DetachRolePolicy?)
  {
    var l := Invoke(c, f, ListAttachedRolePolicies(name));
    var r := CleanAttachedPoliciesRun(f, c, name);
    if !l.reply.Failed? {
      assert r == DetachAllRun(f, l.cloud, name, l.reply.names);
      DetachAllShape(f, l.cloud, name, l.reply.names);
      var tail := NewCalls(l.cloud, r.cloud);
      SinglePhaseOrdered(tail, name, 1);
      NewCallsSplit(c, l.cloud, r.cloud);
      assert NewCalls(c, l.cloud) == [ListAttachedRolePolicies(name)];
      OrderedConcat([ListAttachedRolePolicies(name)], tail, name, 0, 0, 1);
      if r.err.Some? {
        var cs := NewCalls(c, r.cloud);
        assert cs[|cs| - 1] == tail[|tail| - 1];
        assert Phase(tail[|tail| - 1]) == 1;
      }
    } else {
      assert NewCalls(c, r.cloud) == [ListAttachedRolePolicies(name)];
    }
  }

  lemma CleanInlineShape(f: Faults, c: Cloud, name: string)
    ensures var r := CleanInlinePoliciesRun(f, c, name);
      && PhaseOrdered(NewCalls(c, r.cloud)) && PhasesWithin(NewCalls(c, r.cloud), name, 2, 3)
      && (r.err.Some? ==> r.err.value.Api? && r.err.value.error != NotFound)
  {
    var l := Invoke(c, f, ListRolePolicies(name));
    if !l.reply.Failed? {
      var r := DeleteInlineAllRun(f, l.cloud, name, l.reply.names);
      DeleteInlineAllShape(f, l.cloud, name, l.reply.names);
      NewCallsSplit(c, l.cloud, r.cloud);
      assert PhaseOrdered(NewCalls(l.cloud, r.cloud));
      OrderedConcat([ListRolePolicies(name)], NewCalls(l.cloud, r.cloud), name, 2, 2, 3);
    }
  }

  lemma FinalStepsOrdered(name: string, k: nat)
    requires k <= 3
    ensures var steps := [RemoveRoleFromInstanceProfile(name, name), DeleteInstanceProfile(name), Gateway.DeleteRole(name)];
      PhaseOrdered(steps[..k]) && PhasesWithin(steps[..k], name, 4, 6)
  {
    var steps := [RemoveRoleFromInstanceProfile(name, name), DeleteInstanceProfile(name), Gateway.DeleteRole(name)];
    forall i | 0 <= i < k ensures Phase(steps[..k][i]) == 4 + i && Target(steps[..k][i]) == name {
    }
  }

  lemma RemoveProfileAndRoleShape(f: Faults, c: Cloud, name: string)
    ensures var r := RemoveProfileAndRoleRun(f, c, name);
      var cs := NewCalls(c, r.cloud);
      var steps := [RemoveRoleFromInstanceProfile(name, name), DeleteInstanceProfile(name), Gateway.DeleteRole(name)];
      && cs <= steps && 1 <= |cs|
      && PhaseOrdered(cs) && PhasesWithin(cs, name, 4, 6)
      && (r.err.None? ==> cs == steps)
      && (r.err.Some? ==> r.err.value.Api? && r.err.value.error != NotFound)
  {
    var steps := [RemoveRoleFromInstanceProfile(name, name), DeleteInstanceProfile(name), Gateway.DeleteRole(name)];
    var cs := NewCalls(c, RemoveProfileAndRoleRun(f, c, name).cloud);
    assert cs <= steps && 1 <= |cs|;
    assert cs == steps[..|cs|];
    FinalStepsOrdered(name, |cs|);
  }

  /**
   * `deleteRole` works in order: attached policies, inline policies, profile
   * membership, profile, role, all about the one role, each step at most
   * once apart from the per-policy calls. Its errors are backend errors, and
   * a NotFound is reported only when a detach raised it: everywhere else
   * NotFound counts as done.
   */
  lemma DeleteRoleOrder(f: Faults, c: Cloud, name: string)
    ensures var r := DeleteRoleRun(f, c, name);
      var cs := NewCalls(c, r.cloud);
      && PhaseOrdered(cs) && PhasesWithin(cs, name, 0, 6)
      && (r.err.Some? ==> r.err.value.Api?)
      && (r.err == Some(Api(NotFound)) ==> cs != [] && cs[|cs| - 1].DetachRolePolicy?)
      && (r.err.None? ==>
            3 <= |cs| && cs[|cs| - 3..] == [RemoveRoleFromInstanceProfile(name, name), DeleteInstanceProfile(name), Gateway.DeleteRole(name)])
  {
    var pr := CleanRolePoliciesRun(f, c, name);
    CleanRolePoliciesShape(f, c, name);
    if pr.err.None? {
      var r := RemoveProfileAndRoleRun(f, pr.cloud, name);
      var tail := NewCalls(pr.cloud, r.cloud);
      RemoveProfileAndRoleShape(f, pr.cloud, name);
      NewCallsSplit(c, pr.cloud, r.cloud);
      OrderedConcat(NewCalls(c, pr.cloud), tail, name, 0, 3, 6);
    }
  }

  lemma CleanRolePoliciesShape(f: Faults, c: Cloud, name: string)
    ensures var r := CleanRolePoliciesRun(f, c, name);
      var cs := NewCalls(c, r.cloud);
      && PhaseOrdered(cs) && PhasesWithin(cs, name, 0, 3)
      && (r.err.Some? ==> r.err.value.Api?)
      && (r.err == Some(Api(NotFound)) ==> cs != [] && cs[|cs| - 1].DetachRolePolicy?)
  {
    var a := CleanAttachedPoliciesRun(f, c, name);
    CleanAttachedShape(f, c, name);
    if a.err.None? {
      var i := CleanInlinePoliciesRun(f, a.cloud, name);
      CleanInlineShape(f, a.cloud, name);
      NewCallsSplit(c, a.cloud, i.cloud);
      OrderedConcat(NewCalls(c, a.cloud), NewCalls(a.cloud, i.cloud), name, 0, 1, 3);
    }
  }

  // ---------------------------------------------------------------- fault-free teardown

  predicate Distinct<T(==)>(xs: seq<T>)
  {
    forall i, j :: 0 <= i < j < |xs| ==> xs[i] != xs[j]
  }

  lemma {:induction false} DropArnAbsent(arns: seq<string>, arn: string)
    requires arn !in arns
    ensures DropArn(arns, arn) == arns
  {
    if arns != [] {
      DropArnAbsent(arns[1..], arn);
    }
  }

  lemma {:induction false} DropInlineAbsent(ps: seq<InlinePolicy>, name: string)
    requires name !in InlineNames(ps)
    ensures DropInline(ps, name) == ps
  {
    if ps != [] {
      assert InlineNames(ps) == [ps[0].name] + InlineNames(ps[1..]);
      DropInlineAbsent(ps[1..], name);
    }
  }

  /** A sequence without repeats: its head is not in its tail, and its tail has no repeats. */
  lemma DistinctTail(xs: seq<string>)
    requires xs != [] && Distinct(xs)
    ensures xs[0] !in xs[1..] && Distinct(xs[1..])
  {
    forall k | 0 <= k < |xs[1..]| ensures xs[1..][k] != xs[0] {
      assert xs[1..][k] == xs[1 + k];
    }
  }

  /** One fault-free detach of the first attached ARN. */
  lemma DetachStep(f: Faults, c: Cloud, name: string, arns: seq<string>)
    requires NoFaults(f)
    requires name in c.remote.roles && c.remote.roles[name].attached == arns && arns != [] && arns[0] !in arns[1..]
    ensures var d := Invoke(c, f, DetachRolePolicy(name, arns[0]));
      !d.reply.Failed? && d.cloud.remote == c.remote.(roles := c.remote.roles[name := c.remote.roles[name].(attached := arns[1..])])
  {
    DropArnAbsent(arns[1..], arns[0]);
    assert DropArn(arns, arns[0]) == arns[1..];
  }

  /** Detaching every attached ARN, one by one, leaves the role with none. */
  lemma {:induction false} DetachAllClears(f: Faults, c: Cloud, name: string, arns: seq<string>)
    requires NoFaults(f)
    requires name in c.remote.roles && c.remote.roles[name].attached == arns && Distinct(arns)
    ensures var r := DetachAllRun(f, c, name, arns);
      r.err.None? && r.cloud.remote == c.remote.(roles := c.remote.roles[name := c.remote.roles[name].(attached := [])])
    decreases |arns|
  {
    var role := c.remote.roles[name];
    if arns != [] {
      DistinctTail(arns);
      DetachStep(f, c, name, arns);
      var d := Invoke(c, f, DetachRolePolicy(name, arns[0]));
      assert DetachAllRun(f, c, name, arns) == DetachAllRun(f, d.cloud, name, arns[1..]);
      DetachAllClears(f, d.cloud, name, arns[1..]);
      assert role.(attached := arns[1..]).(attached := []) == role.(attached := []);
    } else {
      assert role.(attached := []) == role;
      assert c.remote.roles[name := role] == c.remote.roles;
    }
  }

  /** One fault-free delete of the first inline policy. */
  lemma DeleteInlineStep(f: Faults, c: Cloud, name: string, ps: seq<InlinePolicy>)
    requires NoFaults(f)
    requires name in c.remote.roles && c.remote.roles[name].inline == ps && ps != []
    requires ps[0].name !in InlineNames(ps[1..])
    ensures var d := Tolerating(Invoke(c, f, DeleteRolePolicy(name, ps[0].name)), NotFound);
      d.err.None? && d.cloud.remote == c.remote.(roles := c.remote.roles[name := c.remote.roles[name].(inline := ps[1..])])
  {
    DropInlineAbsent(ps[1..], ps[0].name);
    assert DropInline(ps, ps[0].name) == ps[1..];
  }

  /** Deleting every listed inline policy, one by one, leaves the role with none. */
  lemma {:induction false} DeleteInlineAllClears(f: Faults, c: Cloud, name: string, ps: seq<InlinePolicy>)
    requires NoFaults(f)
    requires name in c.remote.roles && c.remote.roles[name].inline == ps && Distinct(InlineNames(ps))
    ensures var r := DeleteInlineAllRun(f, c, name, InlineNames(ps));
      r.err.None? && r.cloud.remote == c.remote.(roles := c.remote.roles[name := c.remote.roles[name].(inline := [])])
    decreases |ps|
  {
    var names := InlineNames(ps);
    var role := c.remote.roles[name];
    if ps != [] {
      assert names == [ps[0].name] + InlineNames(ps[1..]);
      assert names[1..] == InlineNames(ps[1..]);
      DistinctTail(names);
      DeleteInlineStep(f, c, name, ps);
      var d := Tolerating(Invoke(c, f, DeleteRolePolicy(name, ps[0].name)), NotFound);
      assert DeleteInlineAllRun(f, c, name, names) == DeleteInlineAllRun(f, d.cloud, name, names[1..]);
      DeleteInlineAllClears(f, d.cloud, name, ps[1..]);
      assert role.(inline := ps[1..]).(inline := []) == role.(inline := []);
    } else {
      assert role.(inline := []) == role;
      assert c.remote.roles[name := role] == c.remote.roles;
    }
  }

  /** The teardown's assumptions about the backend: policy lists without repeats, and the role only in its own profile. */
  predicate Removable(remote: Remote, name: string)
  {
    && (name in remote.roles ==>
          Distinct(remote.roles[name].attached) && Distinct(InlineNames(remote.roles[name].inline)))
    && (forall p :: p in remote.profiles && p != name ==> name !in remote.profiles[p].roles)
    && (name in remote.profiles ==> remote.profiles[name].roles <= {name})
  }

  /** Fault-free, `cleanAttachedPolicies` on an existing role detaches everything attached. */
  lemma AttachedCleared(f: Faults, c: Cloud, name: string)
    requires NoFaults(f) && name in c.remote.roles && Distinct(c.remote.roles[name].attached)
    ensures var a := CleanAttachedPoliciesRun(f, c, name);
      a.err.None? && a.cloud.remote == c.remote.(roles := c.remote.roles[name := c.remote.roles[name].(attached := [])])
  {
    var l := Invoke(c, f, ListAttachedRolePolicies(name));
    assert l.reply == Names(c.remote.roles[name].attached) && l.cloud.remote == c.remote;
    DetachAllClears(f, l.cloud, name, l.reply.names);
  }

  /** Fault-free, `cleanInlinePolicies` on an existing role deletes every inline policy. */
  lemma InlineCleared(f: Faults, c: Cloud, name: string)
    requires NoFaults(f) && name in c.remote.roles && Distinct(InlineNames(c.remote.roles[name].inline))
    ensures var a := CleanInlinePoliciesRun(f, c, name);
      a.err.None? && a.cloud.remote == c.remote.(roles := c.remote.roles[name := c.remote.roles[name].(inline := [])])
  {
    var l := Invoke(c, f, ListRolePolicies(name));
    assert l.reply == Names(InlineNames(c.remote.roles[name].inline)) && l.cloud.remote == c.remote;
    DeleteInlineAllClears(f, l.cloud, name, c.remote.roles[name].inline);
  }

  lemma CleanPoliciesClear(f: Faults, c: Cloud, name: string)
    requires NoFaults(f) && Removable(c.remote, name)
    ensures var r := CleanRolePoliciesRun(f, c, name);
      && r.err.None?
      && (name !in c.remote.roles ==> r.cloud.remote == c.remote)
      && (name in c.remote.roles ==>
            r.cloud.remote == c.remote.(roles := c.remote.roles[name := c.remote.roles[name].(attached := [], inline := [])]))
  {
    if name in c.remote.roles {
      AttachedCleared(f, c, name);
      var a := CleanAttachedPoliciesRun(f, c, name);
      InlineCleared(f, a.cloud, name);
      var role := c.remote.roles[name];
      assert role.(attached := []).(inline := []) == role.(attached := [], inline := []);
    }
  }

  /** The last three steps, fault-free, on a role left without policies and only in its own profile. */
  lemma RemoveProfileAndRoleRemoves(f: Faults, c: Cloud, name: string)
    requires NoFaults(f)
    requires name in c.remote.roles ==> c.remote.roles[name].attached == [] && c.remote.roles[name].inline == []
    requires forall p :: p in c.remote.profiles && p != name ==> name !in c.remote.profiles[p].roles
    requires name in c.remote.profiles ==> c.remote.profiles[name].roles <= {name}
    ensures var r := RemoveProfileAndRoleRun(f, c, name);
      r.err.None? && r.cloud.remote == c.remote.(roles := c.remote.roles - {name}, profiles := c.remote.profiles - {name})
  {
    var rm := Tolerating(Invoke(c, f, RemoveRoleFromInstanceProfile(name, name)), NotFound);
    assert rm.err.None?;
    assert name in rm.cloud.remote.profiles ==> rm.cloud.remote.profiles[name].roles == {};
    var dp := Tolerating(Invoke(rm.cloud, f, DeleteInstanceProfile(name)), NotFound);
    assert dp.err.None?;
    assert dp.cloud.remote.profiles == c.remote.profiles - {name};
    assert dp.cloud.remote.roles == c.remote.roles;
    assert !InSomeProfile(dp.cloud.remote.profiles, name);
    if name !in c.remote.roles {
      assert c.remote.roles - {name} == c.remote.roles;
    }
  }

  /**
   * Fault-free teardown of a removable role succeeds and removes exactly the
   * role and its same-named instance profile; it also succeeds, removing
   * nothing, when neither exists.
   */
  lemma DeleteRoleRemoves(f: Faults, c: Cloud, name: string)
    requires NoFaults(f) && Removable(c.remote, name)
    ensures var r := DeleteRoleRun(f, c, name);
      r.err.None? && r.cloud.remote == c.remote.(roles := c.remote.roles - {name}, profiles := c.remote.profiles - {name})
  {
    CleanPoliciesClear(f, c, name);
    var pr := CleanRolePoliciesRun(f, c, name);
    RemoveProfileAndRoleRemoves(f, pr.cloud, name);
    if name in c.remote.roles {
      assert pr.cloud.remote.roles - {name} == c.remote.roles - {name};
    }
  }
}
