/**
 * Properties of the role-family loops and the KIAM chain: roles are handled
 * one after the other in the family's order, the trust domains are checked
 * before any call, every inline-policy call uses the service's policy name,
 * and KIAM depends on the main role's ARN and never has its trust refreshed.
 */
module FamilyFacts {
  import opened Wrappers
  import opened Gateway
  import opened IamNames
  import opened RoleEngine
  import opened EngineFacts
  import opened FrameFacts
  import ConvergenceFacts
  import TeardownFacts

  /** Index of the first kind whose role is called `role`, or the number of kinds. */
  function Position(kinds: seq<string>, clusterName: string, role: string): (k: nat)
    ensures k <= |kinds|
    ensures k < |kinds| ==> RoleName(kinds[k], clusterName) == role
  {
    if kinds == [] then 0
    else if RoleName(kinds[0], clusterName) == role then 0
    else 1 + Position(kinds[1..], clusterName, role)
  }

  predicate NamesDistinct(kinds: seq<string>, clusterName: string)
  {
    forall i, j :: 0 <= i < j < |kinds| ==> RoleName(kinds[i], clusterName) != RoleName(kinds[j], clusterName)
  }

  /** Every call is about a role of the family, and the roles come in family order. */
  predicate FamilyOrdered(cs: seq<Call>, kinds: seq<string>, clusterName: string)
  {
    && (forall i :: 0 <= i < |cs| ==> Position(kinds, clusterName, Target(cs[i])) < |kinds|)
    && (forall i, j :: 0 <= i < j < |cs| ==>
          Position(kinds, clusterName, Target(cs[i])) <= Position(kinds, clusterName, Target(cs[j])))
  }

  predicate IsPolicyCall(call: Call)
  {
    call.GetRolePolicy? || call.PutRolePolicy? || call.DeleteRolePolicy?
  }

  /** Every inline-policy call names `policy`. */
  predicate PolicyCallsUse(cs: seq<Call>, policy: string)
  {
    forall i :: 0 <= i < |cs| && IsPolicyCall(cs[i]) ==> cs[i].policy == policy
  }

  /** The calls of the first role, followed by those of the rest of the family in order, are in order. */
  lemma FamilyConcat(a: seq<Call>, b: seq<Call>, kinds: seq<string>, clusterName: string)
    requires kinds != [] && NamesDistinct(kinds, clusterName)
    requires forall i :: 0 <= i < |a| ==> Target(a[i]) == RoleName(kinds[0], clusterName)
    requires FamilyOrdered(b, kinds[1..], clusterName)
    ensures FamilyOrdered(a + b, kinds, clusterName)
  {
    var ab := a + b;
    var first := RoleName(kinds[0], clusterName);
    forall t | Position(kinds[1..], clusterName, t) < |kinds| - 1
      ensures Position(kinds, clusterName, t) == 1 + Position(kinds[1..], clusterName, t)
    {
      var k := Position(kinds[1..], clusterName, t);
      assert kinds[1..][k] == kinds[k + 1];
      assert RoleName(kinds[k + 1], clusterName) != first;
    }
    forall i | 0 <= i < |ab|
      ensures Position(kinds, clusterName, Target(ab[i])) < |kinds|
    {
      if i < |a| { assert ab[i] == a[i]; } else { assert ab[i] == b[i - |a|]; }
    }
    forall i, j | 0 <= i < j < |ab|
      ensures Position(kinds, clusterName, Target(ab[i])) <= Position(kinds, clusterName, Target(ab[j]))
    {
      if i < |a| {
        assert ab[i] == a[i];
        assert Position(kinds, clusterName, Target(ab[i])) == 0;
      } else {
        assert ab[i] == b[i - |a|] && ab[j] == b[j - |a|];
      }
    }
  }

  lemma PolicyConcat(a: seq<Call>, b: seq<Call>, policy: string)
    requires PolicyCallsUse(a, policy) && PolicyCallsUse(b, policy)
    ensures PolicyCallsUse(a + b, policy)
  {
    var ab := a + b;
    forall i | 0 <= i < |ab| && IsPolicyCall(ab[i]) ensures ab[i].policy == policy {
      if i < |a| { assert ab[i] == a[i]; } else { assert ab[i] == b[i - |a|]; }
    }
  }

  /** The calls of one `reconcileRole` are all about its role and use the service's policy name. */
  lemma ReconcileRoleTargets(s: Settings, f: Faults, c: Cloud, name: string, kind: string, p: Params)
    ensures var cs := NewCalls(c, ReconcileRoleRun(s, f, c, name, kind, p).cloud);
      && (forall i :: 0 <= i < |cs| ==> Target(cs[i]) == name)
      && PolicyCallsUse(cs, InlinePolicyName(s))
  {
    var cs := NewCalls(c, ReconcileRoleRun(s, f, c, name, kind, p).cloud);
    ReconcileRoleCalls(s, f, c, name, kind, p);
    forall i | 0 <= i < |cs| ensures Target(cs[i]) == name && (IsPolicyCall(cs[i]) ==> cs[i].policy == InlinePolicyName(s)) {
      assert cs[i] in cs;
    }
  }

  /**
   * The reconciliation loop over a family: the trust domains are checked
   * before the first call; roles are reconciled one after another in the
   * family's order; every inline-policy call, whatever the kind, uses the
   * service's own policy name.
   */
  lemma {:induction false} ReconcileFamilyOrder(s: Settings, f: Faults, c: Cloud, kinds: seq<string>,
                                                accountID: string, domains: seq<string>)
    requires NamesDistinct(kinds, s.clusterName)
    ensures var r := ReconcileFamilyRun(s, f, c, kinds, accountID, domains);
      && FamilyOrdered(NewCalls(c, r.cloud), kinds, s.clusterName)
      && PolicyCallsUse(NewCalls(c, r.cloud), InlinePolicyName(s))
      && (kinds != [] && (|domains| == 0 || "" in domains) ==> r == Run(Some(BadTrustDomains(domains)), c))
    decreases |kinds|
  {
    if kinds != [] {
      var params := Route53RoleParams(s, kinds[0], accountID, domains);
      if params.Ok? {
        var name := RoleName(kinds[0], s.clusterName);
        var one := ReconcileRoleRun(s, f, c, name, kinds[0], params.value);
        ReconcileRoleTargets(s, f, c, name, kinds[0], params.value);
        if one.err.None? {
          var r := ReconcileFamilyRun(s, f, one.cloud, kinds[1..], accountID, domains);
          assert NamesDistinct(kinds[1..], s.clusterName) by {
            forall i, j | 0 <= i < j < |kinds[1..]|
              ensures RoleName(kinds[1..][i], s.clusterName) != RoleName(kinds[1..][j], s.clusterName)
            {
              assert kinds[1..][i] == kinds[i + 1] && kinds[1..][j] == kinds[j + 1];
            }
          }
          ReconcileFamilyOrder(s, f, one.cloud, kinds[1..], accountID, domains);
          NewCallsSplit(c, one.cloud, r.cloud);
          FamilyConcat(NewCalls(c, one.cloud), NewCalls(one.cloud, r.cloud), kinds, s.clusterName);
          PolicyConcat(NewCalls(c, one.cloud), NewCalls(one.cloud, r.cloud), InlinePolicyName(s));
        } else {
          FamilyConcat(NewCalls(c, one.cloud), [], kinds, s.clusterName);
        }
      }
    }
  }

  /** The deletion loop over a family: roles are torn down one after another in the family's order. */
  lemma {:induction false} DeleteFamilyOrder(f: Faults, c: Cloud, clusterName: string, kinds: seq<string>)
    requires NamesDistinct(kinds, clusterName)
    ensures var r := DeleteFamilyRun(f, c, clusterName, kinds);
      FamilyOrdered(NewCalls(c, r.cloud), kinds, clusterName)
    decreases |kinds|
  {
    if kinds != [] {
      var name := RoleName(kinds[0], clusterName);
      var one := DeleteRoleRun(f, c, name);
      TeardownFacts.DeleteRoleOrder(f, c, name);
      if one.err.None? {
        var r := DeleteFamilyRun(f, one.cloud, clusterName, kinds[1..]);
        assert NamesDistinct(kinds[1..], clusterName) by {
          forall i, j | 0 <= i < j < |kinds[1..]|
            ensures RoleName(kinds[1..][i], clusterName) != RoleName(kinds[1..][j], clusterName)
          {
            assert kinds[1..][i] == kinds[i + 1] && kinds[1..][j] == kinds[j + 1];
          }
        }
        DeleteFamilyOrder(f, one.cloud, clusterName, kinds[1..]);
        NewCallsSplit(c, one.cloud, r.cloud);
        FamilyConcat(NewCalls(c, one.cloud), NewCalls(one.cloud, r.cloud), kinds, clusterName);
      } else {
        FamilyConcat(NewCalls(c, one.cloud), [], kinds, clusterName);
      }
    }
  }

  lemma NamesDistinctTail(kinds: seq<string>, clusterName: string)
    requires kinds != [] && NamesDistinct(kinds, clusterName)
    ensures NamesDistinct(kinds[1..], clusterName)
    ensures forall j :: 0 <= j < |kinds[1..]| ==> RoleName(kinds[1..][j], clusterName) != RoleName(kinds[0], clusterName)
  {
    forall i, j | 0 <= i < j < |kinds[1..]|
      ensures RoleName(kinds[1..][i], clusterName) != RoleName(kinds[1..][j], clusterName)
    {
      assert kinds[1..][i] == kinds[i + 1] && kinds[1..][j] == kinds[j + 1];
    }
    forall j | 0 <= j < |kinds[1..]| ensures RoleName(kinds[1..][j], clusterName) != RoleName(kinds[0], clusterName) {
      assert kinds[1..][j] == kinds[j + 1];
    }
  }

  // ------------------------------------------------------- reconciliation loop

  /** One turn of the reconciliation loop: the role's parameters, then `reconcileRole`. */
  function ReconcileStep(s: Settings, f: Faults, c: Cloud, kind: string, accountID: string, domains: seq<string>): Run
  {
    match Route53RoleParams(s, kind, accountID, domains)
    case Err(e) => Run(Some(e), c)
    case Ok(p) => ReconcileRoleRun(s, f, c, RoleName(kind, s.clusterName), kind, p)
  }

  lemma ReconcileStepTargets(s: Settings, f: Faults, c: Cloud, kind: string, accountID: string, domains: seq<string>)
    ensures var one := ReconcileStep(s, f, c, kind, accountID, domains);
      && c.trace <= one.cloud.trace
      && (one.err.None? ==> Route53RoleParams(s, kind, accountID, domains).Ok?)
      && forall i :: 0 <= i < |NewCalls(c, one.cloud)| ==> Target(NewCalls(c, one.cloud)[i]) == RoleName(kind, s.clusterName)
  {
    var params := Route53RoleParams(s, kind, accountID, domains);
    if params.Ok? {
      ReconcileRoleTargets(s, f, c, RoleName(kind, s.clusterName), kind, params.value);
    }
  }

  /** The reconciliation loop is its first turn, followed by the loop over the rest when that turn succeeds. */
  lemma ReconcileFamilyUnfold(s: Settings, f: Faults, c: Cloud, kinds: seq<string>, accountID: string, domains: seq<string>)
    requires kinds != []
    ensures var one := ReconcileStep(s, f, c, kinds[0], accountID, domains);
      ReconcileFamilyRun(s, f, c, kinds, accountID, domains)
      == if one.err.Some? then one else ReconcileFamilyRun(s, f, one.cloud, kinds[1..], accountID, domains)
  {
  }

  /** After a successful first turn, the loop over a prefix of the kinds continues as the loop over the rest. */
  lemma ReconcilePrefixShift(s: Settings, f: Faults, c: Cloud, kinds: seq<string>, accountID: string,
                             domains: seq<string>, m: nat)
    requires 0 < m <= |kinds|
    requires ReconcileStep(s, f, c, kinds[0], accountID, domains).err.None?
    ensures ReconcileFamilyRun(s, f, c, kinds[..m], accountID, domains)
         == ReconcileFamilyRun(s, f, ReconcileStep(s, f, c, kinds[0], accountID, domains).cloud,
                               kinds[1..][..m - 1], accountID, domains)
  {
    assert kinds[..m][0] == kinds[0];
    assert kinds[..m][1..] == kinds[1..][..m - 1];
    ReconcileFamilyUnfold(s, f, c, kinds[..m], accountID, domains);
  }

  /**
   * The `i`-th turn of the reconciliation loop was reached and succeeded:
   * the loop over the kinds before it succeeded, the kind's parameters were
   * built, and its turn, starting where that loop ended, is the loop over the
   * first `i + 1` kinds.
   */
  predicate ReconcileTurnDone(s: Settings, f: Faults, c: Cloud, kinds: seq<string>, accountID: string,
                              domains: seq<string>, i: nat)
  {
    && i < |kinds|
    && var pre := ReconcileFamilyRun(s, f, c, kinds[..i], accountID, domains);
       && pre.err.None?
       && Route53RoleParams(s, kinds[i], accountID, domains).Ok?
       && ReconcileStep(s, f, pre.cloud, kinds[i], accountID, domains).err.None?
       && ReconcileFamilyRun(s, f, c, kinds[..i + 1], accountID, domains)
          == ReconcileStep(s, f, pre.cloud, kinds[i], accountID, domains)
  }

  lemma ReconcileTurnDoneFirst(s: Settings, f: Faults, c: Cloud, kinds: seq<string>, accountID: string, domains: seq<string>)
    requires kinds != [] && ReconcileStep(s, f, c, kinds[0], accountID, domains).err.None?
    ensures ReconcileTurnDone(s, f, c, kinds, accountID, domains, 0)
  {
    assert kinds[..0] == [];
    ReconcileStepTargets(s, f, c, kinds[0], accountID, domains);
    ReconcileFamilyUnfold(s, f, c, kinds[..1], accountID, domains);
    assert kinds[..1][1..] == [];
  }

  lemma ReconcileTurnDoneShift(s: Settings, f: Faults, c: Cloud, kinds: seq<string>, accountID: string,
                               domains: seq<string>, i: nat)
    requires 0 < i < |kinds| && ReconcileStep(s, f, c, kinds[0], accountID, domains).err.None?
    requires ReconcileTurnDone(s, f, ReconcileStep(s, f, c, kinds[0], accountID, domains).cloud, kinds[1..],
                               accountID, domains, i - 1)
    ensures ReconcileTurnDone(s, f, c, kinds, accountID, domains, i)
  {
    assert kinds[i] == kinds[1..][i - 1];
    ReconcilePrefixShift(s, f, c, kinds, accountID, domains, i);
    ReconcilePrefixShift(s, f, c, kinds, accountID, domains, i + 1);
  }

  /** A successful reconciliation loop reached every kind and completed a successful turn for it. */
  lemma {:induction false} ReconcileFamilyCompletes(s: Settings, f: Faults, c: Cloud, kinds: seq<string>,
                                                    accountID: string, domains: seq<string>)
    ensures var r := ReconcileFamilyRun(s, f, c, kinds, accountID, domains);
      r.err.None? ==> forall i :: 0 <= i < |kinds| ==> ReconcileTurnDone(s, f, c, kinds, accountID, domains, i)
    decreases |kinds|
  {
    if kinds != [] {
      var one := ReconcileStep(s, f, c, kinds[0], accountID, domains);
      ReconcileFamilyUnfold(s, f, c, kinds, accountID, domains);
      if one.err.None? {
        ReconcileFamilyCompletes(s, f, one.cloud, kinds[1..], accountID, domains);
        if ReconcileFamilyRun(s, f, c, kinds, accountID, domains).err.None? {
          forall i | 0 <= i < |kinds| ensures ReconcileTurnDone(s, f, c, kinds, accountID, domains, i) {
            if i == 0 {
              ReconcileTurnDoneFirst(s, f, c, kinds, accountID, domains);
            } else {
              ReconcileTurnDoneShift(s, f, c, kinds, accountID, domains, i);
            }
          }
        }
      }
    }
  }

  /**
   * The reconciliation loop stopped at the `k`-th kind: the loop over the
   * kinds before it succeeded, `r` is the failed turn for that kind, and no
   * call was about the role of a later kind.
   */
  predicate ReconcileStoppedAt(s: Settings, f: Faults, c: Cloud, kinds: seq<string>, accountID: string,
                               domains: seq<string>, k: nat, r: Run)
  {
    && k < |kinds|
    && c.trace <= r.cloud.trace
    && var pre := ReconcileFamilyRun(s, f, c, kinds[..k], accountID, domains);
       && pre.err.None?
       && r == ReconcileStep(s, f, pre.cloud, kinds[k], accountID, domains)
       && r.err.Some?
       && forall i, j :: 0 <= i < |NewCalls(c, r.cloud)| && k < j < |kinds| ==>
            Target(NewCalls(c, r.cloud)[i]) != RoleName(kinds[j], s.clusterName)
  }

  lemma ReconcileStoppedFirst(s: Settings, f: Faults, c: Cloud, kinds: seq<string>, accountID: string, domains: seq<string>)
    requires kinds != [] && NamesDistinct(kinds, s.clusterName)
    requires ReconcileStep(s, f, c, kinds[0], accountID, domains).err.Some?
    ensures ReconcileStoppedAt(s, f, c, kinds, accountID, domains, 0, ReconcileStep(s, f, c, kinds[0], accountID, domains))
  {
    var r := ReconcileStep(s, f, c, kinds[0], accountID, domains);
    assert kinds[..0] == [];
    ReconcileStepTargets(s, f, c, kinds[0], accountID, domains);
    forall i, j | 0 <= i < |NewCalls(c, r.cloud)| && 0 < j < |kinds|
      ensures Target(NewCalls(c, r.cloud)[i]) != RoleName(kinds[j], s.clusterName)
    {
    }
  }

  lemma ReconcileStoppedShift(s: Settings, f: Faults, c: Cloud, kinds: seq<string>, accountID: string,
                              domains: seq<string>, k: nat, r: Run)
    requires kinds != [] && NamesDistinct(kinds, s.clusterName)
    requires ReconcileStep(s, f, c, kinds[0], accountID, domains).err.None?
    requires ReconcileStoppedAt(s, f, ReconcileStep(s, f, c, kinds[0], accountID, domains).cloud, kinds[1..],
                                accountID, domains, k, r)
    ensures ReconcileStoppedAt(s, f, c, kinds, accountID, domains, k + 1, r)
  {
    var one := ReconcileStep(s, f, c, kinds[0], accountID, domains);
    var rest := kinds[1..];
    ReconcileStepTargets(s, f, c, kinds[0], accountID, domains);
    ReconcilePrefixShift(s, f, c, kinds, accountID, domains, k + 1);
    assert kinds[k + 1] == rest[k];
    NewCallsSplit(c, one.cloud, r.cloud);
    var cs := NewCalls(c, r.cloud);
    var head := NewCalls(c, one.cloud);
    forall i, j | 0 <= i < |cs| && k + 1 < j < |kinds|
      ensures Target(cs[i]) != RoleName(kinds[j], s.clusterName)
    {
      assert kinds[j] == rest[j - 1];
      if i < |head| {
        assert cs[i] == head[i];
      } else {
        assert cs[i] == NewCalls(one.cloud, r.cloud)[i - |head|];
      }
    }
  }

  /** A failed reconciliation loop stopped at the first kind whose turn failed and called no later role. */
  lemma {:induction false} ReconcileFamilyStops(s: Settings, f: Faults, c: Cloud, kinds: seq<string>,
                                                accountID: string, domains: seq<string>)
    requires NamesDistinct(kinds, s.clusterName)
    ensures var r := ReconcileFamilyRun(s, f, c, kinds, accountID, domains);
      r.err.Some? ==> exists k :: ReconcileStoppedAt(s, f, c, kinds, accountID, domains, k, r)
    decreases |kinds|
  {
    var r := ReconcileFamilyRun(s, f, c, kinds, accountID, domains);
    if kinds != [] {
      var one := ReconcileStep(s, f, c, kinds[0], accountID, domains);
      ReconcileFamilyUnfold(s, f, c, kinds, accountID, domains);
      if one.err.Some? {
        ReconcileStoppedFirst(s, f, c, kinds, accountID, domains);
      } else {
        NamesDistinctTail(kinds, s.clusterName);
        ReconcileFamilyStops(s, f, one.cloud, kinds[1..], accountID, domains);
        if r.err.Some? {
          var k :| ReconcileStoppedAt(s, f, one.cloud, kinds[1..], accountID, domains, k, r);
          ReconcileStoppedShift(s, f, c, kinds, accountID, domains, k, r);
        }
      }
    }
  }

  /** The reconciliation loop leaves alone every name that is not the role of one of its kinds. */
  lemma {:induction false} ReconcileFamilyUntouched(s: Settings, f: Faults, c: Cloud, kinds: seq<string>,
                                                    accountID: string, domains: seq<string>, n: string)
    requires forall j :: 0 <= j < |kinds| ==> RoleName(kinds[j], s.clusterName) != n
    ensures Untouched(c.remote, ReconcileFamilyRun(s, f, c, kinds, accountID, domains).cloud.remote, n)
    decreases |kinds|
  {
    if kinds != [] {
      var params := Route53RoleParams(s, kinds[0], accountID, domains);
      if params.Ok? {
        var one := ReconcileRoleRun(s, f, c, RoleName(kinds[0], s.clusterName), kinds[0], params.value);
        ReconcileRoleUntouched(s, f, c, RoleName(kinds[0], s.clusterName), kinds[0], params.value, n);
        forall j | 0 <= j < |kinds[1..]| ensures RoleName(kinds[1..][j], s.clusterName) != n {
          assert kinds[1..][j] == kinds[j + 1];
        }
        ReconcileFamilyUntouched(s, f, one.cloud, kinds[1..], accountID, domains, n);
      }
    }
  }

  /**
   * Without faults, a successful reconciliation loop leaves the role of
   * every kind that is not release-gated converged: a later turn never
   * undoes an earlier one.
   */
  lemma {:induction false} ReconcileFamilyConverges(s: Settings, f: Faults, c: Cloud, kinds: seq<string>,
                                                    accountID: string, domains: seq<string>)
    requires NoFaults(f) && NamesDistinct(kinds, s.clusterName)
    ensures var r := ReconcileFamilyRun(s, f, c, kinds, accountID, domains);
      r.err.None? ==> forall i :: 0 <= i < |kinds| && !IsReleaseGated(kinds[i]) ==>
        && Route53RoleParams(s, kinds[i], accountID, domains).Ok?
        && ConvergenceFacts.Converged(s, r.cloud.remote, RoleName(kinds[i], s.clusterName), kinds[i],
                                      Route53RoleParams(s, kinds[i], accountID, domains).value)
    decreases |kinds|
  {
    var r := ReconcileFamilyRun(s, f, c, kinds, accountID, domains);
    if kinds != [] && r.err.None? {
      var params := Route53RoleParams(s, kinds[0], accountID, domains);
      var name := RoleName(kinds[0], s.clusterName);
      var one := ReconcileRoleRun(s, f, c, name, kinds[0], params.value);
      var rest := kinds[1..];
      NamesDistinctTail(kinds, s.clusterName);
      ReconcileFamilyConverges(s, f, one.cloud, rest, accountID, domains);
      ReconcileFamilyUntouched(s, f, one.cloud, rest, accountID, domains, name);
      if !IsReleaseGated(kinds[0]) {
        ConvergenceFacts.ConvergeEstablishes(s, f, c, name, kinds[0], params.value);
      }
      forall i | 0 <= i < |kinds| && !IsReleaseGated(kinds[i])
        ensures Route53RoleParams(s, kinds[i], accountID, domains).Ok?
        ensures ConvergenceFacts.Converged(s, r.cloud.remote, RoleName(kinds[i], s.clusterName), kinds[i],
                                           Route53RoleParams(s, kinds[i], accountID, domains).value)
      {
        if i > 0 {
          assert kinds[i] == rest[i - 1];
        }
      }
    }
  }

  // ------------------------------------------------------------ deletion loop

  /** The deletion loop is its first teardown, followed by the loop over the rest when that teardown succeeds. */
  lemma DeleteFamilyUnfold(f: Faults, c: Cloud, clusterName: string, kinds: seq<string>)
    requires kinds != []
    ensures var one := DeleteRoleRun(f, c, RoleName(kinds[0], clusterName));
      DeleteFamilyRun(f, c, clusterName, kinds)
      == if one.err.Some? then one else DeleteFamilyRun(f, one.cloud, clusterName, kinds[1..])
  {
  }

  lemma DeletePrefixShift(f: Faults, c: Cloud, clusterName: string, kinds: seq<string>, m: nat)
    requires 0 < m <= |kinds|
    requires DeleteRoleRun(f, c, RoleName(kinds[0], clusterName)).err.None?
    ensures DeleteFamilyRun(f, c, clusterName, kinds[..m])
         == DeleteFamilyRun(f, DeleteRoleRun(f, c, RoleName(kinds[0], clusterName)).cloud, clusterName, kinds[1..][..m - 1])
  {
    assert kinds[..m][0] == kinds[0];
    assert kinds[..m][1..] == kinds[1..][..m - 1];
    DeleteFamilyUnfold(f, c, clusterName, kinds[..m]);
  }

  /**
   * The `i`-th teardown of the deletion loop was reached and succeeded: the
   * loop over the kinds before it succeeded, and the teardown of its role,
   * starting where that loop ended, is the loop over the first `i + 1` kinds.
   */
  predicate DeleteTurnDone(f: Faults, c: Cloud, clusterName: string, kinds: seq<string>, i: nat)
  {
    && i < |kinds|
    && var pre := DeleteFamilyRun(f, c, clusterName, kinds[..i]);
       && pre.err.None?
       && DeleteRoleRun(f, pre.cloud, RoleName(kinds[i], clusterName)).err.None?
       && DeleteFamilyRun(f, c, clusterName, kinds[..i + 1]) == DeleteRoleRun(f, pre.cloud, RoleName(kinds[i], clusterName))
  }

  lemma DeleteTurnDoneFirst(f: Faults, c: Cloud, clusterName: string, kinds: seq<string>)
    requires kinds != [] && DeleteRoleRun(f, c, RoleName(kinds[0], clusterName)).err.None?
    ensures DeleteTurnDone(f, c, clusterName, kinds, 0)
  {
    assert kinds[..0] == [];
    DeleteFamilyUnfold(f, c, clusterName, kinds[..1]);
    assert kinds[..1][1..] == [];
  }

  lemma DeleteTurnDoneShift(f: Faults, c: Cloud, clusterName: string, kinds: seq<string>, i: nat)
    requires 0 < i < |kinds| && DeleteRoleRun(f, c, RoleName(kinds[0], clusterName)).err.None?
    requires DeleteTurnDone(f, DeleteRoleRun(f, c, RoleName(kinds[0], clusterName)).cloud, clusterName, kinds[1..], i - 1)
    ensures DeleteTurnDone(f, c, clusterName, kinds, i)
  {
    assert kinds[i] == kinds[1..][i - 1];
    DeletePrefixShift(f, c, clusterName, kinds, i);
    DeletePrefixShift(f, c, clusterName, kinds, i + 1);
  }

  /** A successful deletion loop reached every kind and completed a successful teardown of its role. */
  lemma {:induction false} DeleteFamilyCompletes(f: Faults, c: Cloud, clusterName: string, kinds: seq<string>)
    ensures var r := DeleteFamilyRun(f, c, clusterName, kinds);
      r.err.None? ==> forall i :: 0 <= i < |kinds| ==> DeleteTurnDone(f, c, clusterName, kinds, i)
    decreases |kinds|
  {
    if kinds != [] {
      var one := DeleteRoleRun(f, c, RoleName(kinds[0], clusterName));
      DeleteFamilyUnfold(f, c, clusterName, kinds);
      if one.err.None? {
        DeleteFamilyCompletes(f, one.cloud, clusterName, kinds[1..]);
        if DeleteFamilyRun(f, c, clusterName, kinds).err.None? {
          forall i | 0 <= i < |kinds| ensures DeleteTurnDone(f, c, clusterName, kinds, i) {
            if i == 0 {
              DeleteTurnDoneFirst(f, c, clusterName, kinds);
            } else {
              DeleteTurnDoneShift(f, c, clusterName, kinds, i);
            }
          }
        }
      }
    }
  }

  /**
   * The deletion loop stopped at the `k`-th kind: the loop over the kinds
   * before it succeeded, `r` is the failed teardown of that kind's role, and
   * no call was about the role of a later kind.
   */
  predicate DeleteStoppedAt(f: Faults, c: Cloud, clusterName: string, kinds: seq<string>, k: nat, r: Run)
  {
    && k < |kinds|
    && c.trace <= r.cloud.trace
    && var pre := DeleteFamilyRun(f, c, clusterName, kinds[..k]);
       && pre.err.None?
       && r == DeleteRoleRun(f, pre.cloud, RoleName(kinds[k], clusterName))
       && r.err.Some?
       && forall i, j :: 0 <= i < |NewCalls(c, r.cloud)| && k < j < |kinds| ==>
            Target(NewCalls(c, r.cloud)[i]) != RoleName(kinds[j], clusterName)
  }

  lemma DeleteStoppedFirst(f: Faults, c: Cloud, clusterName: string, kinds: seq<string>)
    requires kinds != [] && NamesDistinct(kinds, clusterName)
    requires DeleteRoleRun(f, c, RoleName(kinds[0], clusterName)).err.Some?
    ensures DeleteStoppedAt(f, c, clusterName, kinds, 0, DeleteRoleRun(f, c, RoleName(kinds[0], clusterName)))
  {
    var r := DeleteRoleRun(f, c, RoleName(kinds[0], clusterName));
    assert kinds[..0] == [];
    TeardownFacts.DeleteRoleOrder(f, c, RoleName(kinds[0], clusterName));
    forall i, j | 0 <= i < |NewCalls(c, r.cloud)| && 0 < j < |kinds|
      ensures Target(NewCalls(c, r.cloud)[i]) != RoleName(kinds[j], clusterName)
    {
    }
  }

  lemma DeleteStoppedShift(f: Faults, c: Cloud, clusterName: string, kinds: seq<string>, k: nat, r: Run)
    requires kinds != [] && NamesDistinct(kinds, clusterName)
    requires DeleteRoleRun(f, c, RoleName(kinds[0], clusterName)).err.None?
    requires DeleteStoppedAt(f, DeleteRoleRun(f, c, RoleName(kinds[0], clusterName)).cloud, clusterName, kinds[1..], k, r)
    ensures DeleteStoppedAt(f, c, clusterName, kinds, k + 1, r)
  {
    var one := DeleteRoleRun(f, c, RoleName(kinds[0], clusterName));
    var rest := kinds[1..];
    TeardownFacts.DeleteRoleOrder(f, c, RoleName(kinds[0], clusterName));
    DeletePrefixShift(f, c, clusterName, kinds, k + 1);
    assert kinds[k + 1] == rest[k];
    NewCallsSplit(c, one.cloud, r.cloud);
    var cs := NewCalls(c, r.cloud);
    var head := NewCalls(c, one.cloud);
    forall i, j | 0 <= i < |cs| && k + 1 < j < |kinds|
      ensures Target(cs[i]) != RoleName(kinds[j], clusterName)
    {
      assert kinds[j] == rest[j - 1];
      if i < |head| {
        assert cs[i] == head[i];
      } else {
        assert cs[i] == NewCalls(one.cloud, r.cloud)[i - |head|];
      }
    }
  }

  /** A failed deletion loop stopped at the first role whose teardown failed and called no later role. */
  lemma {:induction false} DeleteFamilyStops(f: Faults, c: Cloud, clusterName: string, kinds: seq<string>)
    requires NamesDistinct(kinds, clusterName)
    ensures var r := DeleteFamilyRun(f, c, clusterName, kinds);
      r.err.Some? ==> exists k :: DeleteStoppedAt(f, c, clusterName, kinds, k, r)
    decreases |kinds|
  {
    var r := DeleteFamilyRun(f, c, clusterName, kinds);
    if kinds != [] {
      var one := DeleteRoleRun(f, c, RoleName(kinds[0], clusterName));
      DeleteFamilyUnfold(f, c, clusterName, kinds);
      if one.err.Some? {
        DeleteStoppedFirst(f, c, clusterName, kinds);
      } else {
        NamesDistinctTail(kinds, clusterName);
        DeleteFamilyStops(f, one.cloud, clusterName, kinds[1..]);
        if r.err.Some? {
          var k :| DeleteStoppedAt(f, one.cloud, clusterName, kinds[1..], k, r);
          DeleteStoppedShift(f, c, clusterName, kinds, k, r);
        }
      }
    }
  }

  /** The deletion loop leaves alone every name that is not the role of one of its kinds. */
  lemma {:induction false} DeleteFamilyUntouched(f: Faults, c: Cloud, clusterName: string, kinds: seq<string>, n: string)
    requires forall j :: 0 <= j < |kinds| ==> RoleName(kinds[j], clusterName) != n
    ensures Untouched(c.remote, DeleteFamilyRun(f, c, clusterName, kinds).cloud.remote, n)
    decreases |kinds|
  {
    if kinds != [] {
      var one := DeleteRoleRun(f, c, RoleName(kinds[0], clusterName));
      DeleteRoleUntouched(f, c, RoleName(kinds[0], clusterName), n);
      forall j | 0 <= j < |kinds[1..]| ensures RoleName(kinds[1..][j], clusterName) != n {
        assert kinds[1..][j] == kinds[j + 1];
      }
      DeleteFamilyUntouched(f, one.cloud, clusterName, kinds[1..], n);
    }
  }

  /**
   * Without faults, a successful deletion loop leaves neither the role of
   * any kind nor its instance profile: a later teardown never brings an
   * earlier one back.
   */
  lemma {:induction false} DeleteFamilyRemoves(f: Faults, c: Cloud, clusterName: string, kinds: seq<string>)
    requires NoFaults(f) && NamesDistinct(kinds, clusterName)
    ensures var r := DeleteFamilyRun(f, c, clusterName, kinds);
      r.err.None? ==> forall i :: 0 <= i < |kinds| ==>
        RoleName(kinds[i], clusterName) !in r.cloud.remote.roles
        && RoleName(kinds[i], clusterName) !in r.cloud.remote.profiles
    decreases |kinds|
  {
    var r := DeleteFamilyRun(f, c, clusterName, kinds);
    if kinds != [] && r.err.None? {
      var name := RoleName(kinds[0], clusterName);
      var one := DeleteRoleRun(f, c, name);
      var rest := kinds[1..];
      NamesDistinctTail(kinds, clusterName);
      DeleteFamilyRemoves(f, one.cloud, clusterName, rest);
      DeleteFamilyUntouched(f, one.cloud, clusterName, rest, name);
      DeleteRoleSuccessRemoves(f, c, name);
      forall i | 0 <= i < |kinds|
        ensures RoleName(kinds[i], clusterName) !in r.cloud.remote.roles
        ensures RoleName(kinds[i], clusterName) !in r.cloud.remote.profiles
      {
        if i > 0 {
          assert kinds[i] == rest[i - 1];
        }
      }
    }
  }

  /**
   * `ReconcileRolesForIRSA` and `DeleteRolesForIRSA` visit the six IRSA roles
   * in their fixed order and stop at the first role that fails. On success
   * every role had its turn; without faults every role is then converged, or
   * removed together with its instance profile.
   */
  lemma IRSAFamilyOrder(s: Settings, f: Faults, c: Cloud, accountID: string, domains: seq<string>)
    ensures var r := ReconcileFamilyRun(s, f, c, GetIRSARoles(), accountID, domains);
      && FamilyOrdered(NewCalls(c, r.cloud), GetIRSARoles(), s.clusterName)
      && PolicyCallsUse(NewCalls(c, r.cloud), PolicyName(s.roleType, s.clusterName))
      && (r.err.Some? ==> exists k :: ReconcileStoppedAt(s, f, c, GetIRSARoles(), accountID, domains, k, r))
      && (r.err.None? ==> forall i :: 0 <= i < |GetIRSARoles()| ==>
            ReconcileTurnDone(s, f, c, GetIRSARoles(), accountID, domains, i))
      && (NoFaults(f) && r.err.None? ==> forall i :: 0 <= i < |GetIRSARoles()| ==>
            && Route53RoleParams(s, GetIRSARoles()[i], accountID, domains).Ok?
            && ConvergenceFacts.Converged(s, r.cloud.remote, RoleName(GetIRSARoles()[i], s.clusterName), GetIRSARoles()[i],
                                          Route53RoleParams(s, GetIRSARoles()[i], accountID, domains).value))
    ensures var d := DeleteFamilyRun(f, c, s.clusterName, GetIRSARoles());
      && FamilyOrdered(NewCalls(c, d.cloud), GetIRSARoles(), s.clusterName)
      && (d.err.Some? ==> exists k :: DeleteStoppedAt(f, c, s.clusterName, GetIRSARoles(), k, d))
      && (d.err.None? ==> forall i :: 0 <= i < |GetIRSARoles()| ==> DeleteTurnDone(f, c, s.clusterName, GetIRSARoles(), i))
      && (NoFaults(f) && d.err.None? ==> forall i :: 0 <= i < |GetIRSARoles()| ==>
            && RoleName(GetIRSARoles()[i], s.clusterName) !in d.cloud.remote.roles
            && RoleName(GetIRSARoles()[i], s.clusterName) !in d.cloud.remote.profiles)
  {
    var kinds := GetIRSARoles();
    IRSARoleNamesDistinct(s.clusterName);
    IRSAFamilyKinds();
    ReconcileFamilyOrder(s, f, c, kinds, accountID, domains);
    ReconcileFamilyStops(s, f, c, kinds, accountID, domains);
    ReconcileFamilyCompletes(s, f, c, kinds, accountID, domains);
    if NoFaults(f) {
      ReconcileFamilyConverges(s, f, c, kinds, accountID, domains);
      forall i | 0 <= i < |kinds| ensures !IsReleaseGated(kinds[i]) {
        assert kinds[i] in kinds;
      }
      DeleteFamilyRemoves(f, c, s.clusterName, kinds);
    }
    DeleteFamilyOrder(f, c, s.clusterName, kinds);
    DeleteFamilyStops(f, c, s.clusterName, kinds);
    DeleteFamilyCompletes(f, c, s.clusterName, kinds);
  }

  /**
   * `ReconcileKiamRole`: any error reading the main role (NotFound included)
   * is returned after that one call; otherwise the KIAM role is reconciled
   * with the main role's ARN as read, and its trust policy is never
   * rewritten.
   */
  lemma KiamChain(s: Settings, f: Faults, c: Cloud)
    ensures var r := ReconcileKiamRoleRun(s, f, c);
      var g := Invoke(c, f, GetRole(s.mainRoleName));
      && (g.reply.Failed? ==> r == Run(Some(Api(g.reply.error)), g.cloud) && NewCalls(c, r.cloud) == [GetRole(s.mainRoleName)])
      && (!g.reply.Failed? ==>
            r == ReconcileRoleRun(s, f, g.cloud, RoleName(KIAMRole, s.clusterName), KIAMRole,
                   KiamParams(s.render.awsPartition(s.region), g.reply.role.arn, Template.Ec2ServiceDomain(s.region))))
      && (f(|c.trace|).None? && s.mainRoleName in c.remote.roles ==>
            !g.reply.Failed? && g.reply.role.arn == c.remote.roles[s.mainRoleName].arn)
      && (forall call :: call in NewCalls(c, r.cloud) ==> !call.UpdateAssumeRolePolicy?)
  {
    var g := Invoke(c, f, GetRole(s.mainRoleName));
    var r := ReconcileKiamRoleRun(s, f, c);
    if !g.reply.Failed? {
      var p := KiamParams(s.render.awsPartition(s.region), g.reply.role.arn, Template.Ec2ServiceDomain(s.region));
      var name := RoleName(KIAMRole, s.clusterName);
      assert r == ReconcileRoleRun(s, f, g.cloud, name, KIAMRole, p);
      NoTrustWrites(s, f, g.cloud, name, KIAMRole, p);
      NewCallsSplit(c, g.cloud, r.cloud);
      assert NewCalls(c, g.cloud) == [GetRole(s.mainRoleName)];
    }
  }

  /** A kind that does not refresh its trust policy never gets an UpdateAssumeRolePolicy call. */
  lemma NoTrustWrites(s: Settings, f: Faults, c: Cloud, name: string, kind: string, p: Params)
    requires !RefreshesTrust(kind)
    ensures var r := ReconcileRoleRun(s, f, c, name, kind, p);
      forall call :: call in NewCalls(c, r.cloud) ==> !call.UpdateAssumeRolePolicy?
  {
    ReconcileRoleCalls(s, f, c, name, kind, p);
  }
}
