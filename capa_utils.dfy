/**
 * Two controller helpers: whether an instance profile is still referenced by
 * a live machine template or machine pool, and the bounded retry that
 * removes this operator's finalizer from a Kubernetes object. The cluster
 * API server is represented by the results its calls return.
 */
module CapaUtils {
  import opened Wrappers
  import Key

  // ---------------------------------------------------------------- isRoleUsedElsewhere

  datatype MachineTemplate = MachineTemplate(deleting: bool, iamInstanceProfile: string)

  datatype MachinePool = MachinePool(deleting: bool, iamInstanceProfile: string)

  /** The result of listing one kind of object. */
  datatype Listing<T> = Listed(items: seq<T>) | ListFailed(message: string)

  /** A template still being used with the profile: not being deleted, and naming it. */
  predicate TemplateUses(t: MachineTemplate, role: string)
  {
    !t.deleting && t.iamInstanceProfile == role
  }

  predicate PoolUses(p: MachinePool, role: string)
  {
    !p.deleting && p.iamInstanceProfile == role
  }

  /**
   * `isRoleUsedElsewhere`: templates are searched first, and pools are only
   * listed when no template uses the profile. A failed listing is an error
   * and never counts as a use; objects being deleted never count.
   */
  method IsRoleUsedElsewhere(templates: Listing<MachineTemplate>, pools: Listing<MachinePool>, role: string)
    returns (used: bool, err: Option<string>, poolsListed: bool)
    ensures templates.ListFailed? ==> !used && err == Some(templates.message) && !poolsListed
    ensures templates.Listed? && (exists i :: 0 <= i < |templates.items| && TemplateUses(templates.items[i], role)) ==>
      used && err.None? && !poolsListed
    ensures templates.Listed? && !(exists i :: 0 <= i < |templates.items| && TemplateUses(templates.items[i], role)) ==>
      && poolsListed
      && (pools.ListFailed? ==> !used && err == Some(pools.message))
      && (pools.Listed? ==>
            err.None? && (used <==> exists i :: 0 <= i < |pools.items| && PoolUses(pools.items[i], role)))
  {
    poolsListed := false;
    if templates.ListFailed? {
      return false, Some(templates.message), poolsListed;
    }
    var ts := templates.items;
    var i := 0;
    while i < |ts|
      invariant 0 <= i <= |ts|
      invariant forall k :: 0 <= k < i ==> !TemplateUses(ts[k], role)
    {
      if !ts[i].deleting && ts[i].iamInstanceProfile == role {
        return true, None, poolsListed;
      }
      i := i + 1;
    }
    poolsListed := true;
    if pools.ListFailed? {
      return false, Some(pools.message), poolsListed;
    }
    var ps := pools.items;
    var j := 0;
    while j < |ps|
      invariant 0 <= j <= |ps|
      invariant forall k :: 0 <= k < j ==> !PoolUses(ps[k], role)
    {
      if !ps[j].deleting && ps[j].iamInstanceProfile == role {
        return true, None, poolsListed;
      }
      j := j + 1;
    }
    return false, None, poolsListed;
  }

  // ---------------------------------------------------------------- removeFinalizer

  const MaxPatchAttempts := 5

  /** What attempt number n of the patch step yields. */
  datatype PatchResult =
    | HelperFailed(message: string)     // the patch helper could not be built
    | Patched
    | PatchInvalid(message: string)     // the error includes an Invalid (422) response
    | PatchFailed(message: string)      // any other error

  /** What the re-fetch after a failed attempt yields. */
  datatype FetchResult = Fetched(finalizers: seq<string>) | FetchFailed(message: string)

  datatype FinalizerError = HelperError(message: string) | PatchError(message: string) | FetchError(message: string)

  /** Patch outcome per attempt number (1 to 5), re-fetch outcome per attempt number (1 to 4). */
  type Patches = nat -> PatchResult
  type Fetches = nat -> FetchResult

  /** The finalizer list with every occurrence of `name` removed, the others kept in order. */
  function Without(fins: seq<string>, name: string): (r: seq<string>)
    ensures name !in r && |r| <= |fins|
    ensures forall x :: x != name ==> (x in r <==> x in fins)
    ensures name !in fins ==> r == fins
  {
    if fins == [] then []
    else if fins[0] == name then Without(fins[1..], name)
    else [fins[0]] + Without(fins[1..], name)
  }

  /** How a removal ends: the error, the object's finalizers, and how many patches and re-fetches were made. */
  datatype Removal = Removal(err: Option<FinalizerError>, finalizers: seq<string>, patches: nat, fetches: nat)

  /** The retry loop from attempt `i` on, with the object holding `fins`. */
  function RemovalFrom(fins: seq<string>, name: string, patch: Patches, refetch: Fetches, i: nat): (r: Removal)
    requires 1 <= i <= MaxPatchAttempts
    ensures i - 1 <= r.patches <= MaxPatchAttempts && r.fetches <= MaxPatchAttempts - 1
    ensures r.fetches <= r.patches && r.patches <= r.fetches + 1
    decreases MaxPatchAttempts - i
  {
    match patch(i)
    case HelperFailed(m) => Removal(Some(HelperError(m)), fins, i - 1, i - 1)
    case Patched => Removal(None, Without(fins, name), i, i - 1)
    case PatchFailed(m) => Removal(Some(PatchError(m)), Without(fins, name), i, i - 1)
    case PatchInvalid(m) =>
      if i < MaxPatchAttempts then
        match refetch(i)
        case FetchFailed(m2) => Removal(Some(FetchError(m2)), Without(fins, name), i, i)
        case Fetched(newFins) => RemovalFrom(newFins, name, patch, refetch, i + 1)
      else Removal(Some(PatchError(m)), Without(fins, name), i, i - 1)
  }

  /** `removeFinalizer`, as a function of the object's finalizers and the two result oracles. */
  function FinalizerRemoval(fins: seq<string>, role: string, patch: Patches, refetch: Fetches): Removal
  {
    var name := Key.FinalizerName(role);
    if name !in fins then Removal(None, fins, 0, 0) else RemovalFrom(fins, name, patch, refetch, 1)
  }

  /** The object a finalizer is removed from; only its finalizer list matters here. */
  class KubeObject {
    var finalizers: seq<string>

    constructor (finalizers: seq<string>)
      ensures this.finalizers == finalizers
    {
      this.finalizers := finalizers;
    }
  }

  /**
   * `removeFinalizer`: at most five patch attempts; an Invalid error before
   * the last attempt re-fetches the object and tries again. The loop never
   * runs out of attempts without returning, so the "after retries" error
   * cannot occur.
   */
  method RemoveFinalizer(obj: KubeObject, role: string, patch: Patches, refetch: Fetches) returns (err: Option<FinalizerError>)
    modifies obj
    ensures var r := FinalizerRemoval(old(obj.finalizers), role, patch, refetch);
      err == r.err && obj.finalizers == r.finalizers
  {
    var name := Key.FinalizerName(role);
    if name !in obj.finalizers {
      return None;
    }
    ghost var spec := FinalizerRemoval(obj.finalizers, role, patch, refetch);
    var i := 1;
    while i <= MaxPatchAttempts
      invariant 1 <= i <= MaxPatchAttempts
      invariant spec == RemovalFrom(obj.finalizers, name, patch, refetch, i)
      decreases MaxPatchAttempts - i
    {
      var outcome := patch(i);
      if outcome.HelperFailed? {
        return Some(HelperError(outcome.message));
      }
      obj.finalizers := Without(obj.finalizers, name);
      if outcome.PatchInvalid? && i < MaxPatchAttempts {
        var fetched := refetch(i);
        if fetched.FetchFailed? {
          return Some(FetchError(fetched.message));
        }
        obj.finalizers := fetched.finalizers;
        i := i + 1;
        continue;
      }
      if !outcome.Patched? {
        return Some(PatchError(outcome.message));
      }
      return None;
    }
    assert false;
  }

  /** The loop bound: at most five patches and four re-fetches, whatever the results. */
  lemma AttemptBounds(fins: seq<string>, role: string, patch: Patches, refetch: Fetches)
    ensures var r := FinalizerRemoval(fins, role, patch, refetch);
      r.patches <= MaxPatchAttempts && r.fetches <= MaxPatchAttempts - 1
  {
  }

  /** Without the finalizer there is nothing to do: no patch, no change. */
  lemma AbsentFinalizerIsNoOp(fins: seq<string>, role: string, patch: Patches, refetch: Fetches)
    requires Key.FinalizerName(role) !in fins
    ensures FinalizerRemoval(fins, role, patch, refetch) == Removal(None, fins, 0, 0)
  {
  }

  /**
   * Invalid on every attempt: five patches, four re-fetches, and the fifth
   * attempt's own error is returned.
   */
  lemma {:induction false} AllInvalidReturnsLastError(fins: seq<string>, name: string, patch: Patches, refetch: Fetches, i: nat)
    requires 1 <= i <= MaxPatchAttempts
    requires forall n :: 1 <= n <= MaxPatchAttempts ==> patch(n).PatchInvalid?
    requires forall n :: 1 <= n < MaxPatchAttempts ==> refetch(n).Fetched?
    ensures var r := RemovalFrom(fins, name, patch, refetch, i);
      r.err == Some(PatchError(patch(MaxPatchAttempts).message))
      && r.patches == MaxPatchAttempts && r.fetches == MaxPatchAttempts - 1
    decreases MaxPatchAttempts - i
  {
    if i < MaxPatchAttempts {
      AllInvalidReturnsLastError(refetch(i).finalizers, name, patch, refetch, i + 1);
    }
  }

  /**
   * A successful removal leaves the object without the finalizer; the other
   * finalizers are those of the object as last read, in order — the
   * original ones when the first patch succeeds.
   */
  lemma {:induction false} SuccessRemovesOnlyTheFinalizer(fins: seq<string>, name: string, patch: Patches, refetch: Fetches, i: nat)
    requires 1 <= i <= MaxPatchAttempts
    ensures var r := RemovalFrom(fins, name, patch, refetch, i);
      && (r.err.None? ==> name !in r.finalizers)
      && (patch(i).Patched? ==> r.err.None? && r.finalizers == Without(fins, name))
      && (r.err.None? ==> exists last :: r.finalizers == Without(last, name))
    decreases MaxPatchAttempts - i
  {
    var r := RemovalFrom(fins, name, patch, refetch, i);
    if patch(i).PatchInvalid? && i < MaxPatchAttempts && refetch(i).Fetched? {
      SuccessRemovesOnlyTheFinalizer(refetch(i).finalizers, name, patch, refetch, i + 1);
    } else if r.err.None? {
      assert r.finalizers == Without(fins, name);
    }
  }

  /** A helper failure, a non-Invalid patch error or a failed re-fetch ends the loop at once. */
  lemma ErrorsEndTheLoop(fins: seq<string>, name: string, patch: Patches, refetch: Fetches, i: nat)
    requires 1 <= i <= MaxPatchAttempts
    ensures var r := RemovalFrom(fins, name, patch, refetch, i);
      && (patch(i).HelperFailed? ==> r.err == Some(HelperError(patch(i).message)) && r.patches == i - 1)
      && (patch(i).PatchFailed? ==> r.err == Some(PatchError(patch(i).message)) && r.patches == i)
      && (patch(i).PatchInvalid? && i < MaxPatchAttempts && refetch(i).FetchFailed? ==>
            r.err == Some(FetchError(refetch(i).message)) && r.fetches == i)
  {
  }
}
