/**
 * The remote IAM backend the engine drives, as seen through the calls it
 * issues. The backend keeps roles (trust document, tags, inline policies,
 * attached managed-policy ARNs) and instance profiles (the roles they hold).
 * Every call is appended to a trace; the n-th call either fails with the
 * error a fault oracle assigns to position n (throttling, permission
 * errors, eventual consistency: any outcome at all) or takes effect with
 * the backend's usual semantics: NoSuchEntity is `NotFound`,
 * EntityAlreadyExists is `AlreadyExists`, everything else is `Other`.
 */
module Gateway {
  import opened Wrappers
  import opened PolicyCompare

  datatype ApiError = NotFound | AlreadyExists | Other(code: string)

  datatype Tag = Tag(key: string, value: string)

  datatype InlinePolicy = InlinePolicy(name: string, document: Doc)

  datatype Role = Role(arn: string, trust: Doc, tags: seq<Tag>, inline: seq<InlinePolicy>, attached: seq<string>)

  datatype Profile = Profile(tags: seq<Tag>, roles: set<string>)

  datatype Remote = Remote(roles: map<string, Role>, profiles: map<string, Profile>, arnPrefix: string)

  datatype Call =
    | GetRole(role: string)
    | CreateRole(role: string, trust: Doc, tags: seq<Tag>)
    | CreateInstanceProfile(profile: string, tags: seq<Tag>)
    | AddRoleToInstanceProfile(profile: string, role: string)
    | UpdateAssumeRolePolicy(role: string, trust: Doc)
    | GetRolePolicy(role: string, policy: string)
    | PutRolePolicy(role: string, policy: string, document: Doc)
    | DeleteRolePolicy(role: string, policy: string)
    | ListAttachedRolePolicies(role: string)
    | DetachRolePolicy(role: string, arn: string)
    | ListRolePolicies(role: string)
    | RemoveRoleFromInstanceProfile(profile: string, role: string)
    | DeleteInstanceProfile(profile: string)
    | DeleteRole(role: string)

  /** Calls that may change the backend. */
  predicate IsMutating(call: Call)
  {
    !(call.GetRole? || call.GetRolePolicy? || call.ListAttachedRolePolicies? || call.ListRolePolicies?)
  }

  /** The role or instance profile a call is about. */
  function Target(call: Call): string
  {
    match call
    case CreateInstanceProfile(p, _) => p
    case AddRoleToInstanceProfile(p, _) => p
    case RemoveRoleFromInstanceProfile(p, _) => p
    case DeleteInstanceProfile(p) => p
    case _ => call.role
  }

  datatype Reply =
    | RoleInfo(role: Role)
    | PolicyDocument(document: Doc)
    | Names(names: seq<string>)
    | Done
    | Failed(error: ApiError)

  /** The shape of a successful reply to each call. */
  predicate Fits(call: Call, reply: Reply)
  {
    match call
    case GetRole(_) => reply.RoleInfo?
    case GetRolePolicy(_, _) => reply.PolicyDocument?
    case ListAttachedRolePolicies(_) => reply.Names?
    case ListRolePolicies(_) => reply.Names?
    case _ => reply.Done?
  }

  function InlineNames(ps: seq<InlinePolicy>): (names: seq<string>)
    ensures |names| == |ps|
    ensures forall i :: 0 <= i < |ps| ==> names[i] == ps[i].name
  {
    if ps == [] then [] else [ps[0].name] + InlineNames(ps[1..])
  }

  function FindInline(ps: seq<InlinePolicy>, name: string): (r: Option<Doc>)
    ensures r.Some? <==> name in InlineNames(ps)
  {
    if ps == [] then None
    else if ps[0].name == name then Some(ps[0].document)
    else FindInline(ps[1..], name)
  }

  /** PutRolePolicy: replace the document of that name, or add the policy. */
  function PutInline(ps: seq<InlinePolicy>, name: string, doc: Doc): (r: seq<InlinePolicy>)
    ensures FindInline(r, name) == Some(doc)
    ensures forall n :: n != name ==> FindInline(r, n) == FindInline(ps, n)
  {
    if ps == [] then [InlinePolicy(name, doc)]
    else if ps[0].name == name then [InlinePolicy(name, doc)] + ps[1..]
    else [ps[0]] + PutInline(ps[1..], name, doc)
  }

  function DropInline(ps: seq<InlinePolicy>, name: string): (r: seq<InlinePolicy>)
    ensures FindInline(r, name) == None
    ensures forall n :: n != name ==> FindInline(r, n) == FindInline(ps, n)
  {
    if ps == [] then []
    else if ps[0].name == name then DropInline(ps[1..], name)
    else [ps[0]] + DropInline(ps[1..], name)
  }

  function DropArn(arns: seq<string>, arn: string): (r: seq<string>)
    ensures arn !in r
    ensures forall a :: a != arn ==> (a in r <==> a in arns)
  {
    if arns == [] then []
    else if arns[0] == arn then DropArn(arns[1..], arn)
    else [arns[0]] + DropArn(arns[1..], arn)
  }

  /** Some instance profile holds the role. */
  predicate InSomeProfile(profiles: map<string, Profile>, role: string)
  {
    exists p :: p in profiles && role in profiles[p].roles
  }

  datatype Outcome = Outcome(reply: Reply, remote: Remote)

  /** What a call does when no fault is injected. */
  function Effect(r: Remote, call: Call): (o: Outcome)
    ensures o.reply.Failed? || !IsMutating(call) ==> o.remote == r
    ensures !o.reply.Failed? ==> Fits(call, o.reply)
  {
    match call
    case GetRole(name) =>
      if name in r.roles then Outcome(RoleInfo(r.roles[name]), r) else Outcome(Failed(NotFound), r)
    case CreateRole(name, trust, tags) =>
      if name in r.roles then Outcome(Failed(AlreadyExists), r)
      else Outcome(Done, r.(roles := r.roles[name := Role(r.arnPrefix + name, trust, tags, [], [])]))
    case CreateInstanceProfile(p, tags) =>
      if p in r.profiles then Outcome(Failed(AlreadyExists), r)
      else Outcome(Done, r.(profiles := r.profiles[p := Profile(tags, {})]))
    case AddRoleToInstanceProfile(p, name) =>
      if p !in r.profiles || name !in r.roles then Outcome(Failed(NotFound), r)
      else if name in r.profiles[p].roles then Outcome(Failed(AlreadyExists), r)
      else if r.profiles[p].roles != {} then Outcome(Failed(Other("LimitExceeded")), r)
      else Outcome(Done, r.(profiles := r.profiles[p := r.profiles[p].(roles := {name})]))
    case UpdateAssumeRolePolicy(name, trust) =>
      if name !in r.roles then Outcome(Failed(NotFound), r)
      else Outcome(Done, r.(roles := r.roles[name := r.roles[name].(trust := trust)]))
    case GetRolePolicy(name, policy) =>
      if name !in r.roles then Outcome(Failed(NotFound), r)
      else (match FindInline(r.roles[name].inline, policy)
        case None => Outcome(Failed(NotFound), r)
        case Some(doc) => Outcome(PolicyDocument(PercentEncode(doc)), r))
    case PutRolePolicy(name, policy, doc) =>
      if name !in r.roles then Outcome(Failed(NotFound), r)
      else
        var role := r.roles[name];
        Outcome(Done, r.(roles := r.roles[name := role.(inline := PutInline(role.inline, policy, doc))]))
    case DeleteRolePolicy(name, policy) =>
      if name !in r.roles || FindInline(r.roles[name].inline, policy).None? then Outcome(Failed(NotFound), r)
      else
        var role := r.roles[name];
        Outcome(Done, r.(roles := r.roles[name := role.(inline := DropInline(role.inline, policy))]))
    case ListAttachedRolePolicies(name) =>
      if name !in r.roles then Outcome(Failed(NotFound), r) else Outcome(Names(r.roles[name].attached), r)
    case DetachRolePolicy(name, arn) =>
      if name !in r.roles || arn !in r.roles[name].attached then Outcome(Failed(NotFound), r)
      else
        var role := r.roles[name];
        Outcome(Done, r.(roles := r.roles[name := role.(attached := DropArn(role.attached, arn))]))
    case ListRolePolicies(name) =>
      if name !in r.roles then Outcome(Failed(NotFound), r) else Outcome(Names(InlineNames(r.roles[name].inline)), r)
    case RemoveRoleFromInstanceProfile(p, name) =>
      if p !in r.profiles || name !in r.profiles[p].roles then Outcome(Failed(NotFound), r)
      else Outcome(Done, r.(profiles := r.profiles[p := r.profiles[p].(roles := r.profiles[p].roles - {name})]))
    case DeleteInstanceProfile(p) =>
      if p !in r.profiles then Outcome(Failed(NotFound), r)
      else if r.profiles[p].roles != {} then Outcome(Failed(Other("DeleteConflict")), r)
      else Outcome(Done, r.(profiles := r.profiles - {p}))
    case DeleteRole(name) =>
      if name !in r.roles then Outcome(Failed(NotFound), r)
      else if r.roles[name].attached != [] || r.roles[name].inline != [] || InSomeProfile(r.profiles, name) then
        Outcome(Failed(Other("DeleteConflict")), r)
      else Outcome(Done, r.(roles := r.roles - {name}))
  }

  /** The backend together with the trace of every call issued so far. */
  datatype Cloud = Cloud(remote: Remote, trace: seq<Call>)

  /** Fault oracle: the error injected into the call at each trace position, if any. */
  type Faults = nat -> Option<ApiError>

  ghost predicate NoFaults(fault: Faults)
  {
    forall n :: fault(n).None?
  }

  datatype Response = Response(reply: Reply, cloud: Cloud)

  /** Issue one call. */
  function Invoke(c: Cloud, fault: Faults, call: Call): (r: Response)
    ensures r.cloud.trace == c.trace + [call]
    ensures fault(|c.trace|).Some? ==> r.reply == Failed(fault(|c.trace|).value)
    ensures fault(|c.trace|).None? ==> r.reply == Effect(c.remote, call).reply
    ensures r.reply.Failed? || !IsMutating(call) ==> r.cloud.remote == c.remote
    ensures !r.reply.Failed? ==> Fits(call, r.reply) && r.cloud.remote == Effect(c.remote, call).remote
  {
    match fault(|c.trace|)
    case Some(e) => Response(Failed(e), Cloud(c.remote, c.trace + [call]))
    case None =>
      var o := Effect(c.remote, call);
      Response(o.reply, Cloud(o.remote, c.trace + [call]))
  }

  /** The client handle the engine holds; the backend behind it changes with every call. */
  class IamClient {
    var cloud: Cloud
    const fault: Faults

    constructor (remote: Remote, fault: Faults)
      ensures cloud == Cloud(remote, []) && this.fault == fault
    {
      cloud := Cloud(remote, []);
      this.fault := fault;
    }

    method Send(call: Call) returns (reply: Reply)
      modifies this
      ensures Response(reply, cloud) == Invoke(old(cloud), fault, call)
    {
      var r := Invoke(cloud, fault, call);
      reply, cloud := r.reply, r.cloud;
    }
  }
}
