/** What policies grant (crates/ic-oss-types/src/permission.rs:118-223, 420-601), in terms of the fields of
    policies and requests only. */
module Grants {
  import opened Manifests
  import opened P = Permission
  import opened Splitting

  /** The policy holds for every path. */
  predicate Everywhere(policy: Policy) {
    policy.resources == {} || "*" in policy.resources
  }

  /** The policy's constraint leaves the request's constraint open. */
  predicate Unconstrained(policy: Policy) {
    policy.permission.constraint.None? || policy.permission.constraint.value.All?
  }

  /** Each part of the request is named by the policy, or the policy leaves it open. */
  predicate Agrees(policy: Policy, q: Permission) {
    && (policy.permission.resource.All? || policy.permission.resource == q.resource)
    && (policy.permission.operation.AllOperations? || policy.permission.operation == q.operation)
    && (Unconstrained(policy) || policy.permission.constraint == q.constraint)
  }

  /** A set of policies grants a request if and only if one of them agrees with it and holds for its path;
      a request for any of several paths also if one agrees and holds everywhere. */
  lemma GrantedIff(policies: set<Policy>, q: Permission, path: string, paths: seq<string>)
    ensures HasPermission(policies, q, path) <==>
              exists p :: p in policies && Agrees(p, q) && (Everywhere(p) || path in p.resources)
    ensures HasPermissionAny(policies, q, paths) <==>
              || (exists p :: p in policies && Agrees(p, q) && Everywhere(p))
              || (exists r :: r in paths && HasPermission(policies, q, r))
  {
    forall p: Policy, r: string
      ensures p.HasPermission(q, r) <==> Agrees(p, q) && (Everywhere(p) || r in p.resources)
    {
    }
    if p :| p in policies && p.HasPermissionAny(q, paths) {
      if !Everywhere(p) {
        var r :| r in paths && Covers(p.resources, r);
        assert p.HasPermission(q, r);
      }
    }
    if p :| p in policies && Agrees(p, q) && Everywhere(p) {
      assert p.HasPermissionAny(q, paths);
    }
    if r :| r in paths && HasPermission(policies, q, r) {
      var p :| p in policies && p.HasPermission(q, r);
      assert p.HasPermissionAny(q, paths);
    }
  }

  /** A policy grants its own permission on each of its resources. */
  lemma OwnPermissionGranted(policies: set<Policy>, p: Policy, path: string)
    requires p in policies && path in p.resources
    ensures HasPermission(policies, p.permission, path)
  {
    GrantedIff(policies, p.permission, path, []);
    assert Agrees(p, p.permission);
  }

  /** Whatever part a policy names, all requests that it grants have in common. */
  lemma GrantsAgree(p: Policy, q: Permission, r: Permission, a: string, b: string)
    requires HasPermission({p}, q, a) && HasPermission({p}, r, b)
    ensures !p.permission.resource.All? ==> q.resource == r.resource
    ensures !p.permission.operation.AllOperations? ==> q.operation == r.operation
    ensures !Unconstrained(p) ==> q.constraint == r.constraint
    ensures !Everywhere(p) ==> a in p.resources && b in p.resources
  {
    GrantedIff({p}, q, a, []);
    GrantedIff({p}, r, b, []);
  }

  /** `Policies::all` and `Policies::read`. */
  function AllPolicies(): set<Policy> {
    {Policy(Permission(Resource.All, AllOperations, None), {})}
  }

  function ReadPolicies(): set<Policy> {
    {Policy(Permission(Resource.All, Read, None), {}), Policy(Permission(Resource.All, List, None), {})}
  }

  lemma StarIsAll()
    ensures ParsePolicies("*").Ok? && ParsePolicies("*").value == AllPolicies()
  {
    SplitFirst("*", "", ' ');
    assert ParseEach(["*"][1..]) == Ok({});
    assert AllPolicies() + {} == AllPolicies();
  }

  /** The text of a single star grants everything, the empty text nothing. */
  lemma StarGrantsAll(q: Permission, path: string, paths: seq<string>)
    ensures ParsePolicies("*").Ok? && ParsePolicies("").Ok?
    ensures HasPermission(ParsePolicies("*").value, q, path) && HasPermissionAny(ParsePolicies("*").value, q, paths)
    ensures !HasPermission(ParsePolicies("").value, q, path) && !HasPermissionAny(ParsePolicies("").value, q, paths)
  {
    var star := Policy(Permission(Resource.All, AllOperations, None), {});
    StarIsAll();
    assert Agrees(star, q) && Everywhere(star);
    GrantedIff(ParsePolicies("*").value, q, path, paths);
  }

  /** The reading policies grant reading and listing, anywhere and of anything, and nothing else. */
  lemma ReadingGrants(q: Permission, path: string, paths: seq<string>)
    ensures HasPermission(ReadPolicies(), q, path) <==> q.operation == Read || q.operation == List
    ensures HasPermissionAny(ReadPolicies(), q, paths) <==> q.operation == Read || q.operation == List
  {
    GrantedIff(ReadPolicies(), q, path, paths);
    var read := Policy(Permission(Resource.All, Read, None), {});
    var list := Policy(Permission(Resource.All, List, None), {});
    assert read in ReadPolicies() && list in ReadPolicies();
    assert q.operation == Read ==> Agrees(read, q) && Everywhere(read);
    assert q.operation == List ==> Agrees(list, q) && Everywhere(list);
    forall r | r in paths ensures HasPermission(ReadPolicies(), q, r) <==> q.operation == Read || q.operation == List {
      GrantedIff(ReadPolicies(), q, r, []);
    }
  }
}
