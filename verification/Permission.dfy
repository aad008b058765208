/** The policy language of access tokens (crates/ic-oss-types/src/permission.rs): its meaning, printer
    and parser. Sets are printed in some order of their elements; all results hold for every order. */
module Permission {
  import opened Manifests
  import opened Splitting

  datatype Resource = All | File | Folder | Bucket | Cluster | Other(name: string)
  {
    predicate Check(value: Resource) {
      All? || value == this
    }
  }

  datatype Operation = AllOperations | List | Read | Write | Delete | OtherOperation(name: string)
  {
    predicate Check(value: Operation) {
      AllOperations? || value == this
    }
  }

  datatype Permission = Permission(resource: Resource, operation: Operation, constraint: Option<Resource>)
  {
    predicate IsAll() {
      resource == Resource.All && operation == AllOperations && constraint == None
    }

    predicate CheckConstraint(value: Option<Resource>) {
      constraint == None || constraint == Some(Resource.All) || value == constraint
    }

    predicate Check(value: Permission) {
      resource.Check(value.resource) && operation.Check(value.operation) && CheckConstraint(value.constraint)
    }
  }

  predicate CoversAll(resources: set<string>) {
    resources == {} || "*" in resources
  }

  predicate Covers(resources: set<string>, path: string) {
    CoversAll(resources) || path in resources
  }

  datatype Policy = Policy(permission: Permission, resources: set<string>)
  {
    predicate HasPermission(p: Permission, path: string) {
      permission.Check(p) && Covers(resources, path)
    }

    predicate HasPermissionAny(p: Permission, paths: seq<string>) {
      permission.Check(p) && (CoversAll(resources) || exists path :: path in paths && Covers(resources, path))
    }
  }

  predicate HasPermission(policies: set<Policy>, p: Permission, path: string) {
    exists policy :: policy in policies && policy.HasPermission(p, path)
  }

  predicate HasPermissionAny(policies: set<Policy>, p: Permission, paths: seq<string>) {
    exists policy :: policy in policies && policy.HasPermissionAny(p, paths)
  }

  // ---- Text ------------------------------------------------------------------------------------

  predicate NameChar(c: char) {
    'A' <= c <= 'Z' || 'a' <= c <= 'z' || '0' <= c <= '9' || c == '_' || c == '-'
  }

  /** `validate_name`. */
  predicate ValidName(s: string) {
    s != "" && forall i :: 0 <= i < |s| ==> NameChar(s[i])
  }

  datatype ParseError = InvalidName | InvalidFormat

  // ---- Printing and parsing --------------------------------------------------------------------

  function PrintResource(r: Resource): string {
    match r
    case All => "*"
    case File => "File"
    case Folder => "Folder"
    case Bucket => "Bucket"
    case Cluster => "Cluster"
    case Other(name) => name
  }

  function ParseResource(s: string): Result<Resource, ParseError> {
    if s == "*" then Ok(Resource.All)
    else if s == "File" then Ok(Resource.File)
    else if s == "Folder" then Ok(Folder)
    else if s == "Bucket" then Ok(Bucket)
    else if s == "Cluster" then Ok(Cluster)
    else if ValidName(s) then Ok(Other(s))
    else Err(InvalidName)
  }

  function PrintOperation(o: Operation): string {
    match o
    case AllOperations => "*"
    case List => "List"
    case Read => "Read"
    case Write => "Write"
    case Delete => "Delete"
    case OtherOperation(name) => name
  }

  function ParseOperation(s: string): Result<Operation, ParseError> {
    if s == "*" then Ok(AllOperations)
    else if s == "List" then Ok(List)
    else if s == "Read" then Ok(Read)
    else if s == "Write" then Ok(Write)
    else if s == "Delete" then Ok(Delete)
    else if ValidName(s) then Ok(OtherOperation(s))
    else Err(InvalidName)
  }

  function PrintPermission(p: Permission): string {
    if p.constraint.Some? && p.constraint.value != Resource.All then
      PrintResource(p.resource) + "." + PrintOperation(p.operation) + "." + PrintResource(p.constraint.value)
    else if p.IsAll() then "*"
    else PrintResource(p.resource) + "." + PrintOperation(p.operation)
  }

  function ParsePermission(s: string): Result<Permission, ParseError> {
    if s == "*" then Ok(Permission(Resource.All, AllOperations, None)) else ParseParts(Split(s, '.'))
  }

  function ParseParts(parts: seq<string>): Result<Permission, ParseError>
    requires parts != []
  {
    match ParseResource(parts[0])
    case Err(e) => Err(e)
    case Ok(resource) =>
      if |parts| < 2 then Err(InvalidFormat)
      else
        match ParseOperation(parts[1])
        case Err(e) => Err(e)
        case Ok(operation) =>
          if |parts| == 2 then Ok(Permission(resource, operation, None))
          else
            match ParseResource(parts[2])
            case Err(e) => Err(e)
            case Ok(constraint) =>
              if |parts| > 3 then Err(InvalidFormat)
              else Ok(Permission(resource, operation, Some(constraint)))
  }

  /** `names` lists the set. */
  ghost predicate Lists(names: seq<string>, elements: set<string>) {
    forall n :: n in names <==> n in elements
  }

  function PrintResources(names: seq<string>): string {
    if names == [] || "*" in names then "" else Join(names, ',')
  }

  function ParseResources(s: string): Result<set<string>, ParseError> {
    if s == "" || s == "*" then Ok({})
    else
      var names := Split(s, ',');
      if forall n :: n in names ==> ValidName(n) then Ok(set n | n in names) else Err(InvalidName)
  }

  function PrintPolicy(p: Permission, names: seq<string>): string {
    if names == [] || "*" in names then PrintPermission(p)
    else PrintPermission(p) + ":" + PrintResources(names)
  }

  function ParsePolicy(s: string): Result<Policy, ParseError> {
    if s == "*" then Ok(Policy(Permission(Resource.All, AllOperations, None), {}))
    else
      var parts := Split(s, ':');
      match ParsePermission(parts[0])
      case Err(e) => Err(e)
      case Ok(permission) =>
        match (if |parts| > 1 then ParseResources(parts[1]) else Ok({}))
        case Err(e) => Err(e)
        case Ok(resources) =>
          if |parts| > 2 then Err(InvalidFormat) else Ok(Policy(permission, resources))
  }

  /** A policy together with the order in which its resources are printed. */
  datatype Printed = Printed(policy: Policy, names: seq<string>)
  {
    ghost predicate Valid() {
      Lists(names, policy.resources)
    }

    function Text(): string {
      PrintPolicy(policy.permission, names)
    }
  }

  function Texts(ps: seq<Printed>): (texts: seq<string>)
    ensures |texts| == |ps|
  {
    seq(|ps|, i requires 0 <= i < |ps| => ps[i].Text())
  }

  function PrintPolicies(ps: seq<Printed>): string {
    if ps == [] then "" else Join(Texts(ps), ' ')
  }

  /** `collect` stops at the first error. */
  function ParseEach(texts: seq<string>): Result<set<Policy>, ParseError> {
    if texts == [] then Ok({})
    else
      match ParsePolicy(texts[0])
      case Err(e) => Err(e)
      case Ok(policy) =>
        match ParseEach(texts[1..])
        case Err(e) => Err(e)
        case Ok(rest) => Ok({policy} + rest)
  }

  function ParsePolicies(s: string): Result<set<Policy>, ParseError> {
    if s == "" then Ok({}) else ParseEach(Split(s, ' '))
  }

  // ---- Normal form and well-formedness ---------------------------------------------------------

  function NormalPermission(p: Permission): Permission {
    if p.constraint == Some(Resource.All) then p.(constraint := None) else p
  }

  function NormalPolicy(p: Policy): Policy {
    Policy(NormalPermission(p.permission), if CoversAll(p.resources) then {} else p.resources)
  }

  ghost function NormalPolicies(policies: set<Policy>): set<Policy> {
    set p | p in policies :: NormalPolicy(p)
  }

  predicate WellFormedResource(r: Resource) {
    r.Other? ==> ValidName(r.name) && r.name !in ["File", "Folder", "Bucket", "Cluster"]
  }

  predicate WellFormedOperation(o: Operation) {
    o.OtherOperation? ==> ValidName(o.name) && o.name !in ["List", "Read", "Write", "Delete"]
  }

  /** Names are valid and none of them is a keyword. */
  predicate WellFormedPermission(p: Permission) {
    && WellFormedResource(p.resource) && WellFormedOperation(p.operation)
    && (p.constraint.Some? ==> WellFormedResource(p.constraint.value))
  }

  predicate WellFormedPolicy(p: Policy) {
    WellFormedPermission(p.permission) && forall n :: n in p.resources ==> ValidName(n)
  }

  // ---- The meaning of the normal form ----------------------------------------------------------

  /** Normalising changes no answer to a permission query. */
  lemma NormalGrants(p: Policy, q: Permission, path: string, paths: seq<string>)
    ensures NormalPolicy(p).HasPermission(q, path) == p.HasPermission(q, path)
    ensures NormalPolicy(p).HasPermissionAny(q, paths) == p.HasPermissionAny(q, paths)
  {
    assert Covers(NormalPolicy(p).resources, path) == Covers(p.resources, path);
    forall r | r in paths ensures Covers(NormalPolicy(p).resources, r) == Covers(p.resources, r) {
    }
  }

  lemma NormalPoliciesGrant(policies: set<Policy>, q: Permission, path: string, paths: seq<string>)
    ensures HasPermission(NormalPolicies(policies), q, path) == HasPermission(policies, q, path)
    ensures HasPermissionAny(NormalPolicies(policies), q, paths) == HasPermissionAny(policies, q, paths)
  {
    forall p | p in policies
      ensures NormalPolicy(p).HasPermission(q, path) == p.HasPermission(q, path)
      ensures NormalPolicy(p).HasPermissionAny(q, paths) == p.HasPermissionAny(q, paths)
    {
      NormalGrants(p, q, path, paths);
    }
    if p :| p in policies && p.HasPermission(q, path) {
      assert NormalPolicy(p) in NormalPolicies(policies);
    }
    if p :| p in policies && p.HasPermissionAny(q, paths) {
      assert NormalPolicy(p) in NormalPolicies(policies);
    }
  }

  // ---- Round trips -----------------------------------------------------------------------------

  /** None of the characters that separate parts of a policy text. */
  ghost predicate Plain(s: string) {
    '.' !in s && ',' !in s && ':' !in s && ' ' !in s
  }

  lemma NameIsPlain(s: string)
    requires ValidName(s)
    ensures Plain(s) && s != "" && s != "*"
  {
    forall i | 0 <= i < |s| ensures s[i] != '.' && s[i] != ',' && s[i] != ':' && s[i] != ' ' && s[i] != '*' {
      assert NameChar(s[i]);
    }
    assert "*"[0] == '*';
  }

  lemma ResourceRoundTrip(r: Resource)
    ensures WellFormedResource(r) ==>
              Plain(PrintResource(r)) && PrintResource(r) != "" && ParseResource(PrintResource(r)) == Ok(r)
  {
    if r.Other? && ValidName(r.name) {
      NameIsPlain(r.name);
    }
  }

  lemma OperationRoundTrip(o: Operation)
    ensures WellFormedOperation(o) ==>
              Plain(PrintOperation(o)) && PrintOperation(o) != "" && ParseOperation(PrintOperation(o)) == Ok(o)
  {
    if o.OtherOperation? && ValidName(o.name) {
      NameIsPlain(o.name);
    }
  }

  function PermissionParts(p: Permission): seq<string> {
    [PrintResource(p.resource), PrintOperation(p.operation)]
    + if p.constraint.Some? then [PrintResource(p.constraint.value)] else []
  }

  /** The text of a permission is its parts joined by dots, or a single star. */
  lemma PrintedPermission(p: Permission)
    ensures var n := NormalPermission(p);
            PrintPermission(p) == if p.IsAll() then "*" else Join(PermissionParts(n), '.')
  {
    var n := NormalPermission(p);
    var parts := PermissionParts(n);
    assert parts[1..][0] == PrintOperation(p.operation);
    if n.constraint.Some? {
      assert Join(parts[1..][1..], '.') == PrintResource(n.constraint.value);
    }
  }

  lemma PartsRoundTrip(p: Permission)
    requires WellFormedPermission(p)
    ensures ParseParts(PermissionParts(p)) == Ok(p)
    ensures forall i :: 0 <= i < |PermissionParts(p)| ==> Plain(PermissionParts(p)[i])
  {
    ResourceRoundTrip(p.resource);
    OperationRoundTrip(p.operation);
    if p.constraint.Some? { ResourceRoundTrip(p.constraint.value); }
  }

  lemma PermissionRoundTrip(p: Permission)
    requires WellFormedPermission(NormalPermission(p))
    ensures ParsePermission(PrintPermission(p)) == Ok(NormalPermission(p))
    ensures ',' !in PrintPermission(p) && ':' !in PrintPermission(p) && ' ' !in PrintPermission(p)
  {
    var parts := PermissionParts(NormalPermission(p));
    PartsRoundTrip(NormalPermission(p));
    PrintedPermission(p);
    SplitJoin(parts, '.');
    JoinLacks(parts, '.', ',');
    JoinLacks(parts, '.', ':');
    JoinLacks(parts, '.', ' ');
    SplitFirst("*", "", '.');
  }

  lemma ResourcesRoundTrip(names: seq<string>, resources: set<string>)
    requires Lists(names, resources) && !CoversAll(resources) && forall n :: n in resources ==> ValidName(n)
    ensures ParseResources(PrintResources(names)) == Ok(resources)
    ensures ':' !in PrintResources(names) && ' ' !in PrintResources(names)
    ensures PrintResources(names) == Join(names, ',')
  {
    assert names != [] by { var r :| r in resources; assert r in names; }
    forall i | 0 <= i < |names| ensures Plain(names[i]) && names[i] != "" && names[i] != "*" {
      assert names[i] in resources;
      NameIsPlain(names[i]);
    }
    SplitJoin(names, ',');
    JoinLacks(names, ',', ':');
    JoinLacks(names, ',', ' ');
    SplitFirst("", "", ',');
    SplitFirst("*", "", ',');
    assert (set n | n in names) == resources;
  }

  /** One policy: its text parses to its normal form. */
  lemma PolicyRoundTrip(p: Printed)
    requires p.Valid() && WellFormedPolicy(NormalPolicy(p.policy))
    ensures ParsePolicy(p.Text()) == Ok(NormalPolicy(p.policy))
    ensures ' ' !in p.Text() && p.Text() != "" && (':' in p.Text() <==> !CoversAll(p.policy.resources))
  {
    var permission, names := p.policy.permission, p.names;
    var text := PrintPermission(permission);
    PermissionRoundTrip(permission);
    PrintedPermission(permission);
    assert text != "" by { assert Split("", '.') == [""]; }
    assert names == [] <==> p.policy.resources == {} by {
      if names != [] { assert names[0] in p.policy.resources; }
      if r :| r in p.policy.resources { assert r in names; }
    }
    SplitFirst(text, PrintResources(names), ':');
    if !CoversAll(p.policy.resources) {
      ResourcesRoundTrip(names, p.policy.resources);
      SplitFirst(PrintResources(names), "", ':');
      assert text + ":" + PrintResources(names) == text + [':'] + PrintResources(names);
    }
  }

  /** A policy without a list of resources, with an empty one, or with a star, holds everywhere. */
  lemma EmptyListIsAll(permission: Permission)
    requires WellFormedPermission(NormalPermission(permission))
    ensures var text, all := PrintPermission(permission), Ok(Policy(NormalPermission(permission), {}));
            ParsePolicy(text) == all && ParsePolicy(text + ":") == all && ParsePolicy(text + ":*") == all
  {
    var text := PrintPermission(permission);
    PermissionRoundTrip(permission);
    PrintedPermission(permission);
    SplitFirst(text, "", ':');
    SplitFirst("", "", ':');
    SplitFirst("*", "", ':');
    SplitFirst(text, "*", ':');
    assert text + ":" == text + [':'] + "" && text + ":*" == text + [':'] + "*";
    assert text + ":" != "*" && text + ":*" != "*" by { assert (text + ":")[|text|] == ':' && (text + ":*")[|text|] == ':'; }
  }

  ghost function NormalsOf(ps: seq<Printed>): set<Policy> {
    set p | p in ps :: NormalPolicy(p.policy)
  }

  lemma FirstNormal(ps: seq<Printed>)
    requires ps != []
    ensures NormalsOf(ps) == {NormalPolicy(ps[0].policy)} + NormalsOf(ps[1..])
  {
    assert ps == [ps[0]] + ps[1..];
  }

  lemma {:induction false} EachRoundTrip(ps: seq<Printed>)
    requires forall p :: p in ps ==> p.Valid() && WellFormedPolicy(NormalPolicy(p.policy))
    ensures ParseEach(Texts(ps)) == Ok(NormalsOf(ps))
  {
    hide ParsePolicy, NormalPolicy, WellFormedPolicy, Lists;
    if ps == [] {
      assert Texts(ps) == [];
      assert NormalsOf(ps) == {};
    } else {
      var rest := ps[1..];
      assert Texts(ps)[1..] == Texts(rest);
      EachRoundTrip(rest);
      PolicyRoundTrip(ps[0]);
      FirstNormal(ps);
    }
  }

  /** The printed policies, each with the order of its resources, in the order of printing. */
  ghost predicate Enumerates(ps: seq<Printed>, policies: set<Policy>) {
    && (forall p :: p in ps ==> p.Valid() && p.policy in policies)
    && (forall policy :: policy in policies ==> exists p :: p in ps && p.policy == policy)
  }

  lemma EnumeratedNormals(ps: seq<Printed>, policies: set<Policy>)
    requires Enumerates(ps, policies)
    ensures NormalsOf(ps) == NormalPolicies(policies)
    ensures ps == [] <==> policies == {}
  {
    forall q | q in NormalPolicies(policies) ensures exists p :: p in ps && NormalPolicy(p.policy) == q {
      var policy :| policy in policies && NormalPolicy(policy) == q;
      var p :| p in ps && p.policy == policy;
    }
    if ps != [] {
      assert ps[0] in ps;
    }
  }

  /** The text of any set of policies parses to the normal forms of the policies, ... */
  lemma PoliciesRoundTrip(ps: seq<Printed>, policies: set<Policy>)
    requires Enumerates(ps, policies) && forall p :: p in policies ==> WellFormedPolicy(NormalPolicy(p))
    ensures ParsePolicies(PrintPolicies(ps)) == Ok(NormalPolicies(policies))
  {
    EnumeratedNormals(ps, policies);
    EachRoundTrip(ps);
    var texts := Texts(ps);
    if ps != [] {
      forall i | 0 <= i < |texts| ensures ' ' !in texts[i] && texts[i] != "" {
        assert ps[i] in ps;
        PolicyRoundTrip(ps[i]);
      }
      SplitJoin(texts, ' ');
      assert Split("", ' ') == [""];
    }
  }

  /** ... which grants exactly what the policies granted. */
  lemma PrintingKeepsGrants(
    ps: seq<Printed>, policies: set<Policy>, q: Permission, path: string, paths: seq<string>)
    requires Enumerates(ps, policies) && forall p :: p in policies ==> WellFormedPolicy(NormalPolicy(p))
    ensures var parsed := ParsePolicies(PrintPolicies(ps));
            && parsed.Ok?
            && HasPermission(parsed.value, q, path) == HasPermission(policies, q, path)
            && HasPermissionAny(parsed.value, q, paths) == HasPermissionAny(policies, q, paths)
  {
    PoliciesRoundTrip(ps, policies);
    NormalPoliciesGrant(policies, q, path, paths);
  }

  lemma ParsedPermission(s: string)
    ensures ParsePermission(s).Ok? ==> WellFormedPermission(ParsePermission(s).value)
  {
  }

  /** Whatever text a policy was parsed from, it is well-formed. */
  lemma ParsedIsWellFormed(s: string)
    ensures ParsePolicy(s).Ok? ==> WellFormedPolicy(ParsePolicy(s).value)
  {
    ParsedPermission(Split(s, ':')[0]);
  }

  /** A policy survives printing and parsing up to normal form exactly when its normal form is
      well-formed: when it is not, the text is refused or stands for another policy. */
  lemma RoundTripIff(p: Printed)
    requires p.Valid()
    ensures ParsePolicy(p.Text()) == Ok(NormalPolicy(p.policy)) <==> WellFormedPolicy(NormalPolicy(p.policy))
  {
    ParsedIsWellFormed(p.Text());
    if WellFormedPolicy(NormalPolicy(p.policy)) {
      PolicyRoundTrip(p);
    }
  }

  lemma {:induction false} ParsedEach(texts: seq<string>)
    ensures ParseEach(texts).Ok? ==> forall p :: p in ParseEach(texts).value ==> WellFormedPolicy(p)
  {
    if texts != [] {
      ParsedIsWellFormed(texts[0]);
      ParsedEach(texts[1..]);
    }
  }

  /** The same for sets of policies. */
  lemma PoliciesRoundTripIff(ps: seq<Printed>, policies: set<Policy>)
    requires Enumerates(ps, policies)
    ensures ParsePolicies(PrintPolicies(ps)) == Ok(NormalPolicies(policies)) <==>
            forall p :: p in policies ==> WellFormedPolicy(NormalPolicy(p))
  {
    var text := PrintPolicies(ps);
    if ParsePolicies(text) == Ok(NormalPolicies(policies)) {
      if text != "" {
        ParsedEach(Split(text, ' '));
      }
      forall p | p in policies ensures WellFormedPolicy(NormalPolicy(p)) {
        assert NormalPolicy(p) in NormalPolicies(policies);
      }
    } else if forall p :: p in policies ==> WellFormedPolicy(NormalPolicy(p)) {
      PoliciesRoundTrip(ps, policies);
    }
  }

  lemma NormalIsWellFormed(p: Policy)
    requires WellFormedPolicy(p)
    ensures WellFormedPolicy(NormalPolicy(p))
  {
  }

  /** An accepted text and the text its policies are printed as grant the same. */
  lemma ReprintingKeepsGrants(
    text: string, ps: seq<Printed>, q: Permission, path: string, paths: seq<string>)
    requires ParsePolicies(text).Ok? && Enumerates(ps, ParsePolicies(text).value)
    ensures var again := ParsePolicies(PrintPolicies(ps));
            && again.Ok?
            && HasPermission(again.value, q, path) == HasPermission(ParsePolicies(text).value, q, path)
            && HasPermissionAny(again.value, q, paths) == HasPermissionAny(ParsePolicies(text).value, q, paths)
  {
    var policies := ParsePolicies(text).value;
    if text != "" {
      ParsedEach(Split(text, ' '));
    }
    forall p | p in policies ensures WellFormedPolicy(NormalPolicy(p)) {
      NormalIsWellFormed(p);
    }
    PrintingKeepsGrants(ps, policies, q, path, paths);
  }

  // ---- Changing a set of policies --------------------------------------------------------------

  class Policies {
    var policies: set<Policy>

    constructor (policies: set<Policy>)
      ensures this.policies == policies
    {
      this.policies := policies;
    }

    /** `append` also empties the set it takes the policies from. */
    method Append(other: Policies)
      requires other != this
      modifies this, other
      ensures policies == old(policies) + old(other.policies) && other.policies == {}
    {
      policies := policies + other.policies;
      other.policies := {};
    }

    /** `retain` of what the other set does not contain. */
    method Remove(other: Policies)
      modifies this
      ensures policies == old(policies) - old(other.policies)
    {
      policies := set p | p in policies && p !in other.policies;
    }
  }

  /** A union grants what one of its parts grants. */
  lemma AppendGrants(a: set<Policy>, b: set<Policy>, q: Permission, path: string, paths: seq<string>)
    ensures HasPermission(a + b, q, path) <==> HasPermission(a, q, path) || HasPermission(b, q, path)
    ensures HasPermissionAny(a + b, q, paths) <==> HasPermissionAny(a, q, paths) || HasPermissionAny(b, q, paths)
  {
    forall p | p in a || p in b
      ensures p.HasPermission(q, path) ==> HasPermission(a + b, q, path)
      ensures p.HasPermissionAny(q, paths) ==> HasPermissionAny(a + b, q, paths)
    {
      assert p in a + b;
    }
  }

  /** Removing policies takes a grant away exactly when one of the removed policies gave it and none of
      the remaining ones does: a broader policy that stays keeps granting what a removed one granted. */
  lemma RemoveGrants(a: set<Policy>, b: set<Policy>, q: Permission, path: string, paths: seq<string>)
    ensures HasPermission(a, q, path) && !HasPermission(a - b, q, path)
            <==> HasPermission(a * b, q, path) && !HasPermission(a - b, q, path)
    ensures HasPermissionAny(a, q, paths) && !HasPermissionAny(a - b, q, paths)
            <==> HasPermissionAny(a * b, q, paths) && !HasPermissionAny(a - b, q, paths)
    ensures HasPermission(a - b, q, path) ==> HasPermission(a, q, path)
    ensures HasPermissionAny(a - b, q, paths) ==> HasPermissionAny(a, q, paths)
  {
    assert a == (a - b) + (a * b);
    AppendGrants(a - b, a * b, q, path, paths);
  }

  lemma NormalIsFixed(p: Policy)
    ensures NormalPolicy(NormalPolicy(p)) == NormalPolicy(p)
  {
  }

  /** `remove` compares policies as they are, and printing and parsing have put them into normal form.
      So a policy that was not in normal form cannot be removed any more by naming it: removing it from
      the parsed set changes nothing, whereas a policy in normal form is gone. */
  lemma RemovedOnlyIfNormal(ps: seq<Printed>, policies: set<Policy>, p: Policy)
    requires Enumerates(ps, policies) && forall r :: r in policies ==> WellFormedPolicy(NormalPolicy(r))
    requires p in policies
    ensures var parsed := ParsePolicies(PrintPolicies(ps));
            && parsed.Ok? && NormalPolicy(p) in parsed.value
            && (parsed.value - {p} == parsed.value <==> NormalPolicy(p) != p)
  {
    PoliciesRoundTrip(ps, policies);
    var parsed := NormalPolicies(policies);
    assert NormalPolicy(p) in parsed;
    if p in parsed {
      var r :| r in policies && NormalPolicy(r) == p;
      NormalIsFixed(r);
    }
  }

  /** What is granted after removing from the parsed set: what those policies granted whose normal form
      is not among the removed ones. */
  lemma RemoveAfterParsing(ps: seq<Printed>, policies: set<Policy>, removed: set<Policy>, q: Permission, path: string,
                           paths: seq<string>)
    requires Enumerates(ps, policies) && forall r :: r in policies ==> WellFormedPolicy(NormalPolicy(r))
    ensures var parsed, kept := ParsePolicies(PrintPolicies(ps)), set p | p in policies && NormalPolicy(p) !in removed;
            && parsed.Ok?
            && HasPermission(parsed.value - removed, q, path) == HasPermission(kept, q, path)
            && HasPermissionAny(parsed.value - removed, q, paths) == HasPermissionAny(kept, q, paths)
  {
    PoliciesRoundTrip(ps, policies);
    var kept := set p | p in policies && NormalPolicy(p) !in removed;
    assert NormalPolicies(policies) - removed == NormalPolicies(kept);
    NormalPoliciesGrant(kept, q, path, paths);
  }
}
