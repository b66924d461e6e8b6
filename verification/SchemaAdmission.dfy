/**
 Schema custom resources of one namespace: how they are admitted, under which name each is known to the server, and why
 no two ever stand for the same schema of the same cluster.
 */
module SchemaAdmission {
  import opened Operands

  const SUFFIX := ".proto"

  predicate HasSuffix(s: string) {
    |s| >= |SUFFIX| && s[|s| - |SUFFIX|..] == SUFFIX
  }

  function Suffixed(s: string): string {
    if HasSuffix(s) then s else s + SUFFIX
  }

  datatype Spec = Spec(name: string, cluster: string, content: string)

  datatype Schema = Schema(name: string, spec: Spec)

  // The name of the schema on the server.
  function SchemaName(s: Schema): string {
    Suffixed(if s.spec.name == "" then s.name else s.spec.name)
  }

  // The mutating webhook.
  function Default(s: Schema): Schema {
    if s.spec.name != "" && !HasSuffix(s.spec.name) then s.(spec := s.spec.(name := s.spec.name + SUFFIX)) else s
  }

  // The schemas of the namespace by resource name.
  type Namespace = map<string, Schema>

  ghost predicate Named(ns: Namespace) {
    forall n :: n in ns ==> ns[n].name == n
  }

  predicate SameSchema(a: Schema, b: Schema) {
    SchemaName(a) == SchemaName(b) && a.spec.cluster == b.spec.cluster
  }

  ghost predicate Unique(ns: Namespace) {
    forall m, n :: m in ns && n in ns && SameSchema(ns[m], ns[n]) ==> m == n
  }

  ghost predicate ValidCreate(ns: Namespace, s: Schema) {
    s.spec.cluster != "" && s.spec.content != "" && forall n :: n in ns ==> !SameSchema(s, ns[n])
  }

  predicate ValidUpdate(before: Schema, s: Schema) {
    before.spec.cluster == s.spec.cluster && SchemaName(before) == SchemaName(s)
  }

  lemma SuffixedTwice(s: string)
    ensures HasSuffix(s + SUFFIX) && Suffixed(Suffixed(s)) == Suffixed(s)
  {
    assert (s + SUFFIX)[|s + SUFFIX| - |SUFFIX|..] == SUFFIX;
  }

  // Defaulting does not change which schema a resource stands for, and a second time it changes nothing.
  lemma DefaultKeepsName(s: Schema)
    ensures SchemaName(Default(s)) == SchemaName(s) && Default(s).spec.cluster == s.spec.cluster
    ensures Default(Default(s)) == Default(s)
  {
    SuffixedTwice(s.spec.name);
  }

  // A schema is known by the name in the spec, or else by that of the resource, spelled out with the suffix; defaulting
  // spells out the former.
  lemma NameIsSpelledOut(s: Schema)
    ensures var given := if s.spec.name != "" then s.spec.name else s.name;
            HasSuffix(SchemaName(s)) && SchemaName(s) == if HasSuffix(given) then given else given + ".proto"
    ensures Default(s).spec == s.spec.(name := if s.spec.name == "" then "" else SchemaName(s))
    ensures Default(s).name == s.name
  {
    SuffixedTwice(if s.spec.name != "" then s.spec.name else s.name);
  }

  // ---- requests, admitted one at a time ----

  datatype Request = Create(schema: Schema) | Update(name: string, spec: Spec) | Delete(name: string)
                   | Listened(name: string, content: string)

  // The listener keeps name and cluster, and spells the name out as the server knows it.
  function ListenedSpec(s: Schema, content: string): Spec {
    Spec(SchemaName(s), s.spec.cluster, content)
  }

  ghost function UpdateTo(ns: Namespace, name: string, spec: Spec): Namespace
    requires name in ns
  {
    var s := Default(ns[name].(spec := spec));
    if ValidUpdate(ns[name], s) then ns[name := s] else ns
  }

  ghost function Admit(ns: Namespace, r: Request): Namespace {
    match r
    case Create(schema) => var s := Default(schema); if s.name !in ns && ValidCreate(ns, s) then ns[s.name := s] else ns
    case Update(name, spec) => if name in ns then UpdateTo(ns, name, spec) else ns
    case Delete(name) => ns - {name}
    case Listened(name, content) => if name in ns then UpdateTo(ns, name, ListenedSpec(ns[name], content)) else ns
  }

  ghost function AdmitAll(ns: Namespace, rs: seq<Request>): Namespace {
    if rs == [] then ns else Admit(AdmitAll(ns, rs[..|rs| - 1]), rs[|rs| - 1])
  }

  lemma AdmitKeepsUnique(ns: Namespace, r: Request)
    requires Named(ns) && Unique(ns)
    ensures Named(Admit(ns, r)) && Unique(Admit(ns, r))
  {
  }

  // A creation is admitted exactly when the resource is new, names a cluster and a content, and no resource of the same
  // cluster stands for a schema of that name.
  lemma CreationIsAdmittedWhen(ns: Namespace, s: Schema)
    ensures Admit(ns, Create(s)) ==
            if && s.name !in ns && s.spec.cluster != "" && s.spec.content != ""
               && forall n :: n in ns ==> ns[n].spec.cluster != s.spec.cluster || SchemaName(ns[n]) != SchemaName(s)
            then ns[s.name := Default(s)] else ns
  {
    DefaultKeepsName(s);
    NameIsSpelledOut(s);
  }

  // An update is admitted exactly when it leaves the cluster and the name of the schema alone.
  lemma UpdateIsAdmittedWhen(ns: Namespace, name: string, spec: Spec)
    requires name in ns
    ensures var asked := ns[name].(spec := spec);
            Admit(ns, Update(name, spec)) ==
            if spec.cluster == ns[name].spec.cluster && SchemaName(asked) == SchemaName(ns[name])
            then ns[name := Default(asked)] else ns
  {
    DefaultKeepsName(ns[name].(spec := spec));
  }

  // Every reachable namespace holds at most one resource for each schema of each cluster.
  lemma {:induction false} SchemasAreUnique(rs: seq<Request>)
    ensures Named(AdmitAll(map[], rs)) && Unique(AdmitAll(map[], rs))
  {
    if rs != [] {
      SchemasAreUnique(rs[..|rs| - 1]);
      AdmitKeepsUnique(AdmitAll(map[], rs[..|rs| - 1]), rs[|rs| - 1]);
    }
  }

  // A listener update is never turned down, and it does not change which schema the resource stands for.
  lemma ListenerUpdateIsAdmitted(ns: Namespace, name: string, content: string)
    requires Named(ns) && name in ns
    ensures var next := Admit(ns, Listened(name, content));
            name in next && next[name].spec.content == content && SameSchema(next[name], ns[name])
  {
    var s := ns[name];
    SuffixedTwice(if s.spec.name == "" then s.name else s.spec.name);
    assert |SchemaName(s)| >= |SUFFIX|;
  }

  // Two creations checked against the same namespace are both admitted, and clash exactly when they are for the same
  // schema of the same cluster: uniqueness needs admissions one at a time.
  lemma ConcurrentCreationsClashWhen(ns: Namespace, a: Schema, b: Schema)
    requires Named(ns) && Unique(ns) && Default(a) == a && Default(b) == b
    requires ValidCreate(ns, a) && ValidCreate(ns, b) && a.name != b.name && a.name !in ns && b.name !in ns
    ensures Unique(ns[a.name := a][b.name := b]) <==> !SameSchema(a, b)
  {
    var both := ns[a.name := a][b.name := b];
    assert both[a.name] == a && both[b.name] == b;
  }

  // ---- looking a resource up ----

  datatype Found = NotFound | One(schema: Schema) | Several

  predicate Matches(s: Schema, schemaName: string, cluster: string) {
    SchemaName(s) == schemaName && s.spec.cluster == cluster
  }

  // The loop over the listed resources: it collects the matches. With unique schemas the third outcome is impossible.
  method FindExisting(items: seq<Schema>, schemaName: string, cluster: string) returns (found: Found)
    ensures match found
            case NotFound => forall k :: 0 <= k < |items| ==> !Matches(items[k], schemaName, cluster)
            case One(s) =>
              && SchemaName(s) == schemaName && s.spec.cluster == cluster
              && exists k :: 0 <= k < |items| && items[k] == s
                             && forall j :: 0 <= j < |items| && j != k ==> !Matches(items[j], schemaName, cluster)
            case Several =>
              exists j, k :: 0 <= j < k < |items|
                             && Matches(items[j], schemaName, cluster) && Matches(items[k], schemaName, cluster)
  {
    var schemas: seq<Schema> := [];
    ghost var first, second := 0, 0;
    var k := 0;
    while k < |items|
      invariant 0 <= k <= |items|
      invariant |schemas| == 0 ==> forall j :: 0 <= j < k ==> !Matches(items[j], schemaName, cluster)
      invariant |schemas| > 0 ==> first < k && items[first] == schemas[0] && Matches(items[first], schemaName, cluster)
      invariant |schemas| == 1 ==> forall j :: 0 <= j < k && j != first ==> !Matches(items[j], schemaName, cluster)
      invariant |schemas| > 1 ==> first < second < k && Matches(items[second], schemaName, cluster)
    {
      if Matches(items[k], schemaName, cluster) {
        if |schemas| == 0 { first := k; } else { second := k; }
        schemas := schemas + [items[k]];
      }
      k := k + 1;
    }
    if |schemas| == 0 {
      found := NotFound;
    } else if |schemas| == 1 {
      found := One(schemas[0]);
    } else {
      found := Several;
    }
  }

  // The items of a list of a namespace, each resource once.
  ghost predicate Lists(items: seq<Schema>, ns: Namespace) {
    && (forall k :: 0 <= k < |items| ==> items[k].name in ns && ns[items[k].name] == items[k])
    && (forall j, k :: 0 <= j < k < |items| ==> items[j].name != items[k].name)
  }

  // The "more than one" error of the lookup is unreachable.
  lemma LookupIsUnambiguous(rs: seq<Request>, items: seq<Schema>, j: nat, k: nat)
    requires Lists(items, AdmitAll(map[], rs)) && j < k < |items|
    ensures !SameSchema(items[j], items[k])
  {
    SchemasAreUnique(rs);
  }
}
