/** Fail-closed policy composition over the untyped JSON documents the service stores. */
module CoordinationPolicy {
  import opened Foundation

  /** A JSON value. `Names` stands for the sorted string lists the service itself writes; their
      order carries no meaning. `Other` covers floats. */
  datatype Value =
    | Null
    | Bool(b: bool)
    | Int(i: int)
    | Str(s: string)
    | List(items: seq<Value>)
    | Names(names: set<string>)
    | Dict(fields: map<string, Value>)
    | Other

  type Doc = map<string, Value>

  function Get(d: Doc, key: string): (v: Value) {
    if key in d then d[key] else Null
  }

  function Mapping(v: Value): (d: Doc) {
    if v.Dict? then v.fields else map[]
  }

  predicate IsTrue(v: Value) { v == Bool(true) }

  /** Non-empty strings of a list; every other value counts as no strings at all. */
  function StringSet(v: Value): (s: set<string>) {
    match v
    case List(items) => set i | 0 <= i < |items| && items[i].Str? && items[i].s != "" :: items[i].s
    case Names(names) => names - {""}
    case _ => {}
  }

  function OptionalString(v: Value): (s: Option<string>) {
    if v.Str? && v.s != "" then Some(v.s) else None
  }

  /** A positive integer, everything else (booleans included) counting as 0. */
  function PositiveInt(v: Value): (n: nat) {
    if v.Int? && v.i > 0 then v.i else 0
  }

  function NonNegativeInt(v: Value): (n: nat) {
    if v.Int? && v.i >= 0 then v.i else 0
  }

  function RestrictPositiveInt(a: Value, b: Value): (n: nat) {
    if PositiveInt(a) == 0 || PositiveInt(b) == 0 then 0
    else if PositiveInt(a) <= PositiveInt(b) then PositiveInt(a) else PositiveInt(b)
  }

  predicate HasWildcard(names: set<string>) {
    exists name :: name in names && '*' in name
  }

  /** The record both composition functions write. */
  function PolicyDoc(enabled: bool, tenant: Doc, agent: Doc, errors: seq<Value>): (d: Doc) {
    map[
      "version" := Int(1),
      "enabled" := Bool(enabled),
      "max_depth" := Int(RestrictPositiveInt(Get(tenant, "max_depth"), Get(agent, "max_depth"))),
      "max_children" := Int(RestrictPositiveInt(Get(tenant, "max_children"), Get(agent, "max_children"))),
      "max_parallelism" :=
        Int(RestrictPositiveInt(Get(tenant, "max_parallelism"), Get(agent, "max_parallelism"))),
      "allowed_agent_version_ids" := Names(StringSet(Get(tenant, "allowed_agent_version_ids"))
                                         * StringSet(Get(agent, "allowed_agent_version_ids"))),
      "allowed_secret_refs" := Names(StringSet(Get(tenant, "allowed_secret_refs"))
                                   * StringSet(Get(agent, "allowed_secret_refs"))),
      "errors" := List(errors)
    ]
  }

  /** Freezes the tenant/agent intersection used for one session. */
  function BuildSnapshot(tenantSettings: Doc, agentPolicy: Value): (d: Doc) {
    var tenant, agent := Mapping(Get(tenantSettings, "coordination_policy")), Mapping(agentPolicy);
    var wildVersions := HasWildcard(StringSet(Get(tenant, "allowed_agent_version_ids"))
                                  + StringSet(Get(agent, "allowed_agent_version_ids")));
    var wildSecrets := HasWildcard(StringSet(Get(tenant, "allowed_secret_refs"))
                                 + StringSet(Get(agent, "allowed_secret_refs")));
    PolicyDoc(
      IsTrue(Get(tenant, "enabled")) && IsTrue(Get(agent, "enabled")) && !wildVersions && !wildSecrets,
      tenant, agent,
      (if wildVersions then [Str("wildcard AgentVersion grants are unsupported")] else [])
      + (if wildSecrets then [Str("wildcard secret grants are unsupported")] else []))
  }

  function StringItems(v: Value): (items: seq<Value>) {
    if v.List? then Strings(v.items) else []
  }

  function Strings(items: seq<Value>): (r: seq<Value>) {
    if items == [] then [] else (if items[0].Str? then [items[0]] else []) + Strings(items[1..])
  }

  /** Keeps a child run from regaining coordination authority its parent lacked. */
  function NarrowPolicy(parent: Doc, child: Doc): (d: Doc) {
    PolicyDoc(IsTrue(Get(parent, "enabled")) && IsTrue(Get(child, "enabled")), parent, child,
              StringItems(Get(parent, "errors")) + StringItems(Get(child, "errors")))
  }

  datatype PermissionError = EndpointDiffers | ModelDiffers | RestrictionNotIterable

  /** The restriction the delegation adds: absent means no restriction beyond parent and child. */
  function RestrictionSet(restrictions: Doc, key: string, otherwise: set<string>): (s: set<string>) {
    if key in restrictions then StringSet(restrictions[key]) else otherwise
  }

  function SecretRefs(d: Doc): (refs: map<string, string>) {
    var raw := Mapping(Get(d, "secret_refs"));
    map name | name in raw && raw[name].Str? && raw[name].s != "" :: raw[name].s
  }

  /** Child value if it names one, else the parent's. */
  function Inherit(child: Value, parent: Option<string>): (s: Option<string>) {
    if OptionalString(child).Some? then OptionalString(child) else parent
  }

  function StringOrNull(s: Option<string>): (v: Value) {
    match s case Some(text) => Str(text) case None => Null
  }

  function Intersected(parent: Doc, child: Doc, restrictions: Doc, key: string): (s: set<string>) {
    var mine, theirs := StringSet(Get(parent, key)), StringSet(Get(child, key));
    mine * theirs * RestrictionSet(restrictions, key, mine + theirs)
  }

  /** Parent, child and delegation permissions intersected; secrets stay references. */
  function NarrowPermissions(parent: Doc, child: Doc, restrictions: Doc): (r: Result<Doc, PermissionError>) {
    var endpoint, model := OptionalString(Get(parent, "model_endpoint_id")), OptionalString(Get(parent, "model"));
    if endpoint != Inherit(Get(child, "model_endpoint_id"), endpoint) then Err(EndpointDiffers)
    else if model != Inherit(Get(child, "model"), model) then Err(ModelDiffers)
    else
      var refs := SecretRefs(parent);
      var names := refs.Keys * StringSet(Get(child, "secrets"))
                 * RestrictionSet(restrictions, "secrets", refs.Keys);
      Ok(map[
        "version" := Int(1),
        "allow" := Names(Intersected(parent, child, restrictions, "allow")),
        "permissions" := Names(Intersected(parent, child, restrictions, "permissions")),
        "secret_refs" := Dict(map name | name in refs && name in names :: Str(refs[name])),
        "model_endpoint_id" := StringOrNull(endpoint),
        "model" := StringOrNull(model)
      ])
  }

  /** What Python's `set(value)` yields from a JSON value, `None` when it raises: strings iterate
      by character, dicts by key, and a list with an unhashable item raises. */
  function IterableNames(v: Value): (r: Option<set<string>>) {
    match v
    case Str(s) => Some(set i | 0 <= i < |s| :: [s[i]])
    case List(items) =>
      if exists i :: 0 <= i < |items| && (items[i].List? || items[i].Names? || items[i].Dict?) then None
      else Some(set i | 0 <= i < |items| && items[i].Str? :: items[i].s)
    case Names(names) => Some(names)
    case Dict(fields) => Some(fields.Keys)
    case _ => None
  }

  /** The permission part of `_permission_snapshot`: secrets are first cut down to the policy's
      allowed references. `tools` is the parent session's tool snapshot, `child` the target
      version's tool policy. */
  function PermissionSnapshot(
      tools: Doc, endpoint: Value, model: Value, child: Doc, restrictions: Doc, policy: Doc)
    : (r: Result<Doc, PermissionError>)
  {
    var allowed := StringSet(Get(policy, "allowed_secret_refs"));
    var requested := if "secrets" in restrictions then IterableNames(restrictions["secrets"]) else Some(allowed);
    if requested.None? then Err(RestrictionNotIterable)
    else
      NarrowPermissions(
        tools["model_endpoint_id" := endpoint]["model" := model], child,
        restrictions["secrets" := Names(allowed * requested.value)])
  }
}

/** Authority only shrinks along a chain of delegations of any length. */
module PolicyChains {
  import opened Foundation
  import opened CoordinationPolicy

  const LIMITS: set<string> := {"max_depth", "max_children", "max_parallelism"}
  const GRANTS: set<string> := {"allowed_agent_version_ids", "allowed_secret_refs"}

  /** `leaf` holds no coordination authority that `top` lacks. */
  ghost predicate NoWiderPolicy(leaf: Doc, top: Doc) {
    (IsTrue(Get(leaf, "enabled")) ==> IsTrue(Get(top, "enabled")))
    && (forall key :: key in LIMITS ==> PositiveInt(Get(leaf, key)) <= PositiveInt(Get(top, key)))
    && (forall key :: key in GRANTS ==> StringSet(Get(leaf, key)) <= StringSet(Get(top, key)))
  }

  /** The session policy of the run at the end of a chain whose runs bring `own` policies. */
  function PolicyChain(root: Doc, own: seq<Doc>): (d: Doc)
    decreases |own|
  {
    if own == [] then root
    else NarrowPolicy(PolicyChain(root, own[..|own| - 1]), own[|own| - 1])
  }

  lemma PolicyDocFields(enabled: bool, t: Doc, a: Doc, errors: seq<Value>)
    ensures var d := PolicyDoc(enabled, t, a, errors);
      && Get(d, "enabled") == Bool(enabled)
      && (forall key :: key in LIMITS ==> Get(d, key) == Int(RestrictPositiveInt(Get(t, key), Get(a, key))))
      && (forall key :: key in GRANTS ==> Get(d, key) == Names(StringSet(Get(t, key)) * StringSet(Get(a, key))))
  {
    hide StringSet, RestrictPositiveInt;
  }

  lemma NamesOfIntersection(v: Value, w: Value)
    ensures StringSet(Names(StringSet(v) * StringSet(w))) == StringSet(v) * StringSet(w)
  {
    StringSetHasNoEmpty(v);
  }

  lemma StringSetHasNoEmpty(v: Value)
    ensures "" !in StringSet(v)
  {}

  /** Narrowing is exact: a grant survives iff both sides hold it, a limit is the smaller of two
      positive limits, and a missing or malformed side closes it. */
  lemma NarrowPolicyExact(parent: Doc, child: Doc)
    ensures var d := NarrowPolicy(parent, child);
      && (IsTrue(Get(d, "enabled")) <==> IsTrue(Get(parent, "enabled")) && IsTrue(Get(child, "enabled")))
      && (forall key :: key in GRANTS ==>
            StringSet(Get(d, key)) == StringSet(Get(parent, key)) * StringSet(Get(child, key)))
      && (forall key :: key in LIMITS ==>
            PositiveInt(Get(d, key)) == RestrictPositiveInt(Get(parent, key), Get(child, key)))
  {
    PolicyDocFields(IsTrue(Get(parent, "enabled")) && IsTrue(Get(child, "enabled")), parent, child,
                    StringItems(Get(parent, "errors")) + StringItems(Get(child, "errors")));
    hide PolicyDoc, StringSet, Get, StringItems;
    forall key | key in GRANTS
      ensures StringSet(Get(NarrowPolicy(parent, child), key))
           == StringSet(Get(parent, key)) * StringSet(Get(child, key))
    {
      NamesOfIntersection(Get(parent, key), Get(child, key));
    }
  }

  /** The leaf's authority is exactly the intersection over the whole chain. */
  lemma {:induction false} ChainIsIntersection(root: Doc, own: seq<Doc>, key: string, name: string)
    ensures IsTrue(Get(PolicyChain(root, own), "enabled")) <==>
      IsTrue(Get(root, "enabled")) && forall i :: 0 <= i < |own| ==> IsTrue(Get(own[i], "enabled"))
    ensures key in GRANTS ==>
      (name in StringSet(Get(PolicyChain(root, own), key)) <==>
        name in StringSet(Get(root, key)) && forall i :: 0 <= i < |own| ==> name in StringSet(Get(own[i], key)))
    ensures key in LIMITS ==>
      (PositiveInt(Get(PolicyChain(root, own), key)) > 0 <==>
        PositiveInt(Get(root, key)) > 0 && forall i :: 0 <= i < |own| ==> PositiveInt(Get(own[i], key)) > 0)
    decreases |own|
  {
    hide *;
    if own == [] {
      PolicyChainEnds(root);
    } else {
      var shorter, last := own[..|own| - 1], own[|own| - 1];
      PolicyChainStep(root, own);
      ChainIsIntersection(root, shorter, key, name);
      NarrowAt(PolicyChain(root, shorter), last, key, name);
      assert own == shorter + [last];
    }
  }

  /** One narrowing, for one key and one name. */
  lemma NarrowAt(parent: Doc, child: Doc, key: string, name: string)
    ensures var d := NarrowPolicy(parent, child);
      && (IsTrue(Get(d, "enabled")) <==> IsTrue(Get(parent, "enabled")) && IsTrue(Get(child, "enabled")))
      && (key in GRANTS ==>
            (name in StringSet(Get(d, key)) <==> name in StringSet(Get(parent, key)) && name in StringSet(Get(child, key))))
      && (key in LIMITS ==>
            (PositiveInt(Get(d, key)) > 0 <==> PositiveInt(Get(parent, key)) > 0 && PositiveInt(Get(child, key)) > 0))
  {
    NarrowPolicyExact(parent, child);
    hide NarrowPolicy, Get, StringSet, IsTrue;
  }

  lemma PolicyChainEnds(root: Doc)
    ensures PolicyChain(root, []) == root
  {}

  lemma PolicyChainStep(root: Doc, own: seq<Doc>)
    requires own != []
    ensures PolicyChain(root, own) == NarrowPolicy(PolicyChain(root, own[..|own| - 1]), own[|own| - 1])
  {}

  /** `limit` bounds the root and every own policy, and one of them imposes it. */
  ghost predicate Least(limit: nat, root: Doc, own: seq<Doc>, key: string) {
    && limit <= PositiveInt(Get(root, key))
    && (forall i :: 0 <= i < |own| ==> limit <= PositiveInt(Get(own[i], key)))
    && (limit == PositiveInt(Get(root, key))
        || exists i :: 0 <= i < |own| && limit == PositiveInt(Get(own[i], key)))
  }

  lemma LeastExtend(limit: nat, root: Doc, own: seq<Doc>, next: Doc, key: string)
    requires Least(limit, root, own, key)
    ensures var n := PositiveInt(Get(next, key));
      Least(if limit <= n then limit else n, root, own + [next], key)
  {
    hide PositiveInt, Get;
    var n := PositiveInt(Get(next, key));
    assert (own + [next])[|own|] == next;
    if limit <= n && limit != PositiveInt(Get(root, key)) {
      var i :| 0 <= i < |own| && limit == PositiveInt(Get(own[i], key));
      assert (own + [next])[i] == own[i];
    }
  }

  lemma NarrowedLimit(parent: Doc, child: Doc, key: string)
    requires key in LIMITS
    ensures var n, a, b := PositiveInt(Get(NarrowPolicy(parent, child), key)),
                           PositiveInt(Get(parent, key)), PositiveInt(Get(child, key));
      n > 0 ==> a > 0 && n == if a <= b then a else b
  {
    NarrowPolicyExact(parent, child);
    hide NarrowPolicy, Get;
  }

  /** The leaf's limit is the least limit met on the way, once all of them are positive. */
  lemma {:induction false} ChainLimitIsLeast(root: Doc, own: seq<Doc>, key: string)
    requires key in LIMITS && PositiveInt(Get(PolicyChain(root, own), key)) > 0
    ensures Least(PositiveInt(Get(PolicyChain(root, own), key)), root, own, key)
    decreases |own|
  {
    if own != [] {
      var shorter, next := own[..|own| - 1], own[|own| - 1];
      assert own == shorter + [next];
      PolicyChainStep(root, own);
      hide *;
      NarrowedLimit(PolicyChain(root, shorter), next, key);
      ChainLimitIsLeast(root, shorter, key);
      LeastExtend(PositiveInt(Get(PolicyChain(root, shorter), key)), root, shorter, next, key);
    }
  }

  lemma NoWiderTransitive(a: Doc, b: Doc, c: Doc)
    requires NoWiderPolicy(a, b) && NoWiderPolicy(b, c)
    ensures NoWiderPolicy(a, c)
  {}

  lemma NarrowPolicyNeverWidens(parent: Doc, child: Doc)
    ensures NoWiderPolicy(NarrowPolicy(parent, child), parent)
    ensures NoWiderPolicy(NarrowPolicy(parent, child), child)
  {
    NarrowPolicyExact(parent, child);
    hide NarrowPolicy, Get, StringSet;
  }

  /** Every run is bounded by every ancestor's policy; once disabled, nothing below is enabled. */
  lemma {:induction false} ChainNeverWidens(root: Doc, own: seq<Doc>, upTo: nat)
    requires upTo <= |own|
    ensures NoWiderPolicy(PolicyChain(root, own), PolicyChain(root, own[..upTo]))
    decreases |own|
  {
    hide *;
    if upTo == |own| {
      assert own[..upTo] == own;
      NoWiderThanItself(PolicyChain(root, own));
    } else {
      var shorter := own[..|own| - 1];
      ChainNeverWidens(root, shorter, upTo);
      assert shorter[..upTo] == own[..upTo];
      NarrowPolicyNeverWidens(PolicyChain(root, shorter), own[|own| - 1]);
      PolicyChainStep(root, own);
      NoWiderTransitive(PolicyChain(root, own), PolicyChain(root, shorter), PolicyChain(root, own[..upTo]));
    }
  }

  lemma NoWiderThanItself(d: Doc)
    ensures NoWiderPolicy(d, d)
  {}

  /** `leaf` may use no tool, permission or secret that `top` may not, every surviving secret name
      keeps its reference, and model and endpoint are the same. */
  ghost predicate NoWiderPermissions(leaf: Doc, top: Doc) {
    StringSet(Get(leaf, "allow")) <= StringSet(Get(top, "allow"))
    && StringSet(Get(leaf, "permissions")) <= StringSet(Get(top, "permissions"))
    && SecretRefs(leaf).Keys <= SecretRefs(top).Keys
    && (forall name :: name in SecretRefs(leaf) ==> SecretRefs(leaf)[name] == SecretRefs(top)[name])
    && OptionalString(Get(leaf, "model_endpoint_id")) == OptionalString(Get(top, "model_endpoint_id"))
    && OptionalString(Get(leaf, "model")) == OptionalString(Get(top, "model"))
  }

  datatype Link = Link(child: Doc, restrictions: Doc)

  /** Permissions at the end of a chain of delegations; the first refusal ends the chain. */
  function PermissionChain(root: Doc, links: seq<Link>): (r: Result<Doc, PermissionError>)
    decreases |links|
  {
    if links == [] then Ok(root)
    else
      var above := PermissionChain(root, links[..|links| - 1]);
      if above.Err? then above
      else NarrowPermissions(above.value, links[|links| - 1].child, links[|links| - 1].restrictions)
  }

  /** A tool or permission survives one narrowing iff parent, child and restriction all grant it;
      a secret iff parent references it, the child asks for it and the restriction keeps it. */
  lemma NarrowPermissionsExact(parent: Doc, child: Doc, restrictions: Doc, name: string)
    requires NarrowPermissions(parent, child, restrictions).Ok?
    ensures var d := NarrowPermissions(parent, child, restrictions).value;
      && (forall key :: key in {"allow", "permissions"} ==>
            (name in StringSet(Get(d, key)) <==>
              && name in StringSet(Get(parent, key)) && name in StringSet(Get(child, key))
              && (key in restrictions ==> name in StringSet(restrictions[key]))))
      && (name in SecretRefs(d) <==>
            && name in SecretRefs(parent) && name in StringSet(Get(child, "secrets"))
            && ("secrets" in restrictions ==> name in StringSet(restrictions["secrets"])))
      && (name in SecretRefs(d) ==> SecretRefs(d)[name] == SecretRefs(parent)[name])
      && OptionalString(Get(d, "model_endpoint_id")) == OptionalString(Get(parent, "model_endpoint_id"))
      && OptionalString(Get(d, "model")) == OptionalString(Get(parent, "model"))
  {
    var d := NarrowPermissions(parent, child, restrictions).value;
    forall key | key in {"allow", "permissions"}
      ensures name in StringSet(Get(d, key)) <==>
        && name in StringSet(Get(parent, key)) && name in StringSet(Get(child, key))
        && (key in restrictions ==> name in StringSet(restrictions[key]))
    {
      assert Get(d, key) == Names(Intersected(parent, child, restrictions, key));
      StringSetHasNoEmpty(Get(parent, key));
    }
    var refs := SecretRefs(parent);
    assert forall n :: n in Mapping(Get(d, "secret_refs")) ==>
      n in refs && Mapping(Get(d, "secret_refs"))[n] == Str(refs[n]) && refs[n] != "";
  }

  lemma NarrowPermissionsNeverWidens(parent: Doc, child: Doc, restrictions: Doc)
    requires NarrowPermissions(parent, child, restrictions).Ok?
    ensures NoWiderPermissions(NarrowPermissions(parent, child, restrictions).value, parent)
  {
    hide *;
    var d := NarrowPermissions(parent, child, restrictions).value;
    forall name
      ensures name in StringSet(Get(d, "allow")) ==> name in StringSet(Get(parent, "allow"))
      ensures name in StringSet(Get(d, "permissions")) ==> name in StringSet(Get(parent, "permissions"))
      ensures name in SecretRefs(d) ==> name in SecretRefs(parent) && SecretRefs(d)[name] == SecretRefs(parent)[name]
    {
      NarrowPermissionsExact(parent, child, restrictions, name);
    }
    NarrowPermissionsExact(parent, child, restrictions, "");
    NoWiderPermissionsByName(d, parent);
  }

  lemma NoWiderPermissionsByName(leaf: Doc, top: Doc)
    requires forall name :: name in StringSet(Get(leaf, "allow")) ==> name in StringSet(Get(top, "allow"))
    requires forall name :: name in StringSet(Get(leaf, "permissions")) ==> name in StringSet(Get(top, "permissions"))
    requires forall name :: name in SecretRefs(leaf) ==>
      name in SecretRefs(top) && SecretRefs(leaf)[name] == SecretRefs(top)[name]
    requires OptionalString(Get(leaf, "model_endpoint_id")) == OptionalString(Get(top, "model_endpoint_id"))
    requires OptionalString(Get(leaf, "model")) == OptionalString(Get(top, "model"))
    ensures NoWiderPermissions(leaf, top)
  {}

  lemma NoWiderPermissionsTransitive(a: Doc, b: Doc, c: Doc)
    requires NoWiderPermissions(a, b) && NoWiderPermissions(b, c)
    ensures NoWiderPermissions(a, c)
  {
    hide StringSet, SecretRefs, OptionalString, Get;
  }

  /** Along a chain of any length the leaf's permissions stay inside every ancestor's. */
  lemma {:induction false} PermissionChainNeverWidens(root: Doc, links: seq<Link>, upTo: nat)
    requires upTo <= |links| && PermissionChain(root, links).Ok?
    ensures PermissionChain(root, links[..upTo]).Ok?
    ensures NoWiderPermissions(PermissionChain(root, links).value, PermissionChain(root, links[..upTo]).value)
    decreases |links|
  {
    hide *;
    if upTo == |links| {
      assert links[..upTo] == links;
      SamePermissions(PermissionChain(root, links).value);
    } else {
      var shorter, last := links[..|links| - 1], links[|links| - 1];
      PermissionChainStep(root, links);
      PermissionChainNeverWidens(root, shorter, upTo);
      assert shorter[..upTo] == links[..upTo];
      var above := PermissionChain(root, shorter).value;
      NarrowPermissionsNeverWidens(above, last.child, last.restrictions);
      NoWiderPermissionsTransitive(
        PermissionChain(root, links).value, above, PermissionChain(root, links[..upTo]).value);
    }
  }

  lemma SamePermissions(d: Doc)
    ensures NoWiderPermissions(d, d)
  {}

  lemma PermissionChainStep(root: Doc, links: seq<Link>)
    requires links != [] && PermissionChain(root, links).Ok?
    ensures var shorter, last := links[..|links| - 1], links[|links| - 1];
      && PermissionChain(root, shorter).Ok?
      && PermissionChain(root, links) == NarrowPermissions(PermissionChain(root, shorter).value, last.child, last.restrictions)
  {
    hide NarrowPermissions;
  }

  // ----- what the composition reads and when it exists -----

  /** How a document is read: only `true` enables, only positive integers limit, and only non-empty
      strings of a list grant. */
  lemma DocumentsReadExactly(d: Doc, key: string, name: string, n: nat)
    ensures IsTrue(Get(d, key)) <==> key in d && d[key] == Bool(true)
    ensures n > 0 ==> (PositiveInt(Get(d, key)) == n <==> key in d && d[key] == Int(n))
    ensures n > 0 ==> (NonNegativeInt(Get(d, key)) == n <==> key in d && d[key] == Int(n))
    ensures name in StringSet(Get(d, key)) <==>
      name != "" && key in d && ((d[key].List? && Str(name) in d[key].items) || (d[key].Names? && name in d[key].names))
  {
    if key in d && d[key].List? && Str(name) in d[key].items && name != "" {
      var i :| 0 <= i < |d[key].items| && d[key].items[i] == Str(name);
      assert d[key].items[i].Str? && d[key].items[i].s == name;
    }
  }

  /** The object under a key, empty when there is none. */
  function Section(settings: Doc, key: string): (d: Doc) {
    if key in settings && settings[key].Dict? then settings[key].fields else map[]
  }

  /** Some grant of the document is a wildcard. */
  predicate Wild(d: Doc) {
    exists key, name :: key in GRANTS && name in StringSet(Get(d, key)) && '*' in name
  }

  /** A frozen policy is enabled exactly when the tenant's own section and the agent's policy both are
      and neither grants a wildcard; it grants what both grant, and its limits are the smaller of two
      positive ones, 0 when one is missing. */
  lemma SnapshotIsIntersection(tenantSettings: Doc, agentPolicy: Value, key: string, name: string)
    ensures var d, tenant := BuildSnapshot(tenantSettings, agentPolicy), Section(tenantSettings, "coordination_policy");
      var agent := if agentPolicy.Dict? then agentPolicy.fields else map[];
      && (IsTrue(Get(d, "enabled")) <==>
            IsTrue(Get(tenant, "enabled")) && IsTrue(Get(agent, "enabled")) && !Wild(tenant) && !Wild(agent))
      && (key in GRANTS ==>
            (name in StringSet(Get(d, key)) <==> name in StringSet(Get(tenant, key)) && name in StringSet(Get(agent, key))))
      && (key in LIMITS ==>
            var a, b := PositiveInt(Get(tenant, key)), PositiveInt(Get(agent, key));
            PositiveInt(Get(d, key)) == if a == 0 || b == 0 then 0 else if a <= b then a else b)
  {
    var tenant := Section(tenantSettings, "coordination_policy");
    var agent := if agentPolicy.Dict? then agentPolicy.fields else map[];
    assert tenant == Mapping(Get(tenantSettings, "coordination_policy")) && agent == Mapping(agentPolicy);
    WildExactly(tenant, agent);
    SnapshotOf(tenantSettings, agentPolicy, tenant, agent);
    var enabled := IsTrue(Get(tenant, "enabled")) && IsTrue(Get(agent, "enabled")) && !Wild(tenant) && !Wild(agent);
    var errors := Get(BuildSnapshot(tenantSettings, agentPolicy), "errors").items;
    PolicyDocFields(enabled, tenant, agent, errors);
    NamesOfIntersection(Get(tenant, key), Get(agent, key));
    hide BuildSnapshot, PolicyDoc, StringSet, Wild, Get, Section, Mapping;
  }

  lemma WildExactly(tenant: Doc, agent: Doc)
    ensures Wild(tenant) || Wild(agent) <==>
      HasWildcard(StringSet(Get(tenant, "allowed_agent_version_ids")) + StringSet(Get(agent, "allowed_agent_version_ids")))
      || HasWildcard(StringSet(Get(tenant, "allowed_secret_refs")) + StringSet(Get(agent, "allowed_secret_refs")))
  {
    hide StringSet, Get;
    forall d, key, name | d in {tenant, agent} && key in GRANTS && name in StringSet(Get(d, key)) && '*' in name
      ensures HasWildcard(StringSet(Get(tenant, key)) + StringSet(Get(agent, key)))
    {
      assert name in StringSet(Get(tenant, key)) + StringSet(Get(agent, key));
    }
    forall key, name | key in GRANTS && name in StringSet(Get(tenant, key)) + StringSet(Get(agent, key)) && '*' in name
      ensures Wild(tenant) || Wild(agent)
    {}
    assert "allowed_agent_version_ids" in GRANTS && "allowed_secret_refs" in GRANTS;
  }

  lemma SnapshotOf(tenantSettings: Doc, agentPolicy: Value, tenant: Doc, agent: Doc)
    requires tenant == Mapping(Get(tenantSettings, "coordination_policy")) && agent == Mapping(agentPolicy)
    requires Wild(tenant) || Wild(agent) <==>
      HasWildcard(StringSet(Get(tenant, "allowed_agent_version_ids")) + StringSet(Get(agent, "allowed_agent_version_ids")))
      || HasWildcard(StringSet(Get(tenant, "allowed_secret_refs")) + StringSet(Get(agent, "allowed_secret_refs")))
    ensures var d := BuildSnapshot(tenantSettings, agentPolicy);
      var enabled := IsTrue(Get(tenant, "enabled")) && IsTrue(Get(agent, "enabled")) && !Wild(tenant) && !Wild(agent);
      Get(d, "errors").List? && d == PolicyDoc(enabled, tenant, agent, Get(d, "errors").items)
  {
    hide StringSet, HasWildcard, Wild, RestrictPositiveInt;
  }

  /** The child may leave endpoint and model open or name its parent's, nothing else. */
  predicate Inherits(parent: Value, child: Value) { child.Str? && child.s != "" ==> parent == child }

  /** `set(value)` does not raise. */
  predicate Iterable(v: Value) {
    match v
    case Str(_) => true
    case Names(_) => true
    case Dict(_) => true
    case List(items) => forall i :: 0 <= i < |items| ==> !items[i].List? && !items[i].Names? && !items[i].Dict?
    case _ => false
  }

  /** The permissions of a delegation exist exactly when the target version keeps to the session's
      endpoint and model and the restriction on secrets, if any, can be read as a set of names. */
  lemma PermissionsExist(tools: Doc, endpoint: Value, model: Value, child: Doc, restrictions: Doc, policy: Doc)
    ensures PermissionSnapshot(tools, endpoint, model, child, restrictions, policy).Ok? <==>
      && ("secrets" in restrictions ==> Iterable(restrictions["secrets"]))
      && Inherits(endpoint, Get(child, "model_endpoint_id")) && Inherits(model, Get(child, "model"))
  {
    hide StringSet, Intersected, SecretRefs, RestrictionSet;
  }

  /** Everything a delegation's permission snapshot grants: a tool or permission that the session has,
      the target version asks for and the delegation does not withhold; a secret that the session
      references, the policy allows, the version asks for and the delegation does not withhold. */
  lemma SnapshotExactly(tools: Doc, endpoint: Value, model: Value, child: Doc, restrictions: Doc, policy: Doc, name: string)
    requires PermissionSnapshot(tools, endpoint, model, child, restrictions, policy).Ok?
    ensures var d := PermissionSnapshot(tools, endpoint, model, child, restrictions, policy).value;
      && (forall key :: key in {"allow", "permissions"} ==>
            (name in StringSet(Get(d, key)) <==>
              && name in StringSet(Get(tools, key)) && name in StringSet(Get(child, key))
              && (key in restrictions ==> name in StringSet(restrictions[key]))))
      && (name in SecretRefs(d) <==>
            && name in SecretRefs(tools) && name in StringSet(Get(child, "secrets"))
            && name in StringSet(Get(policy, "allowed_secret_refs"))
            && ("secrets" in restrictions ==> name in IterableNames(restrictions["secrets"]).value))
      && (name in SecretRefs(d) ==> SecretRefs(d)[name] == SecretRefs(tools)[name])
      && OptionalString(Get(d, "model_endpoint_id")) == OptionalString(endpoint)
      && OptionalString(Get(d, "model")) == OptionalString(model)
  {
    var parent := tools["model_endpoint_id" := endpoint]["model" := model];
    var allowed := StringSet(Get(policy, "allowed_secret_refs"));
    var requested := if "secrets" in restrictions then IterableNames(restrictions["secrets"]) else Some(allowed);
    var cut := restrictions["secrets" := Names(allowed * requested.value)];
    SnapshotSources(tools, endpoint, model);
    NarrowPermissionsExact(parent, child, cut, name);
    StringSetHasNoEmpty(Get(policy, "allowed_secret_refs"));
    NamesWithoutEmpty(allowed * requested.value);
    hide NarrowPermissions, StringSet, Get, SecretRefs, OptionalString, IterableNames;
  }

  lemma SnapshotSources(tools: Doc, endpoint: Value, model: Value)
    ensures var parent := tools["model_endpoint_id" := endpoint]["model" := model];
      && Get(parent, "allow") == Get(tools, "allow") && Get(parent, "permissions") == Get(tools, "permissions")
      && Get(parent, "secret_refs") == Get(tools, "secret_refs") && SecretRefs(parent) == SecretRefs(tools)
      && Get(parent, "model_endpoint_id") == endpoint && Get(parent, "model") == model
  {}

  lemma NamesWithoutEmpty(names: set<string>)
    ensures "" !in names ==> StringSet(Names(names)) == names
  {}
}
