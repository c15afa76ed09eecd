/**
 What a pack declares and what `validate` accepts of it (`internal/pack/pack.go`), for the parts the
 register's state depends on. Schema validation, value printing, column coercion, templates and
 conditions stay functions of their arguments.
 */
module Packs {
  import opened Outcomes
  import opened Tables
  import Canon

  // ---- classes ---------------------------------------------------------------------

  datatype Encryption = EncNone | EncTenant | EncClass | EncSubject

  datatype Projection = Projection(property: string, member: string, column: string, typ: string, unique: bool)

  datatype Class = Class(
    name: string, statuses: seq<string>, initial: string, encryption: Encryption, pii: set<string>,
    naturalKey: string, properties: set<string>, projections: seq<Projection>, references: map<string, string>)

  const RESERVED: set<string> := {"object_id", "tenant", "status", "updated_at"}

  /** The columns `projectionDDL` puts a unique index on. */
  function UniqueColumns(c: Class): set<string> {
    set i | 0 <= i < |c.projections| && c.projections[i].unique :: c.projections[i].column
  }

  function TableOf(c: Class): QueryTable {
    QueryTable(c.name, UniqueColumns(c))
  }

  /** The rules `validate` holds one class to. */
  predicate ClassOk(c: Class) {
    && c.initial in c.statuses
    && (c.naturalKey != "" ==> c.naturalKey in c.properties && c.naturalKey !in c.pii)
    && (c.encryption.EncNone? <==> c.pii == {})
    && (forall i :: 0 <= i < |c.projections| ==>
          c.projections[i].column !in RESERVED && c.projections[i].property !in c.pii)
  }

  /** Every declared reference names a declared class. */
  predicate ReferencesKnown(classes: map<string, Class>, c: Class) {
    forall prop :: prop in c.references ==> c.references[prop] in classes
  }

  ghost predicate ClassesOk(classes: map<string, Class>) {
    forall name :: name in classes ==>
      classes[name].name == name && ClassOk(classes[name]) && ReferencesKnown(classes, classes[name])
  }

  ghost predicate DistinctNames(list: seq<Class>) {
    forall i, j :: 0 <= i < j < |list| ==> list[i].name != list[j].name
  }

  ghost predicate Named(list: seq<Class>, name: string) {
    exists i :: 0 <= i < |list| && list[i].name == name
  }

  ghost predicate ReferencesNamed(list: seq<Class>, c: Class) {
    forall prop :: prop in c.references ==> Named(list, c.references[prop])
  }

  /** A list of declarations a pack may carry: distinct names, each sound, references resolved. */
  ghost predicate Declarable(list: seq<Class>) {
    && DistinctNames(list)
    && (forall i :: 0 <= i < |list| ==> ClassOk(list[i]))
    && (forall i :: 0 <= i < |list| ==> ReferencesNamed(list, list[i]))
  }

  /** The lookup table of a list. */
  ghost predicate Indexes(byName: map<string, Class>, list: seq<Class>) {
    && (forall i :: 0 <= i < |list| ==> list[i].name in byName && byName[list[i].name] == list[i])
    && (forall name :: name in byName ==> Named(list, name))
  }

  method IndexClasses(list: seq<Class>) returns (r: Option<map<string, Class>>)
    ensures r.Some? <==> DistinctNames(list) && forall i :: 0 <= i < |list| ==> ClassOk(list[i])
    ensures r.Some? ==> Indexes(r.value, list)
  {
    var byName: map<string, Class> := map[];
    for i := 0 to |list|
      invariant Indexes(byName, list[..i]) && DistinctNames(list[..i])
      invariant forall k :: 0 <= k < i ==> ClassOk(list[k])
    {
      var c := list[i];
      IndexStep(byName, list, i);
      if c.name in byName || !ClassOk(c) {
        return None;
      }
      byName := byName[c.name := c];
    }
    assert list[..|list|] == list;
    return Some(byName);
  }

  lemma IndexStep(byName: map<string, Class>, list: seq<Class>, i: nat)
    requires i < |list| && Indexes(byName, list[..i]) && DistinctNames(list[..i])
    ensures list[i].name in byName ==> !DistinctNames(list)
    ensures list[i].name !in byName ==>
      DistinctNames(list[..i + 1]) && Indexes(byName[list[i].name := list[i]], list[..i + 1])
  {
    var done, longer := list[..i], list[..i + 1];
    if list[i].name in byName {
      var k :| 0 <= k < |done| && done[k].name == list[i].name;
      assert list[k].name == list[i].name;
    } else {
      forall k | 0 <= k < i
        ensures longer[k] == done[k] && longer[k].name in byName
      {
      }
      var more := byName[list[i].name := list[i]];
      forall name | name in more
        ensures Named(longer, name)
      {
        if name == list[i].name {
          assert longer[i].name == name;
        } else {
          var k :| 0 <= k < |done| && done[k].name == name;
          assert longer[k].name == name;
        }
      }
    }
  }

  /** The class half of `validate`, filling the lookup table as it goes. */
  method ValidateClasses(list: seq<Class>) returns (r: Option<map<string, Class>>)
    ensures r.Some? <==> Declarable(list)
    ensures r.Some? ==> Indexes(r.value, list) && ClassesOk(r.value)
  {
    r := IndexClasses(list);
    if r.None? {
      return;
    }
    for i := 0 to |list|
      invariant forall k :: 0 <= k < i ==> ReferencesKnown(r.value, list[k])
    {
      KnownIsNamed(r.value, list, list[i]);
      if !ReferencesKnown(r.value, list[i]) {
        return None;
      }
    }
    forall i | 0 <= i < |list|
      ensures ReferencesNamed(list, list[i])
    {
      KnownIsNamed(r.value, list, list[i]);
    }
  }

  lemma KnownIsNamed(byName: map<string, Class>, list: seq<Class>, c: Class)
    requires Indexes(byName, list)
    ensures ReferencesKnown(byName, c) <==> ReferencesNamed(list, c)
  {
    forall name
      ensures name in byName <==> Named(list, name)
    {
    }
  }

  // ---- splitting a payload -----------------------------------------------------------

  function Clear(pii: set<string>, payload: Payload): Payload {
    payload - pii
  }

  function Personal(pii: set<string>, payload: Payload): Payload {
    payload - (payload.Keys - pii)
  }

  /** The two halves are disjoint and make up the whole. */
  lemma SplitMerges(pii: set<string>, payload: Payload)
    ensures Clear(pii, payload) + Personal(pii, payload) == payload
    ensures Clear(pii, payload).Keys !! Personal(pii, payload).Keys
  {
  }

  lemma ClearOfNone(payload: Payload)
    ensures Clear({}, payload) == payload
  {
  }

  // ---- workflows ------------------------------------------------------------------------

  type Context = map<string, Canon.Value>

  datatype ActionKind = CreateAction | UpdateAction | CorrectAction | StatusAction

  datatype Effect =
    | RecordEffect
    | SetStatusEffect(target: string, cls: string, status: string, optional: bool)
    | CreateEffect(cls: string, template: string, status: string)
    | OpenLinkEffect(cls: string, template: string, status: string)
    | CloseLinkEffect(cls: string, match_: string, set_: string, status: string, optional: bool)

  datatype Condition = Condition(sql: string, expectZero: bool, reject: bool, message: string)

  datatype Workflow = Workflow(
    name: string, cls: string, action: ActionKind, status: string, proposeRoles: seq<string>,
    approveRoles: seq<string>, autoApprove: bool, independence: bool, counterpartyField: Option<string>,
    input: Option<set<string>>, conditions: seq<Condition>, effects: seq<Effect>)

  datatype Policy = Policy(id: string, cls: string, windowDays: nat, piiOnly: bool, erasure: bool)

  // ---- roles ---------------------------------------------------------------------------

  datatype Role = Role(
    name: string, oidc: seq<string>, permissions: seq<string>, pii: bool, incompatible: seq<string>)

  const PERM_MEMBERS := "members"
  const PERM_RETENTION := "retention"
  const PERM_ERASURE := "erasure"
  const PERM_PROPOSE := "propose"
  const PERM_APPROVE := "approve"

  // ---- a schema pack ---------------------------------------------------------------------

  datatype Pack = Pack(
    tenant: string,
    classes: map<string, Class>, workflows: map<string, Workflow>, policies: map<string, Policy>,
    roles: map<string, Role>,
    digest: (Envelope, seq<Op>) -> Digest,
    accepts: (string, Payload) -> bool,
    acceptsInput: (string, Payload) -> bool,
    sprint: Canon.Value -> string,
    coerce: (string, Canon.Value) -> Canon.Value,
    renderText: (string, Context) -> string,
    renderPayload: (string, Context) -> Payload,
    count: (string, Db, Context) -> nat,
    pick: (string, Db, Context) -> Option<Id>,
    context: (Db, Subject) -> Context)

  /** What the templates and conditions of a workflow can name. */
  datatype Subject = Subject(sub: string, acting: string, taskId: Id, objectId: Id, payload: Payload, at: int)

  function ClassNames(e: Effect): set<string> {
    match e
    case RecordEffect => {}
    case SetStatusEffect(_, cls, _, _) => if cls == "" then {} else {cls}
    case CreateEffect(cls, _, _) => {cls}
    case OpenLinkEffect(cls, _, _) => {cls}
    case CloseLinkEffect(cls, _, _, _, _) => {cls}
  }

  /** The rules `validate` holds one workflow to, as far as the register relies on them. */
  ghost predicate WorkflowOk(p: Pack, wf: Workflow) {
    && wf.cls in p.classes
    && (wf.action.StatusAction? ==> wf.status in p.classes[wf.cls].statuses)
    && (wf.approveRoles != [] || wf.autoApprove)
    && (forall i :: 0 <= i < |wf.effects| ==> ClassNames(wf.effects[i]) <= p.classes.Keys)
  }

  /** `NewModel`: roles are named, and name only declared roles as incompatible. */
  ghost predicate RolesOk(roles: map<string, Role>) {
    forall name :: name in roles ==>
      && roles[name].name == name && name != ""
      && forall other :: other in roles[name].incompatible ==> other in roles
  }

  ghost predicate PackOk(p: Pack) {
    && ClassesOk(p.classes)
    && (forall name :: name in p.workflows ==> p.workflows[name].name == name && WorkflowOk(p, p.workflows[name]))
    && (forall id :: id in p.policies ==> p.policies[id].id == id && p.policies[id].cls in p.classes)
    && RolesOk(p.roles)
  }
}
