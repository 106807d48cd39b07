/**
 Granting and revoking access to a home directory (internal/homeaccess/platform_linux.go): what the
 walk writes, as a list of single writes of extended attributes.  An interruption anywhere leaves the
 effect of a prefix of that list.

 The filesystem is a finite tree whose nodes carry a kind, a device and mode bits, beside a store of
 extended attributes.  Each node is visited once, so what is written to it depends only on what it
 had when the walk began.
 */
module HomeTree {
  import opened Wrappers
  import opened Acl
  import opened AclCodec

  type NodeId = nat

  datatype Kind = Regular | Directory | Special

  datatype Tree = Node(id: NodeId, kind: Kind, device: nat, mode: u32, children: seq<Tree>)

  /** The two lists of a node, and the users for which the two markers are set on it. */
  datatype Attrs = Attrs(access: Option<Bytes>, default_: Option<Bytes>, created: set<u32>, complete: set<u32>)

  const NOTHING := Attrs(None, None, {}, {})

  type Store = map<NodeId, Attrs>

  function At(s: Store, id: NodeId): Attrs {
    if id in s then s[id] else NOTHING
  }

  datatype Action = Grant | Revoke

  datatype Change =
    | SetAccess(data: Bytes)
    | SetDefault(data: Bytes)
    | CreateDefault(data: Bytes)     // where there was none, right after marking it
    | DropDefault
    | MarkCreated
    | DropCreated
    | MarkComplete
    | DropComplete

  datatype Write = Write(node: NodeId, change: Change)

  function Do(x: Attrs, uid: u32, c: Change): Attrs {
    match c
    case SetAccess(data) => x.(access := Some(data))
    case SetDefault(data) => x.(default_ := Some(data))
    case CreateDefault(data) => x.(default_ := Some(data))
    case DropDefault => x.(default_ := None)
    case MarkCreated => x.(created := x.created + {uid})
    case DropCreated => x.(created := x.created - {uid})
    case MarkComplete => x.(complete := x.complete + {uid})
    case DropComplete => x.(complete := x.complete - {uid})
  }

  function DoAll(x: Attrs, uid: u32, changes: seq<Change>): Attrs
    decreases |changes|
  {
    if changes == [] then x else DoAll(Do(x, uid, changes[0]), uid, changes[1..])
  }

  function Perform(s: Store, uid: u32, w: Write): Store {
    s[w.node := Do(At(s, w.node), uid, w.change)]
  }

  function PerformAll(s: Store, uid: u32, ws: seq<Write>): Store
    decreases |ws|
  {
    if ws == [] then s else PerformAll(Perform(s, uid, ws[0]), uid, ws[1..])
  }

  /** What is written, and whether it goes on after that or stops with an error. */
  datatype Plan<T> = Plan(writes: seq<T>, ok: bool)

  function Then<T>(p: Plan<T>, next: Plan<T>): Plan<T> {
    if p.ok then Plan(p.writes + next.writes, next.ok) else p
  }

  /** A missing attribute reads as `missing`; a malformed one stops the walk. */
  function Read(data: Option<Bytes>, missing: Entries): Result<Entries, ParseError> {
    match data
    case None => Success(missing)
    case Some(b) => Parse(b)
  }

  function Execute(mode: u32): bool {
    (mode / 64) % 2 == 1 || (mode / 8) % 2 == 1 || mode % 2 == 1
  }

  /** The access a grant gives to a node: everything on directories and executables, else reading and writing. */
  function Required(t: Tree): u16 {
    if t.kind.Directory? || Execute(t.mode) then 7 else 6
  }

  function GrantDefault(x: Attrs, uid: u32, base: Entries): Plan<Change> {
    match Read(x.default_, base)
    case Failure(_) => Plan([], false)
    case Success(value) =>
      var data := Encode(GrantUser(value, uid, 7));
      Plan(if x.default_.None? then [MarkCreated, CreateDefault(data)] else [SetDefault(data)], true)
  }

  function GrantNode(t: Tree, x: Attrs, uid: u32): Plan<Change> {
    match Read(x.access, BaseACL(t.mode))
    case Failure(_) => Plan([], false)
    case Success(value) =>
      var access := GrantUser(value, uid, Required(t));
      Then(Plan([SetAccess(Encode(access))], true),
           if t.kind.Directory? then GrantDefault(x, uid, Base(access)) else Plan([], true))
  }

  function RevokeDefault(x: Attrs, uid: u32): Plan<Change> {
    if x.default_.None? then Plan([DropCreated], true)
    else match Parse(x.default_.value)
      case Failure(_) => Plan([], false)
      case Success(value) =>
        var (rest, removed) := RevokeUser(value, uid);
        if uid in x.created && !HasNamedEntries(rest) then Plan([DropDefault, DropCreated], true)
        else if removed then Plan([SetDefault(Encode(rest))], true)
        else Plan([], true)
  }

  function RevokeNode(t: Tree, x: Attrs, uid: u32): Plan<Change> {
    Then(if t.kind.Directory? then RevokeDefault(x, uid) else Plan([], true), RevokeAccess(t, x, uid))
  }

  function RevokeAccess(t: Tree, x: Attrs, uid: u32): Plan<Change> {
    match Read(x.access, BaseACL(t.mode))
    case Failure(_) => Plan([], false)
    case Success(value) =>
      var (rest, removed) := RevokeUser(value, uid);
      Plan(if removed then [SetAccess(Encode(rest))] else [], true)
  }

  function NodePlan(t: Tree, x: Attrs, action: Action, uid: u32): Plan<Change> {
    match action
    case Grant => GrantNode(t, x, uid)
    case Revoke => RevokeNode(t, x, uid)
  }

  function WritesTo(id: NodeId, changes: seq<Change>): seq<Write> {
    if changes == [] then [] else [Write(id, changes[0])] + WritesTo(id, changes[1..])
  }

  function Lift(id: NodeId, p: Plan<Change>): Plan<Write> {
    Plan(WritesTo(id, p.writes), p.ok)
  }

  /** Whether the walk enters a child: a file or directory of the same device.  Opening a symbolic link,
      a socket or a pipe fails or yields another kind, and is passed over. */
  predicate Enters(t: Tree, device: nat) {
    t.device == device && !t.kind.Special?
  }

  /** The walk from a node it has entered: the node first, then its children in turn. */
  function WalkPlan(s: Store, t: Tree, device: nat, action: Action, uid: u32): Plan<Write>
    decreases t, 1
  {
    Then(Lift(t.id, NodePlan(t, At(s, t.id), action, uid)),
         if t.kind.Directory? then WalkChildren(s, t.children, device, action, uid) else Plan([], true))
  }

  function WalkChildren(s: Store, ts: seq<Tree>, device: nat, action: Action, uid: u32): Plan<Write>
    decreases ts, 0
  {
    if ts == [] then Plan([], true)
    else
      Then(if Enters(ts[0], device) then WalkPlan(s, ts[0], device, action, uid) else Plan([], true),
           WalkChildren(s, ts[1..], device, action, uid))
  }

  /** One call of `platformManage`: only a directory can be opened as a home.  `clears` says whether the
      removal of the completion marker at the start of a grant, whose error the code ignores, takes
      effect. */
  function ManagePlan(s: Store, home: Tree, action: Action, uid: u32, clears: bool): Plan<Write> {
    if !home.kind.Directory? then Plan([], false)
    else
      var walk := WalkPlan(s, home, home.device, action, uid);
      match action
      case Grant =>
        Then(Plan(if clears then [Write(home.id, DropComplete)] else [], true), Then(walk, Plan([Write(home.id, MarkComplete)], true)))
      case Revoke =>
        Then(walk, Plan([Write(home.id, DropComplete)], true))
  }

  datatype Status = Enabled | Partial | Disabled | Broken

  /** A list is present, well-formed, and gives the user's entry the wanted permissions under its mask. */
  predicate ListHas(data: Option<Bytes>, uid: u32, wanted: u16) {
    data.Some? && Parse(data.value).Success? && UserHas(Parse(data.value).value, uid, wanted)
  }

  predicate Malformed(data: Option<Bytes>) {
    data.Some? && Parse(data.value).Failure?
  }

  function StatusOf(x: Attrs, uid: u32): Status {
    if Malformed(x.access) || Malformed(x.default_) then Broken
    else if ListHas(x.access, uid, 7) && ListHas(x.default_, uid, 7) && uid in x.complete then Enabled
    else if ListHas(x.access, uid, 7) || ListHas(x.default_, uid, 7) then Partial
    else Disabled
  }

  // The nodes of a tree.

  function Ids(t: Tree): set<NodeId>
    decreases t, 1
  {
    {t.id} + IdsOf(t.children)
  }

  function IdsOf(ts: seq<Tree>): set<NodeId>
    decreases ts, 0
  {
    if ts == [] then {} else Ids(ts[0]) + IdsOf(ts[1..])
  }

  /** No node occurs twice: there are no hard links. */
  predicate Simple(t: Tree)
    decreases t, 1
  {
    t.id !in IdsOf(t.children) && SimpleAll(t.children)
  }

  predicate SimpleAll(ts: seq<Tree>)
    decreases ts, 0
  {
    ts == [] || (Simple(ts[0]) && SimpleAll(ts[1..]) && Ids(ts[0]) !! IdsOf(ts[1..]))
  }

  /** The files and directories in the boundary: reached through directories of one device. */
  function Covered(t: Tree, device: nat): seq<Tree>
    decreases t, 1
  {
    [t] + if t.kind.Directory? then CoveredAll(t.children, device) else []
  }

  function CoveredAll(ts: seq<Tree>, device: nat): seq<Tree>
    decreases ts, 0
  {
    if ts == [] then [] else (if Enters(ts[0], device) then Covered(ts[0], device) else []) + CoveredAll(ts[1..], device)
  }
}
