/** view.go: the graph behind chainDiagram, found by a breadth-first search from the focus job. */
module Diagram {
  import opened Prelude
  import opened JobConfig
  import opened Protocol

  datatype Kind = OnSuccess | OnFailure

  datatype Edge = Edge(source: string, target: string, kind: Kind)

  /** Level 0 is the focus, positive levels are downstream, -1 is a direct parent found nowhere else. */
  datatype Node = Node(name: string, level: int, isFocus: bool)

  datatype Item = Item(name: string, level: nat)

  /** The local variables of the search. */
  datatype Search = Search(nodes: map<string, Node>, edges: seq<Edge>, seenEdge: set<string>, queue: seq<Item>)

  function Targets(job: Job, kind: Kind): seq<string> {
    match kind
    case OnSuccess => job.onSuccess
    case OnFailure => job.onFailure
  }

  function KindName(kind: Kind): string {
    match kind
    case OnSuccess => "success"
    case OnFailure => "failure"
  }

  function Key(e: Edge): string {
    e.source + ">" + e.target + ":" + KindName(e.kind)
  }

  function AddEdge(g: Search, e: Edge): Search {
    if Key(e) in g.seenEdge then g
    else g.(seenEdge := g.seenEdge + {Key(e)}, edges := g.edges + [e])
  }

  function AddNode(g: Search, name: string, level: nat): Search {
    if name in g.nodes then g
    else g.(nodes := g.nodes[name := Node(name, level, false)], queue := g.queue + [Item(name, level)])
  }

  /** One round of the search's inner loop. */
  function Visit(g: Search, cur: Item, target: string, kind: Kind): Search {
    AddNode(AddEdge(g, Edge(cur.name, target, kind)), target, cur.level + 1)
  }

  // What the search is about.

  predicate Link(c: Config, a: string, b: string, kind: Kind) {
    Lookup(c, a).Some? && b in Targets(Lookup(c, a).value, kind)
  }

  predicate Linked(c: Config, a: string, b: string) {
    Link(c, a, b, OnSuccess) || Link(c, a, b, OnFailure)
  }

  /** k chain links lead from the focus to the job. */
  ghost predicate Walk(c: Config, focus: string, name: string, k: nat)
    decreases k
  {
    if k == 0 then name == focus
    else exists p :: Walk(c, focus, p, k - 1) && Linked(c, p, name)
  }

  /** Every name a search can meet. */
  function Universe(c: Config, focus: string): set<string> {
    {focus} + set i, m | 0 <= i < |c.jobs| && 0 <= m < |References(c.jobs[i])| :: References(c.jobs[i])[m]
  }

  lemma LinkedInUniverse(c: Config, focus: string, a: string, b: string)
    requires Linked(c, a, b)
    ensures b in Universe(c, focus)
  {
    var job := Lookup(c, a).value;
    var i :| 0 <= i < |c.jobs| && c.jobs[i] == job;
    assert b in References(job);
    var m :| 0 <= m < |References(job)| && References(job)[m] == b;
    assert References(c.jobs[i])[m] == b;
  }

  // The search's invariant.

  ghost predicate Queued(queue: seq<Item>, name: string) {
    exists i :: 0 <= i < |queue| && queue[i].name == name
  }

  function Keys(edges: seq<Edge>): (keys: seq<string>)
    ensures |keys| == |edges| && forall i :: 0 <= i < |edges| ==> keys[i] == Key(edges[i])
  {
    seq(|edges|, i requires 0 <= i < |edges| => Key(edges[i]))
  }

  /** Each node was reached, in as many links as its level says. */
  ghost predicate NodesOk(c: Config, focus: string, nodes: map<string, Node>) {
    && focus in nodes && nodes[focus].level == 0
    && nodes.Keys <= Universe(c, focus)
    && (forall n :: n in nodes ==>
          && nodes[n].name == n && (nodes[n].isFocus <==> n == focus)
          && 0 <= nodes[n].level <= MAX_CHAIN_DEPTH && Walk(c, focus, n, nodes[n].level))
  }

  /** The queue holds distinct nodes in order of level, spanning at most `level` and the one after. */
  ghost predicate QueueOk(nodes: map<string, Node>, queue: seq<Item>, level: nat) {
    && (forall i :: 0 <= i < |queue| ==> queue[i].name in nodes && nodes[queue[i].name].level == queue[i].level)
    && (forall i, k :: 0 <= i < k < |queue| ==> queue[i].name != queue[k].name && queue[i].level <= queue[k].level)
    && (forall i :: 0 <= i < |queue| ==> level <= queue[i].level <= level + 1)
    && (forall n :: n in nodes && !Queued(queue, n) ==> nodes[n].level <= level)
  }

  ghost predicate IntoFocus(c: Config, focus: string, e: Edge) {
    e.target == focus && exists j :: j in c.jobs && j.name == e.source && focus in Targets(j, e.kind)
  }

  /** An out-edge of a node below the depth limit, or an edge into the focus. */
  ghost predicate Wanted(c: Config, focus: string, nodes: map<string, Node>, e: Edge) {
    || (e.source in nodes && 0 <= nodes[e.source].level < MAX_CHAIN_DEPTH && Link(c, e.source, e.target, e.kind))
    || IntoFocus(c, focus, e)
  }

  ghost predicate KeysOk(keys: seq<string>, seen: set<string>) {
    && (forall k :: k in seen <==> k in keys)
    && (forall i, k :: 0 <= i < k < |keys| ==> keys[i] != keys[k])
  }

  /** Edges are wanted, and seenEdge holds their keys, each of them once. */
  ghost predicate EdgesOk(c: Config, focus: string, nodes: map<string, Node>, edges: seq<Edge>, seen: set<string>) {
    && (forall i :: 0 <= i < |edges| ==> Wanted(c, focus, nodes, edges[i]))
    && KeysOk(Keys(edges), seen)
  }

  /** The node's link has been followed: the target is a node no more than one level down, the edge is drawn. */
  predicate Drawn(nodes: map<string, Node>, seen: set<string>, n: string, t: string, kind: Kind)
    requires n in nodes
  {
    t in nodes && nodes[t].level <= nodes[n].level + 1 && Key(Edge(n, t, kind)) in seen
  }

  ghost predicate Followed(c: Config, nodes: map<string, Node>, seen: set<string>, n: string)
    requires n in nodes
  {
    nodes[n].level < MAX_CHAIN_DEPTH ==>
      forall t, kind :: Link(c, n, t, kind) ==> Drawn(nodes, seen, n, t, kind)
  }

  ghost predicate AllFollowed(c: Config, g: Search, except: set<string>) {
    forall n :: n in g.nodes && !Queued(g.queue, n) && n !in except ==> Followed(c, g.nodes, g.seenEdge, n)
  }

  ghost predicate Inv(c: Config, focus: string, g: Search, level: nat, except: set<string>) {
    && NodesOk(c, focus, g.nodes) && QueueOk(g.nodes, g.queue, level)
    && EdgesOk(c, focus, g.nodes, g.edges, g.seenEdge) && AllFollowed(c, g, except)
  }

  lemma NewKey(keys: seq<string>, seen: set<string>, key: string)
    requires KeysOk(keys, seen) && key !in seen
    ensures KeysOk(keys + [key], seen + {key})
  {
  }

  lemma KeysAfterAdd(g: Search, e: Edge)
    requires KeysOk(Keys(g.edges), g.seenEdge)
    ensures KeysOk(Keys(AddEdge(g, e).edges), AddEdge(g, e).seenEdge)
  {
    if Key(e) !in g.seenEdge {
      NewKey(Keys(g.edges), g.seenEdge, Key(e));
      assert Keys(g.edges + [e]) == Keys(g.edges) + [Key(e)];
    }
  }

  /** More nodes and more edges undo nothing. */
  lemma FollowedGrows(c: Config, g: Search, h: Search, except: set<string>)
    requires AllFollowed(c, g, except) && g.seenEdge <= h.seenEdge
    requires forall n :: n in g.nodes ==> n in h.nodes && h.nodes[n] == g.nodes[n]
    requires forall n :: n in h.nodes && !Queued(h.queue, n) ==> n in g.nodes && !Queued(g.queue, n)
    ensures AllFollowed(c, h, except)
  {
    forall n | n in h.nodes && !Queued(h.queue, n) && n !in except
      ensures Followed(c, h.nodes, h.seenEdge, n)
    {
      assert Followed(c, g.nodes, g.seenEdge, n);
      forall t, kind | h.nodes[n].level < MAX_CHAIN_DEPTH && Link(c, n, t, kind)
        ensures Drawn(h.nodes, h.seenEdge, n, t, kind)
      {
        assert Drawn(g.nodes, g.seenEdge, n, t, kind);
      }
    }
  }

  lemma AddEdgeKeeps(c: Config, focus: string, g: Search, level: nat, except: set<string>, e: Edge)
    requires Inv(c, focus, g, level, except) && Wanted(c, focus, g.nodes, e)
    ensures Inv(c, focus, AddEdge(g, e), level, except)
    ensures Key(e) in AddEdge(g, e).seenEdge && g.seenEdge <= AddEdge(g, e).seenEdge
  {
    KeysAfterAdd(g, e);
    FollowedGrows(c, g, AddEdge(g, e), except);
  }

  lemma OneMoreLink(c: Config, focus: string, a: string, b: string, k: nat)
    requires Walk(c, focus, a, k) && Linked(c, a, b)
    ensures Walk(c, focus, b, k + 1)
  {
  }

  lemma Reached(c: Config, focus: string, nodes: map<string, Node>, cur: Item, t: string)
    requires NodesOk(c, focus, nodes) && t !in nodes
    requires cur.name in nodes && nodes[cur.name].level == cur.level < MAX_CHAIN_DEPTH && Linked(c, cur.name, t)
    ensures NodesOk(c, focus, nodes[t := Node(t, cur.level + 1, false)])
  {
    hide Universe, Linked;
    LinkedInUniverse(c, focus, cur.name, t);
    OneMoreLink(c, focus, cur.name, t, cur.level);
    hide Walk;
  }

  lemma StillWanted(c: Config, focus: string, nodes: map<string, Node>, more: map<string, Node>, edges: seq<Edge>)
    requires forall n :: n in nodes ==> n in more && more[n] == nodes[n]
    requires forall i :: 0 <= i < |edges| ==> Wanted(c, focus, nodes, edges[i])
    ensures forall i :: 0 <= i < |edges| ==> Wanted(c, focus, more, edges[i])
  {
    forall i | 0 <= i < |edges|
      ensures Wanted(c, focus, more, edges[i])
    {
      assert Wanted(c, focus, nodes, edges[i]);
    }
  }

  /** A new node goes to the back of the queue. */
  lemma Enqueued(nodes: map<string, Node>, queue: seq<Item>, t: string, level: nat)
    requires QueueOk(nodes, queue, level) && t !in nodes
    ensures var queue' := queue + [Item(t, level + 1)];
      && QueueOk(nodes[t := Node(t, level + 1, false)], queue', level)
      && forall n :: Queued(queue', n) <==> Queued(queue, n) || n == t
  {
    var queue' := queue + [Item(t, level + 1)];
    forall n
      ensures Queued(queue', n) <==> Queued(queue, n) || n == t
    {
      if Queued(queue, n) {
        var i :| 0 <= i < |queue| && queue[i].name == n;
        assert queue'[i].name == n;
      }
      assert queue'[|queue|].name == t;
    }
  }

  lemma LevelOfNode(g: Search, t: string, level: nat)
    requires QueueOk(g.nodes, g.queue, level) && t in g.nodes
    ensures g.nodes[t].level <= level + 1
  {
    if Queued(g.queue, t) {
      var i :| 0 <= i < |g.queue| && g.queue[i].name == t;
    }
  }

  lemma AddNodeKeeps(c: Config, focus: string, g: Search, cur: Item, t: string, except: set<string>)
    requires Inv(c, focus, g, cur.level, except)
    requires cur.name in g.nodes && g.nodes[cur.name].level == cur.level < MAX_CHAIN_DEPTH && Linked(c, cur.name, t)
    ensures Inv(c, focus, AddNode(g, t, cur.level + 1), cur.level, except)
    ensures var h := AddNode(g, t, cur.level + 1);
      t in h.nodes && h.nodes[t].level <= cur.level + 1
  {
    hide Queued, QueueOk, KeysOk, Keys, Wanted, Followed, Universe, Walk;
    var h := AddNode(g, t, cur.level + 1);
    if t !in g.nodes {
      Reached(c, focus, g.nodes, cur, t);
      Enqueued(g.nodes, g.queue, t, cur.level);
      assert forall n :: Queued(h.queue, n) <==> Queued(g.queue, n) || n == t;
      StillWanted(c, focus, g.nodes, h.nodes, g.edges);
      FollowedGrows(c, g, h, except);
    } else {
      LevelOfNode(g, t, cur.level);
    }
  }

  /** g only grew into h, and the queue only if a node came with it. */
  ghost predicate Grows(g: Search, h: Search) {
    && (forall n :: n in g.nodes ==> n in h.nodes && h.nodes[n] == g.nodes[n])
    && g.seenEdge <= h.seenEdge
    && (h.nodes == g.nodes ==> h.queue == g.queue)
  }

  lemma GrowsOn(g: Search, h: Search, k: Search)
    requires Grows(g, h) && Grows(h, k)
    ensures Grows(g, k)
  {
    assert g.nodes.Keys <= h.nodes.Keys <= k.nodes.Keys;
    if k.nodes == g.nodes {
      assert h.nodes.Keys == g.nodes.Keys;
      assert h.nodes == g.nodes;
    }
  }

  lemma VisitGrows(g: Search, cur: Item, t: string, kind: Kind)
    ensures Grows(g, Visit(g, cur, t, kind))
  {
  }

  /** The item being expanded: taken from the queue, below the limit, its job known. */
  ghost predicate Expanding(c: Config, focus: string, g: Search, cur: Item) {
    && Inv(c, focus, g, cur.level, {cur.name})
    && cur.name in g.nodes && g.nodes[cur.name].level == cur.level < MAX_CHAIN_DEPTH
  }

  lemma VisitKeeps(c: Config, focus: string, g: Search, cur: Item, t: string, kind: Kind)
    requires Expanding(c, focus, g, cur) && Link(c, cur.name, t, kind)
    ensures var h := Visit(g, cur, t, kind);
      Expanding(c, focus, h, cur) && Drawn(h.nodes, h.seenEdge, cur.name, t, kind)
  {
    hide Inv;
    var e := Edge(cur.name, t, kind);
    var g1 := AddEdge(g, e);
    assert Linked(c, cur.name, t);
    AddEdgeKeeps(c, focus, g, cur.level, {cur.name}, e);
    assert g1.nodes == g.nodes;
    AddNodeKeeps(c, focus, g1, cur, t, {cur.name});
    VisitGrows(g, cur, t, kind);
  }

  lemma DrawnListGrows(g: Search, h: Search, n: string, targets: seq<string>, kind: Kind)
    requires Grows(g, h) && n in g.nodes
    requires forall t :: t in targets ==> Drawn(g.nodes, g.seenEdge, n, t, kind)
    ensures forall t :: t in targets ==> Drawn(h.nodes, h.seenEdge, n, t, kind)
  {
  }

  /** The closure `step` of the search: draw the edges of one kind and queue the jobs not met yet. */
  method StepTargets(c: Config, ghost focus: string, g: Search, cur: Item, targets: seq<string>, kind: Kind)
    returns (h: Search)
    requires Expanding(c, focus, g, cur)
    requires Lookup(c, cur.name).Some? && targets == Targets(Lookup(c, cur.name).value, kind)
    ensures Expanding(c, focus, h, cur) && Grows(g, h)
    ensures forall t :: t in targets ==> Drawn(h.nodes, h.seenEdge, cur.name, t, kind)
  {
    hide Inv;
    h := g;
    for i := 0 to |targets|
      invariant Expanding(c, focus, h, cur) && Grows(g, h)
      invariant forall t :: t in targets[..i] ==> Drawn(h.nodes, h.seenEdge, cur.name, t, kind)
    {
      ghost var was := h;
      VisitKeeps(c, focus, h, cur, targets[i], kind);
      VisitGrows(h, cur, targets[i], kind);
      h := Visit(h, cur, targets[i], kind);
      GrowsOn(g, was, h);
      DrawnListGrows(was, h, cur.name, targets[..i], kind);
    }
  }

  /** The queue without its head. */
  lemma Dequeued(nodes: map<string, Node>, queue: seq<Item>, level: nat)
    requires QueueOk(nodes, queue, level) && queue != []
    ensures queue[0].name in nodes && nodes[queue[0].name].level == queue[0].level
    ensures forall n :: Queued(queue[1..], n) <==> Queued(queue, n) && n != queue[0].name
    ensures QueueOk(nodes, queue[1..], queue[0].level)
  {
    var rest := queue[1..];
    forall n
      ensures Queued(rest, n) <==> Queued(queue, n) && n != queue[0].name
    {
      if Queued(queue, n) && n != queue[0].name {
        var i :| 0 <= i < |queue| && queue[i].name == n;
        assert rest[i - 1].name == n;
      }
      if Queued(rest, n) {
        var i :| 0 <= i < |rest| && rest[i].name == n;
        assert queue[i + 1].name == n;
      }
    }
    forall n | n in nodes && !Queued(rest, n)
      ensures nodes[n].level <= queue[0].level
    {
    }
  }

  lemma Popped(c: Config, focus: string, g: Search, level: nat)
    requires Inv(c, focus, g, level, {}) && g.queue != []
    ensures var cur := g.queue[0];
      && cur.name in g.nodes && g.nodes[cur.name].level == cur.level
      && Inv(c, focus, g.(queue := g.queue[1..]), cur.level, {cur.name})
  {
    hide Queued, QueueOk, NodesOk, EdgesOk, Followed;
    Dequeued(g.nodes, g.queue, level);
    assert AllFollowed(c, g.(queue := g.queue[1..]), {g.queue[0].name});
  }

  /** All its links drawn, the expanded node counts as followed. */
  lemma Expanded(c: Config, focus: string, g: Search, cur: Item)
    requires Inv(c, focus, g, cur.level, {cur.name}) && cur.name in g.nodes && g.nodes[cur.name].level == cur.level
    requires cur.level < MAX_CHAIN_DEPTH && Lookup(c, cur.name).Some? ==>
      forall t, kind :: Link(c, cur.name, t, kind) ==> Drawn(g.nodes, g.seenEdge, cur.name, t, kind)
    ensures Inv(c, focus, g, cur.level, {})
  {
    assert Followed(c, g.nodes, g.seenEdge, cur.name);
  }

  lemma LessIsLeft(u: set<string>, a: set<string>, b: set<string>)
    requires a <= b <= u
    ensures |u - b| <= |u - a| && (a != b ==> |u - b| < |u - a|)
  {
    assert u - a == (u - b) + (b - a);
    assert a != b ==> exists x :: x in b - a;
  }

  lemma Remaining(c: Config, focus: string, g: Search, h: Search)
    requires Grows(g, h) && h.nodes.Keys <= Universe(c, focus)
    ensures |Universe(c, focus) - h.nodes.Keys| <= |Universe(c, focus) - g.nodes.Keys|
    ensures h.nodes != g.nodes ==> |Universe(c, focus) - h.nodes.Keys| < |Universe(c, focus) - g.nodes.Keys|
  {
    assert h.nodes != g.nodes ==> h.nodes.Keys != g.nodes.Keys;
    LessIsLeft(Universe(c, focus), g.nodes.Keys, h.nodes.Keys);
  }

  lemma Starts(c: Config, focus: string)
    ensures Inv(c, focus, Search(map[focus := Node(focus, 0, true)], [], {}, [Item(focus, 0)]), 0, {})
  {
    var g := Search(map[focus := Node(focus, 0, true)], [], {}, [Item(focus, 0)]);
    assert g.queue[0].name == focus;
  }

  lemma NothingNew(g: Search, h: Search)
    requires Grows(g, h) && h.nodes == g.nodes
    ensures h.queue == g.queue
  {
  }

  lemma BothListsDrawn(c: Config, half: Search, g: Search, n: string, job: Job)
    requires Grows(half, g) && n in half.nodes && n in g.nodes && Lookup(c, n) == Some(job)
    requires forall t :: t in job.onSuccess ==> Drawn(half.nodes, half.seenEdge, n, t, OnSuccess)
    requires forall t :: t in job.onFailure ==> Drawn(g.nodes, g.seenEdge, n, t, OnFailure)
    ensures forall t, kind :: Link(c, n, t, kind) ==> Drawn(g.nodes, g.seenEdge, n, t, kind)
  {
    DrawnListGrows(half, g, n, job.onSuccess, OnSuccess);
  }

  /** Both lists drawn: the item is done with, and the search is nearer its end. */
  lemma RoundDone(c: Config, focus: string, popped: Search, half: Search, g: Search, cur: Item, job: Job)
    requires Grows(popped, half) && Grows(half, g) && Expanding(c, focus, g, cur) && cur.name in half.nodes
    requires Lookup(c, cur.name) == Some(job)
    requires forall t :: t in job.onSuccess ==> Drawn(half.nodes, half.seenEdge, cur.name, t, OnSuccess)
    requires forall t :: t in job.onFailure ==> Drawn(g.nodes, g.seenEdge, cur.name, t, OnFailure)
    ensures Inv(c, focus, g, cur.level, {})
    ensures (g.nodes == popped.nodes && g.queue == popped.queue)
      || |Universe(c, focus) - g.nodes.Keys| < |Universe(c, focus) - popped.nodes.Keys|
  {
    hide QueueOk, EdgesOk, AllFollowed, Drawn, Universe, Walk, Grows;
    GrowsOn(popped, half, g);
    if g.nodes == popped.nodes {
      NothingNew(popped, g);
    }
    Remaining(c, focus, popped, g);
    BothListsDrawn(c, half, g, cur.name, job);
    Expanded(c, focus, g, cur);
  }

  lemma Finished(c: Config, focus: string, g: Search, level: nat)
    requires Inv(c, focus, g, level, {}) && g.queue == []
    ensures NodesOk(c, focus, g.nodes) && EdgesOk(c, focus, g.nodes, g.edges, g.seenEdge)
    ensures forall n :: n in g.nodes ==> Followed(c, g.nodes, g.seenEdge, n)
  {
    assert forall n :: !Queued(g.queue, n);
  }

  /** The downstream search. It ends on every graph, and then every node below the limit has been followed. */
  method Downstream(c: Config, focus: string) returns (g: Search)
    ensures NodesOk(c, focus, g.nodes) && EdgesOk(c, focus, g.nodes, g.edges, g.seenEdge)
    ensures forall n :: n in g.nodes ==> Followed(c, g.nodes, g.seenEdge, n)
  {
    hide Inv, Drawn, Universe, Grows, Lookup;
    g := Search(map[focus := Node(focus, 0, true)], [], {}, [Item(focus, 0)]);
    ghost var level := 0;
    Starts(c, focus);
    while g.queue != []
      invariant Inv(c, focus, g, level, {})
      decreases |Universe(c, focus) - g.nodes.Keys|, |g.queue|
    {
      var cur := g.queue[0];
      Popped(c, focus, g, level);
      level := cur.level;
      g := g.(queue := g.queue[1..]);
      ghost var popped := g;
      var found := JobNamed(c, cur.name);
      if found.None? || cur.level >= MAX_CHAIN_DEPTH {
        Expanded(c, focus, g, cur);
        continue;
      }
      g := StepTargets(c, focus, g, cur, found.value.onSuccess, OnSuccess);
      ghost var half := g;
      g := StepTargets(c, focus, g, cur, found.value.onFailure, OnFailure);
      RoundDone(c, focus, popped, half, g, cur, found.value);
    }
    Finished(c, focus, g, level);
  }

  lemma LinksAreFound(c: Config, g: Search, p: string, name: string)
    requires p in g.nodes && g.nodes[p].level < MAX_CHAIN_DEPTH
    requires Followed(c, g.nodes, g.seenEdge, p) && Linked(c, p, name)
    ensures name in g.nodes && g.nodes[name].level <= g.nodes[p].level + 1
  {
    if Link(c, p, name, OnSuccess) {
      assert Drawn(g.nodes, g.seenEdge, p, name, OnSuccess);
    } else {
      assert Drawn(g.nodes, g.seenEdge, p, name, OnFailure);
    }
  }

  lemma FocusIsFound(c: Config, focus: string, g: Search)
    requires NodesOk(c, focus, g.nodes)
    ensures focus in g.nodes && g.nodes[focus].level == 0
  {
  }

  /** A walk within the limit ends at a node, at a level no higher than its length. */
  lemma {:induction false} WalksAreFound(c: Config, focus: string, g: Search, name: string, k: nat)
    requires NodesOk(c, focus, g.nodes)
    requires forall n :: n in g.nodes ==> Followed(c, g.nodes, g.seenEdge, n)
    requires Walk(c, focus, name, k) && k <= MAX_CHAIN_DEPTH
    ensures name in g.nodes && g.nodes[name].level <= k
    decreases k
  {
    hide NodesOk, Followed, Linked;
    if k == 0 {
      FocusIsFound(c, focus, g);
    } else {
      var p :| Walk(c, focus, p, k - 1) && Linked(c, p, name);
      WalksAreFound(c, focus, g, p, k - 1);
      LinksAreFound(c, g, p, name);
    }
  }

  // Direct parents of the focus, and the finished diagram.

  ghost predicate IsParent(c: Config, focus: string, name: string) {
    exists j :: j in c.jobs && j.name == name && focus in References(j)
  }

  /** Beyond the search's nodes there are only parents, on level -1. */
  ghost predicate ParentsOk(c: Config, focus: string, base: map<string, Node>, nodes: map<string, Node>) {
    && (forall n :: n in base ==> n in nodes && nodes[n] == base[n])
    && (forall n :: n in nodes && n !in base ==> nodes[n] == Node(n, -1, false) && IsParent(c, focus, n))
  }

  function AddParent(g: Search, name: string, focus: string, kind: Kind): Search {
    AddEdge(if name in g.nodes then g else g.(nodes := g.nodes[name := Node(name, -1, false)]),
            Edge(name, focus, kind))
  }

  ghost predicate ParentStage(c: Config, focus: string, base: map<string, Node>, g: Search) {
    ParentsOk(c, focus, base, g.nodes) && EdgesOk(c, focus, g.nodes, g.edges, g.seenEdge)
  }

  /** The parent and its edge are in the drawing. */
  predicate Shown(g: Search, name: string, focus: string, kind: Kind) {
    name in g.nodes && Key(Edge(name, focus, kind)) in g.seenEdge
  }

  predicate Extends(g: Search, h: Search) {
    g.nodes.Keys <= h.nodes.Keys && g.seenEdge <= h.seenEdge
  }

  lemma AddParentKeeps(c: Config, focus: string, base: map<string, Node>, g: Search, job: Job, kind: Kind)
    requires ParentStage(c, focus, base, g) && job in c.jobs && focus in Targets(job, kind)
    ensures var h := AddParent(g, job.name, focus, kind);
      ParentStage(c, focus, base, h) && Extends(g, h) && Shown(h, job.name, focus, kind)
  {
    var g1 := if job.name in g.nodes then g else g.(nodes := g.nodes[job.name := Node(job.name, -1, false)]);
    StillWanted(c, focus, g.nodes, g1.nodes, g.edges);
    KeysAfterAdd(g1, Edge(job.name, focus, kind));
    assert focus in References(job);
    assert IsParent(c, focus, job.name);
    assert IntoFocus(c, focus, Edge(job.name, focus, kind));
  }

  /** The closure `parent` of one job and kind. */
  method ParentTargets(c: Config, focus: string, ghost base: map<string, Node>, g: Search, job: Job, kind: Kind)
    returns (h: Search)
    requires ParentStage(c, focus, base, g) && job in c.jobs
    ensures ParentStage(c, focus, base, h) && Extends(g, h)
    ensures focus in Targets(job, kind) ==> Shown(h, job.name, focus, kind)
  {
    hide ParentStage;
    h := g;
    var targets := Targets(job, kind);
    for i := 0 to |targets|
      invariant ParentStage(c, focus, base, h) && Extends(g, h)
      invariant focus in targets[..i] ==> Shown(h, job.name, focus, kind)
    {
      if targets[i] != focus {
        continue;
      }
      AddParentKeeps(c, focus, base, h, job, kind);
      h := AddParent(h, job.name, focus, kind);
    }
  }

  /** All edges into the focus from the first i jobs of the file. */
  ghost predicate ParentsShown(c: Config, focus: string, g: Search, i: nat) {
    forall j, kind :: j in c.jobs[..Min(i, |c.jobs|)] && focus in Targets(j, kind) ==> Shown(g, j.name, focus, kind)
  }

  method Parents(c: Config, focus: string, g: Search) returns (h: Search)
    requires EdgesOk(c, focus, g.nodes, g.edges, g.seenEdge)
    ensures ParentStage(c, focus, g.nodes, h) && Extends(g, h) && ParentsShown(c, focus, h, |c.jobs|)
  {
    hide EdgesOk;
    h := g;
    for i := 0 to |c.jobs|
      invariant ParentStage(c, focus, g.nodes, h) && Extends(g, h) && ParentsShown(c, focus, h, i)
    {
      ghost var was := h;
      h := ParentTargets(c, focus, g.nodes, h, c.jobs[i], OnSuccess);
      ghost var half := h;
      h := ParentTargets(c, focus, g.nodes, h, c.jobs[i], OnFailure);
      forall j, kind | j in c.jobs[..i + 1] && focus in Targets(j, kind)
        ensures Shown(h, j.name, focus, kind)
      {
        if j in c.jobs[..i] {
          assert Shown(was, j.name, focus, kind);
        } else {
          assert j == c.jobs[i];
          assert kind.OnSuccess? ==> Shown(half, j.name, focus, kind);
        }
      }
    }
  }

  ghost predicate Within(c: Config, focus: string, name: string) {
    exists k :: 0 <= k <= MAX_CHAIN_DEPTH && Walk(c, focus, name, k)
  }

  /** The shortest walk to the job has k links. */
  ghost predicate Distance(c: Config, focus: string, name: string, k: nat) {
    Walk(c, focus, name, k) && forall m: nat :: Walk(c, focus, name, m) ==> k <= m
  }

  /** Nodes from level 0 on are exactly the jobs within the limit, each at its distance from the focus. */
  ghost predicate LevelsExact(c: Config, focus: string, nodes: map<string, Node>) {
    && (forall n :: n in nodes && nodes[n].level >= 0 <==> Within(c, focus, n))
    && (forall n :: n in nodes && nodes[n].level >= 0 ==> Distance(c, focus, n, nodes[n].level))
    && (forall n :: n in nodes && nodes[n].level < 0 ==> nodes[n].level == -1 && IsParent(c, focus, n))
    && (forall n :: IsParent(c, focus, n) ==> n in nodes)
    && (forall n :: n in nodes ==> nodes[n].name == n && (nodes[n].isFocus <==> n == focus))
  }

  /** The edges are wanted ones, no two with the same key, and every wanted edge's key is there. */
  ghost predicate EdgesExact(c: Config, focus: string, nodes: map<string, Node>, edges: seq<Edge>) {
    && (forall i :: 0 <= i < |edges| ==> Wanted(c, focus, nodes, edges[i]))
    && (forall i, k :: 0 <= i < k < |edges| ==> Key(edges[i]) != Key(edges[k]))
    && (forall e :: Wanted(c, focus, nodes, e) ==> Key(e) in Keys(edges))
  }

  lemma LevelsAreExact(c: Config, focus: string, g: Search, h: Search)
    requires NodesOk(c, focus, g.nodes)
    requires forall n :: n in g.nodes ==> Followed(c, g.nodes, g.seenEdge, n)
    requires ParentsOk(c, focus, g.nodes, h.nodes) && ParentsShown(c, focus, h, |c.jobs|)
    ensures LevelsExact(c, focus, h.nodes)
  {
    hide Universe, Followed, Linked;
    forall n, k: nat | Walk(c, focus, n, k) && k <= MAX_CHAIN_DEPTH
      ensures n in g.nodes && g.nodes[n].level <= k
    {
      WalksAreFound(c, focus, g, n, k);
    }
    forall n | IsParent(c, focus, n)
      ensures n in h.nodes
    {
      var j :| j in c.jobs && j.name == n && focus in References(j);
      assert c.jobs[..|c.jobs|] == c.jobs;
      assert focus in Targets(j, OnSuccess) || focus in Targets(j, OnFailure);
      assert Shown(h, n, focus, OnSuccess) || Shown(h, n, focus, OnFailure);
    }
  }

  lemma EdgesAreExact(c: Config, focus: string, g: Search, h: Search)
    requires NodesOk(c, focus, g.nodes)
    requires forall n :: n in g.nodes ==> Followed(c, g.nodes, g.seenEdge, n)
    requires ParentStage(c, focus, g.nodes, h) && ParentsShown(c, focus, h, |c.jobs|) && g.seenEdge <= h.seenEdge
    ensures EdgesExact(c, focus, h.nodes, h.edges)
  {
    forall e | Wanted(c, focus, h.nodes, e)
      ensures Key(e) in Keys(h.edges)
    {
      if IntoFocus(c, focus, e) {
        var j :| j in c.jobs && j.name == e.source && focus in Targets(j, e.kind);
        assert c.jobs[..|c.jobs|] == c.jobs;
        assert Shown(h, e.source, focus, e.kind);
      } else {
        assert Followed(c, g.nodes, g.seenEdge, e.source);
        assert Drawn(g.nodes, g.seenEdge, e.source, e.target, e.kind);
      }
    }
  }

  /** chainDiagram up to its layout. */
  method ChainDiagram(c: Config, focus: string) returns (nodes: map<string, Node>, edges: seq<Edge>)
    ensures LevelsExact(c, focus, nodes) && EdgesExact(c, focus, nodes, edges)
  {
    var g := Downstream(c, focus);
    var h := Parents(c, focus, g);
    LevelsAreExact(c, focus, g, h);
    EdgesAreExact(c, focus, g, h);
    return h.nodes, h.edges;
  }

  /** Both ends of every drawn edge are nodes. */
  lemma EndsAreNodes(c: Config, focus: string, nodes: map<string, Node>, edges: seq<Edge>, i: nat)
    requires LevelsExact(c, focus, nodes) && EdgesExact(c, focus, nodes, edges) && i < |edges|
    ensures edges[i].source in nodes && edges[i].target in nodes
  {
    var e := edges[i];
    assert Wanted(c, focus, nodes, e);
    if IntoFocus(c, focus, e) {
      assert IsParent(c, focus, e.source);
      assert Within(c, focus, focus) by {
        assert Walk(c, focus, focus, 0);
      }
    } else {
      OneMoreLink(c, focus, e.source, e.target, nodes[e.source].level);
      assert Within(c, focus, e.target);
    }
  }

  // When keys stand for edges.

  /** Fewer links than the limit lead to the job. */
  ghost predicate Shallow(c: Config, focus: string, name: string) {
    exists k :: 0 <= k < MAX_CHAIN_DEPTH && Walk(c, focus, name, k)
  }

  /** The edges a complete drawing has, in terms of the configuration alone. */
  ghost predicate Due(c: Config, focus: string, e: Edge) {
    (Shallow(c, focus, e.source) && Link(c, e.source, e.target, e.kind)) || IntoFocus(c, focus, e)
  }

  lemma DueIsWanted(c: Config, focus: string, nodes: map<string, Node>, e: Edge)
    requires LevelsExact(c, focus, nodes)
    ensures Due(c, focus, e) <==> Wanted(c, focus, nodes, e)
  {
    hide Walk, Linked, IsParent, IntoFocus;
    if Shallow(c, focus, e.source) {
      var k :| 0 <= k < MAX_CHAIN_DEPTH && Walk(c, focus, e.source, k);
      assert Within(c, focus, e.source);
    }
    if e.source in nodes && 0 <= nodes[e.source].level < MAX_CHAIN_DEPTH {
      assert Distance(c, focus, e.source, nodes[e.source].level);
    }
  }

  /** No two edges that should be drawn share a joined key. */
  ghost predicate KeysAreNames(c: Config, focus: string) {
    forall e, f :: Due(c, focus, e) && Due(c, focus, f) && Key(e) == Key(f) ==> e == f
  }

  /** The drawing has every edge it should exactly when no two of them share a joined key. */
  lemma EdgesCompleteIff(c: Config, focus: string, nodes: map<string, Node>, edges: seq<Edge>)
    requires LevelsExact(c, focus, nodes) && EdgesExact(c, focus, nodes, edges)
    ensures (forall e :: Due(c, focus, e) ==> e in edges) <==> KeysAreNames(c, focus)
  {
    hide Wanted, Key, Due, LevelsExact;
    forall e
      ensures Due(c, focus, e) <==> Wanted(c, focus, nodes, e)
    {
      DueIsWanted(c, focus, nodes, e);
    }
    if forall e :: Due(c, focus, e) ==> e in edges {
      forall e, f | Due(c, focus, e) && Due(c, focus, f) && Key(e) == Key(f)
        ensures e == f
      {
        var i :| 0 <= i < |edges| && edges[i] == e;
        var k :| 0 <= k < |edges| && edges[k] == f;
      }
    }
    if KeysAreNames(c, focus) {
      forall e | Due(c, focus, e)
        ensures e in edges
      {
        var i :| 0 <= i < |edges| && Keys(edges)[i] == Key(e);
        assert Wanted(c, focus, nodes, edges[i]);
      }
    }
  }

  /** Green edges are on_success links and red ones on_failure links, out of jobs within reach and into the focus. */
  lemma EdgesAreTheLists(c: Config, focus: string, nodes: map<string, Node>, edges: seq<Edge>, job: Job, t: string)
    requires Valid(c) && LevelsExact(c, focus, nodes) && EdgesExact(c, focus, nodes, edges) && KeysAreNames(c, focus)
    requires job in c.jobs
    ensures Edge(job.name, t, OnSuccess) in edges <==>
      t in job.onSuccess && (Shallow(c, focus, job.name) || t == focus)
    ensures Edge(job.name, t, OnFailure) in edges <==>
      t in job.onFailure && (Shallow(c, focus, job.name) || t == focus)
  {
    LookupIsMembership(c, job);
    EdgesCompleteIff(c, focus, nodes, edges);
    forall kind: Kind
      ensures Edge(job.name, t, kind) in edges <==> Due(c, focus, Edge(job.name, t, kind))
    {
      var e := Edge(job.name, t, kind);
      DueIsWanted(c, focus, nodes, e);
      if e in edges {
        var i :| 0 <= i < |edges| && edges[i] == e;
      }
    }
    forall j | j in c.jobs && j.name == job.name
      ensures j == job
    {
      LookupIsMembership(c, j);
    }
    hide LevelsExact, EdgesExact, KeysAreNames, Shallow;
  }

  lemma SplitAtArrow(a: string, b: string, x: string, y: string)
    requires '>' !in a && '>' !in b && a + ">" + x == b + ">" + y
    ensures a == b && x == y
  {
    var s, t := a + ">" + x, b + ">" + y;
    assert s[|a|] == '>' && t[|b|] == '>';
    assert forall i :: 0 <= i < |a| ==> s[i] == a[i];
    assert forall i :: 0 <= i < |b| ==> t[i] == b[i];
    assert |a| == |b|;
    assert a == s[..|a|] && b == t[..|b|];
    assert x == s[|a| + 1..] && y == t[|b| + 1..];
  }

  lemma KindsEndDifferently(x: string, y: string)
    ensures x + (":" + "success") != y + (":" + "failure")
  {
    var s, t := x + (":" + "success"), y + (":" + "failure");
    assert s[|s| - 1] == 's' && t[|t| - 1] == 'e';
  }

  /** The key behind its arrow. */
  function Tail(e: Edge): string {
    e.target + (":" + KindName(e.kind))
  }

  lemma KeyIs(e: Edge)
    ensures Key(e) == e.source + ">" + Tail(e)
  {
    var a, b := e.source + ">" + e.target, ":" + KindName(e.kind);
    assert a + b == e.source + ">" + (e.target + b);
    assert Key(e) == a + b;
  }

  lemma SameSuffix(a: string, b: string, s: string)
    requires a + s == b + s
    ensures a == b
  {
    assert |a + s| == |a| + |s| && |b + s| == |b| + |s|;
    assert (a + s)[..|a|] == a && (b + s)[..|b|] == b;
  }

  lemma KeysTellEdgesApart(e: Edge, f: Edge)
    requires '>' !in e.source && '>' !in f.source && Key(e) == Key(f)
    ensures e == f
  {
    KeyIs(e);
    KeyIs(f);
    hide Key;
    SplitAtArrow(e.source, f.source, Tail(e), Tail(f));
    if e.kind != f.kind {
      KindsEndDifferently(e.target, f.target);
      KindsEndDifferently(f.target, e.target);
    } else {
      SameSuffix(e.target, f.target, ":" + KindName(e.kind));
    }
  }

  /** A source of an edge that should be drawn is a job's name. */
  lemma DueHasJob(c: Config, focus: string, e: Edge)
    requires Due(c, focus, e)
    ensures exists job :: job in c.jobs && job.name == e.source
  {
    if !IntoFocus(c, focus, e) {
      assert Lookup(c, e.source).value in c.jobs;
    }
  }

  /** When no job's name has a '>' in it, no edge is missing. */
  lemma PlainNamesLoseNothing(c: Config, focus: string, nodes: map<string, Node>, edges: seq<Edge>)
    requires LevelsExact(c, focus, nodes) && EdgesExact(c, focus, nodes, edges)
    requires forall job :: job in c.jobs ==> '>' !in job.name
    ensures forall e :: Due(c, focus, e) ==> e in edges
  {
    forall e, f | Due(c, focus, e) && Due(c, focus, f) && Key(e) == Key(f)
      ensures e == f
    {
      DueHasJob(c, focus, e);
      DueHasJob(c, focus, f);
      KeysTellEdgesApart(e, f);
    }
    EdgesCompleteIff(c, focus, nodes, edges);
  }

  /** With '>' in names two edges can have one key. */
  lemma ArrowsCollide(x: string, y: string, z: string, kind: Kind)
    ensures var e, f := Edge(x + ">" + y, z, kind), Edge(x, y + ">" + z, kind);
      e != f && Key(e) == Key(f)
  {
    var e, f := Edge(x + ">" + y, z, kind), Edge(x, y + ">" + z, kind);
    assert |e.source| > |f.source|;
    assert e.source + ">" + e.target == f.source + ">" + f.target;
  }

  function Plain(name: string, onSuccess: seq<string>): Job {
    Job(name, "true", "", onSuccess, [], Absent, Absent, Absent, 0, 0)
  }

  /** The jobs f, a>b, a, c and b>c; the first chains to the next two, which chain to the last two. */
  function ArrowConfig(): Config {
    Config([Plain("f", ["a>b", "a"]), Plain("a>b", ["c"]), Plain("a", ["b>c"]), Plain("c", []), Plain("b>c", [])], 1, 1)
  }

  lemma ArrowConfigIsValid()
    ensures Valid(ArrowConfig())
  {
    var jobs := ArrowConfig().jobs;
    assert jobs[1].name == "a>b" && jobs[2].name == "a" && jobs[3].name == "c" && jobs[4].name == "b>c";
    forall i, ref | 0 <= i < |jobs| && ref in References(jobs[i])
      ensures Declares(jobs, ref)
    {
      assert ref == jobs[1].name || ref == jobs[2].name || ref == jobs[3].name || ref == jobs[4].name;
    }
  }

  lemma ArrowEdgesAreDue()
    ensures Due(ArrowConfig(), "f", Edge("a>b", "c", OnSuccess)) && Due(ArrowConfig(), "f", Edge("a", "b>c", OnSuccess))
  {
    var c := ArrowConfig();
    ArrowConfigIsValid();
    LookupIsMembership(c, c.jobs[0]);
    LookupIsMembership(c, c.jobs[1]);
    LookupIsMembership(c, c.jobs[2]);
    assert Walk(c, "f", "f", 0);
    OneMoreLink(c, "f", "f", "a>b", 0);
    OneMoreLink(c, "f", "f", "a", 0);
  }

  lemma ArrowKeysCollide()
    ensures var e, f := Edge("a>b", "c", OnSuccess), Edge("a", "b>c", OnSuccess); e != f && Key(e) == Key(f)
  {
    ArrowsCollide("a", "b", "c", OnSuccess);
    assert "a" + ">" + "b" == "a>b" && "b" + ">" + "c" == "b>c";
  }

  /** However its jobs are searched, this valid configuration's drawing lacks an edge. */
  lemma ArrowsLoseAnEdge(nodes: map<string, Node>, edges: seq<Edge>)
    requires LevelsExact(ArrowConfig(), "f", nodes) && EdgesExact(ArrowConfig(), "f", nodes, edges)
    ensures Valid(ArrowConfig()) && exists e :: Due(ArrowConfig(), "f", e) && e !in edges
  {
    hide ArrowConfig, Due, Key, Valid, LevelsExact, EdgesExact;
    ArrowConfigIsValid();
    ArrowEdgesAreDue();
    ArrowKeysCollide();
    EdgesCompleteIff(ArrowConfig(), "f", nodes, edges);
  }
}
