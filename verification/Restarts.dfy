/**
 Which chains can go on for ever. The depth limit ends every chain of calls, but a call of a
 debounced job that finds the job busy becomes a pending trigger, and the run that takes it
 counts from depth 0 again.
 */
module Restarts {
  import opened JobConfig
  import opened Protocol
  import opened Diagram

  predicate IsDebounced(c: Config, name: string) {
    Lookup(c, name).Some? && DebounceDur(Lookup(c, name).value) > 0
  }

  /** The depth from which a chain may go on after a call of the job at depth d. */
  function DepthAt(c: Config, name: string, d: nat): nat {
    if IsDebounced(c, name) then 0 else d
  }

  /** Each job on the path chains to the next, within the limit, restarts counted. */
  ghost predicate Route(c: Config, d: nat, path: seq<string>)
    decreases |path|
  {
    && path != []
    && (|path| > 1 ==>
          d < MAX_CHAIN_DEPTH && Linked(c, path[0], path[1]) && Route(c, DepthAt(c, path[1], d + 1), path[1..]))
  }

  ghost predicate RouteTo(c: Config, d: nat, path: seq<string>, name: string, goal: string) {
    |path| > 1 && path[0] == name && path[|path| - 1] == goal && Route(c, d, path)
  }

  /** A chain that is at the job at depth d can come to call the debounced job. */
  ghost predicate Reaches(c: Config, name: string, d: nat, goal: string) {
    IsDebounced(c, goal) && exists path :: RouteTo(c, d, path, name, goal)
  }

  /** No debounced job can come to call itself. */
  ghost predicate NoLoops(c: Config) {
    forall name :: !Reaches(c, name, 0, name)
  }

  function Names(c: Config): set<string> {
    set i | 0 <= i < |c.jobs| :: c.jobs[i].name
  }

  ghost function Ahead(c: Config, name: string, d: nat): set<string> {
    set goal | goal in Names(c) && Reaches(c, name, d, goal)
  }

  lemma DebouncedIsNamed(c: Config, name: string)
    requires IsDebounced(c, name)
    ensures name in Names(c)
  {
    var i :| 0 <= i < |c.jobs| && c.jobs[i] == Lookup(c, name).value;
    assert c.jobs[i].name == name;
  }

  lemma ReachesOn(c: Config, a: string, d: nat, b: string, goal: string)
    requires d < MAX_CHAIN_DEPTH && Linked(c, a, b) && Reaches(c, b, DepthAt(c, b, d + 1), goal)
    ensures Reaches(c, a, d, goal)
  {
    var path :| RouteTo(c, DepthAt(c, b, d + 1), path, b, goal);
    var longer := [a] + path;
    assert longer[1..] == path;
    assert RouteTo(c, d, longer, a, goal);
  }

  lemma ReachesNext(c: Config, a: string, d: nat, b: string)
    requires d < MAX_CHAIN_DEPTH && Linked(c, a, b) && IsDebounced(c, b)
    ensures Reaches(c, a, d, b)
  {
    var path := [a, b];
    assert path[1..] == [b];
    assert RouteTo(c, d, path, a, b);
  }

  lemma Smaller(x: set<string>, y: set<string>)
    requires x <= y
    ensures |x| <= |y| && (x != y ==> |x| < |y|)
  {
    assert y == x + (y - x);
    assert x != y ==> exists n :: n in y - x;
  }

  /** Along a link there is less ahead, or as much ahead and less depth left. */
  lemma LessAhead(c: Config, a: string, d: nat, b: string)
    requires NoLoops(c) && d < MAX_CHAIN_DEPTH && Linked(c, a, b)
    ensures var e := DepthAt(c, b, d + 1);
      |Ahead(c, b, e)| < |Ahead(c, a, d)| || (|Ahead(c, b, e)| <= |Ahead(c, a, d)| && e == d + 1)
  {
    var e := DepthAt(c, b, d + 1);
    forall goal | goal in Ahead(c, b, e)
      ensures goal in Ahead(c, a, d)
    {
      ReachesOn(c, a, d, b, goal);
    }
    Smaller(Ahead(c, b, e), Ahead(c, a, d));
    if IsDebounced(c, b) {
      DebouncedIsNamed(c, b);
      ReachesNext(c, a, d, b);
      assert b in Ahead(c, a, d) && b !in Ahead(c, b, e);
    }
  }

  /** An order on the names that every chain link lowers. */
  ghost predicate Ordered(c: Config, rank: map<string, nat>) {
    forall a, b :: Linked(c, a, b) ==> a in rank && b in rank && rank[b] < rank[a]
  }

  lemma {:induction false} RoutesDescend(c: Config, rank: map<string, nat>, d: nat, path: seq<string>)
    requires Ordered(c, rank) && Route(c, d, path) && |path| > 1
    ensures path[0] in rank && path[|path| - 1] in rank && rank[path[|path| - 1]] < rank[path[0]]
    decreases |path|
  {
    assert Linked(c, path[0], path[1]);
    if |path| > 2 {
      RoutesDescend(c, rank, DepthAt(c, path[1], d + 1), path[1..]);
    }
  }

  /** An acyclic chain graph has no loops. */
  lemma AcyclicHasNoLoops(c: Config, rank: map<string, nat>)
    requires Ordered(c, rank)
    ensures NoLoops(c)
  {
    forall name
      ensures !Reaches(c, name, 0, name)
    {
      if Reaches(c, name, 0, name) {
        var path :| RouteTo(c, 0, path, name, name);
        RoutesDescend(c, rank, 0, path);
      }
    }
  }
}
