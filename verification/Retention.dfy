/** store.go: a job's run records, their listing, and what prune leaves of them. */
module Retention {
  import opened Prelude

  /** meta.json. */
  datatype Record = Record(id: string, start: int)

  /** The job's directories; a directory whose meta.json cannot be read holds None. */
  type Directory = map<string, Option<Record>>

  /** Every readable record is in the directory of its own id, as writeMeta leaves it. */
  ghost predicate WellFormed(dir: Directory) {
    forall name :: name in dir && dir[name].Some? ==> dir[name].value.id == name
  }

  ghost predicate NewestFirst(rs: seq<Record>) {
    forall i, k :: 0 <= i < k < |rs| ==> rs[i].start >= rs[k].start
  }

  ghost predicate Distinct(names: seq<string>) {
    forall i, k :: 0 <= i < k < |names| ==> names[i] != names[k]
  }

  /** The records of those of the named directories that can be read, each directory once. */
  ghost predicate Holds(dir: Directory, among: set<string>, names: seq<string>, rs: seq<Record>) {
    && |names| == |rs| && Distinct(names)
    && (forall n :: n in names <==> n in among && n in dir && dir[n].Some?)
    && (forall i :: 0 <= i < |rs| && names[i] in dir ==> dir[names[i]] == Some(rs[i]))
  }

  /** What ListRuns may return, and where each record lies: all readable ones, newest first, in any order among equals. */
  ghost predicate IsListing(dir: Directory, names: seq<string>, rs: seq<Record>) {
    NewestFirst(rs) && Holds(dir, dir.Keys, names, rs)
  }

  predicate TooOld(r: Record, cutoff: Option<int>) {
    cutoff.Some? && r.start < cutoff.value
  }

  /** How many runs did not start before the cutoff. */
  function Recent(rs: seq<Record>, cutoff: Option<int>): nat {
    if rs == [] then 0
    else Recent(rs[..|rs| - 1], cutoff) + if TooOld(rs[|rs| - 1], cutoff) then 0 else 1
  }

  lemma {:induction false} RecentAtMostAll(rs: seq<Record>, cutoff: Option<int>)
    ensures Recent(rs, cutoff) <= |rs|
  {
    if rs != [] {
      RecentAtMostAll(rs[..|rs| - 1], cutoff);
    }
  }

  /** The number of newest runs that stay. */
  function Kept(rs: seq<Record>, keepRuns: int, cutoff: Option<int>): (n: nat)
    ensures n <= |rs|
  {
    RecentAtMostAll(rs, cutoff);
    if keepRuns > 0 then Min(keepRuns, Recent(rs, cutoff)) else Recent(rs, cutoff)
  }

  /** In a listing the recent runs are a prefix. */
  lemma {:induction false} RecentIsPrefix(rs: seq<Record>, cutoff: Option<int>, i: nat)
    requires NewestFirst(rs) && i < |rs|
    ensures (cutoff.Some? && rs[i].start < cutoff.value) <==> i >= Recent(rs, cutoff)
    decreases |rs|
  {
    var k := |rs| - 1;
    var init := rs[..k];
    RecentAtMostAll(init, cutoff);
    if i < k {
      RecentIsPrefix(init, cutoff, i);
      assert init[i] == rs[i];
    }
    if k > 0 {
      RecentIsPrefix(init, cutoff, k - 1);
      assert init[k - 1] == rs[k - 1];
    }
  }

  /** prune's test for the i-th run of the listing, against the length of what stays. */
  lemma RemovedIffPastKept(rs: seq<Record>, keepRuns: int, cutoff: Option<int>, i: nat)
    requires NewestFirst(rs) && i < |rs|
    ensures (keepRuns > 0 && i >= keepRuns) || (cutoff.Some? && rs[i].start < cutoff.value)
      <==> i >= Kept(rs, keepRuns, cutoff)
  {
    RecentIsPrefix(rs, cutoff, i);
  }

  lemma {:induction false} AllRecent(rs: seq<Record>, cutoff: Option<int>)
    requires forall i :: 0 <= i < |rs| ==> !TooOld(rs[i], cutoff)
    ensures Recent(rs, cutoff) == |rs|
  {
    if rs != [] {
      AllRecent(rs[..|rs| - 1], cutoff);
    }
  }

  lemma {:induction false} DistinctSize(names: seq<string>)
    requires Distinct(names)
    ensures |set n | n in names| == |names|
  {
    if names != [] {
      var init, last := names[..|names| - 1], names[|names| - 1];
      DistinctSize(init);
      assert names == init + [last];
      assert (set n | n in names) == (set n | n in init) + {last};
    }
  }

  /** All listings of a directory have one length. */
  lemma SameSize(dir: Directory, a: seq<string>, ra: seq<Record>, b: seq<string>, rb: seq<Record>)
    requires Holds(dir, dir.Keys, a, ra) && Holds(dir, dir.Keys, b, rb)
    ensures |ra| == |rb|
  {
    DistinctSize(a);
    DistinctSize(b);
    assert (set n | n in a) == (set n | n in b);
  }

  /** Pruning again with the same limits removes nothing, whichever listing it then gets. */
  lemma PruningTwiceIsPruningOnce(
      dir: Directory, names: seq<string>, rs: seq<Record>, keepRuns: int, cutoff: Option<int>,
      left: Directory, namesAgain: seq<string>, again: seq<Record>)
    requires IsListing(dir, names, rs)
    requires var kept := Kept(rs, keepRuns, cutoff); IsListing(left, names[..kept], rs[..kept])
    requires IsListing(left, namesAgain, again)
    ensures Kept(again, keepRuns, cutoff) == |again|
  {
    var kept := Kept(rs, keepRuns, cutoff);
    SameSize(left, names[..kept], rs[..kept], namesAgain, again);
    forall i | 0 <= i < |again|
      ensures !TooOld(again[i], cutoff)
    {
      assert namesAgain[i] in names[..kept];
      var k :| 0 <= k < kept && names[..kept][k] == namesAgain[i];
      assert again[i] == rs[..kept][k] == rs[k];
      RemovedIffPastKept(rs, keepRuns, cutoff, k);
    }
    AllRecent(again, cutoff);
  }

  /** The directories prune names for removal when it keeps the first `kept` runs of the listing. */
  function Removed(rs: seq<Record>, kept: nat): set<string> {
    set i | kept <= i < |rs| :: rs[i].id
  }

  /** Of the directories listed, the ids name those of the dropped runs for removal and no other. */
  ghost predicate RemovesItsOwn(names: seq<string>, rs: seq<Record>, kept: nat)
    requires |names| == |rs|
  {
    forall i :: 0 <= i < |rs| ==> (names[i] in Removed(rs, kept) <==> i >= kept)
  }

  /** What is left lists exactly the kept prefix when, and only when, the ids name their own directories that far. */
  lemma PrefixStaysIff(dir: Directory, names: seq<string>, rs: seq<Record>, kept: nat)
    requires IsListing(dir, names, rs) && kept <= |rs|
    ensures IsListing(dir - Removed(rs, kept), names[..kept], rs[..kept]) <==> RemovesItsOwn(names, rs, kept)
  {
    var left := dir - Removed(rs, kept);
    forall i | 0 <= i < |rs|
      ensures names[i] in left <==> names[i] !in Removed(rs, kept)
      ensures names[i] in left ==> left[names[i]] == Some(rs[i])
      ensures names[i] in names[..kept] <==> i < kept
    {
      assert names[i] in names && dir[names[i]] == Some(rs[i]);
      assert i < kept ==> names[..kept][i] == names[i];
    }
    if RemovesItsOwn(names, rs, kept) {
      forall n
        ensures n in names[..kept] <==> n in left.Keys && n in left && left[n].Some?
      {
        if n in names[..kept] {
          var k :| 0 <= k < kept && names[k] == n;
          assert names[k] in left;
        }
        if n in left && left[n].Some? {
          assert n in names;
          var k :| 0 <= k < |names| && names[k] == n;
          assert names[k] in left;
        }
      }
    }
  }

  /** In a well-formed directory they do, and what cannot be read stays. */
  lemma WellFormedIsSafe(dir: Directory, names: seq<string>, rs: seq<Record>, kept: nat)
    requires WellFormed(dir) && IsListing(dir, names, rs) && kept <= |rs|
    ensures RemovesItsOwn(names, rs, kept)
    ensures forall name :: name in dir && dir[name].None? ==> name !in Removed(rs, kept)
  {
    forall i | 0 <= i < |rs|
      ensures names[i] == rs[i].id && dir[rs[i].id].Some?
    {
      assert names[i] in names && dir[names[i]] == Some(rs[i]);
    }
  }

  /** sort.Slice by start, latest first, one record at a time; `name` is where the record lies. */
  method InsertByStart(rs: seq<Record>, r: Record, ghost names: seq<string>, ghost name: string)
    returns (out: seq<Record>, ghost outNames: seq<string>)
    requires NewestFirst(rs) && |names| == |rs| && Distinct(names) && name !in names
    ensures NewestFirst(out) && |outNames| == |out| == |rs| + 1 && Distinct(outNames)
    ensures exists i :: 0 <= i <= |rs| && out == rs[..i] + [r] + rs[i..] && outNames == names[..i] + [name] + names[i..]
  {
    var i := 0;
    while i < |rs| && rs[i].start >= r.start
      invariant 0 <= i <= |rs|
      invariant forall k :: 0 <= k < i ==> rs[k].start >= r.start
    {
      i := i + 1;
    }
    out, outNames := rs[..i] + [r] + rs[i..], names[..i] + [name] + names[i..];
  }

  lemma InsertedMembers(names: seq<string>, name: string, i: nat)
    requires Distinct(names) && name !in names && i <= |names|
    ensures var names' := names[..i] + [name] + names[i..];
      Distinct(names') && forall n :: n in names' <==> n in names || n == name
  {
    assert names == names[..i] + names[i..];
  }

  /** A record goes in at some place of the listing. */
  lemma InsertedHolds(dir: Directory, among: set<string>, names: seq<string>, rs: seq<Record>, name: string, i: nat)
    requires Holds(dir, among, names, rs) && name in dir && dir[name].Some? && name !in among && i <= |rs|
    ensures Holds(dir, among + {name}, names[..i] + [name] + names[i..], rs[..i] + [dir[name].value] + rs[i..])
  {
    var names', rs' := names[..i] + [name] + names[i..], rs[..i] + [dir[name].value] + rs[i..];
    InsertedMembers(names, name, i);
    forall k | 0 <= k < |rs'|
      ensures dir[names'[k]] == Some(rs'[k])
    {
      assert k < i ==> names'[k] == names[k] && names[k] in names;
      assert k > i ==> names'[k] == names[k - 1] && names[k - 1] in names;
    }
  }

  lemma NothingRemoved(rs: seq<Record>, kept: nat)
    ensures Removed(rs[..0], kept) == {}
  {
  }

  lemma RemovedNext(rs: seq<Record>, kept: nat, i: nat)
    requires i < |rs|
    ensures Removed(rs[..i + 1], kept) == Removed(rs[..i], kept) + if i >= kept then {rs[i].id} else {}
  {
    assert forall k :: 0 <= k < i ==> rs[..i + 1][k] == rs[..i][k];
    forall n | n in Removed(rs[..i], kept)
      ensures n in Removed(rs[..i + 1], kept)
    {
      var k :| kept <= k < |rs[..i]| && rs[..i][k].id == n;
      assert rs[..i + 1][k].id == n;
    }
    if i >= kept {
      assert rs[..i + 1][i].id in Removed(rs[..i + 1], kept);
    }
  }

  function Readable(dir: Directory): set<string> {
    set name | name in dir && dir[name].Some?
  }

  /** Exactly the readable records, one for each directory. */
  ghost predicate ListsAll(dir: Directory, rs: seq<Record>) {
    && (forall r :: r in rs <==> exists name :: name in dir && dir[name] == Some(r))
    && |rs| == |Readable(dir)|
  }

  lemma ListingIsAll(dir: Directory, names: seq<string>, rs: seq<Record>)
    requires IsListing(dir, names, rs)
    ensures ListsAll(dir, rs)
  {
    DistinctSize(names);
    assert (set n | n in names) == Readable(dir);
    forall i | 0 <= i < |rs|
      ensures names[i] in dir && dir[names[i]] == Some(rs[i])
    {
      assert names[i] in names;
    }
    forall name, r | name in dir && dir[name] == Some(r)
      ensures r in rs
    {
      assert name in names;
      var i :| 0 <= i < |names| && names[i] == name;
      assert rs[i] == r;
    }
  }

  class JobStore {
    var dir: Directory

    /** ReadDir, ReadRun for each directory, and the sort; `names` are the directories read. */
    method ListRuns() returns (rs: seq<Record>, ghost names: seq<string>)
      ensures NewestFirst(rs) && ListsAll(dir, rs)
      ensures IsListing(dir, names, rs)
    {
      rs, names := [], [];
      var left := dir.Keys;
      while left != {}
        invariant left <= dir.Keys
        invariant NewestFirst(rs) && Holds(dir, dir.Keys - left, names, rs)
      {
        var name :| name in left;
        if dir[name].Some? {
          ghost var before, was := names, rs;
          rs, names := InsertByStart(rs, dir[name].value, names, name);
          ghost var i :| 0 <= i <= |was| && rs == was[..i] + [dir[name].value] + was[i..]
            && names == before[..i] + [name] + before[i..];
          InsertedHolds(dir, dir.Keys - left, before, was, name, i);
        }
        left := left - {name};
        assert dir[name].Some? ==> dir.Keys - left == dir.Keys - (left + {name}) + {name};
      }
      ListingIsAll(dir, names, rs);
    }

    /** The loop over the listing, removing by the ids in the records. */
    method Prune(keepRuns: int, cutoff: Option<int>) returns (ghost listing: seq<Record>, ghost names: seq<string>)
      modifies this
      ensures IsListing(old(dir), names, listing)
      ensures dir == old(dir) - Removed(listing, Kept(listing, keepRuns, cutoff))
      ensures WellFormed(old(dir)) ==>
        var kept := Kept(listing, keepRuns, cutoff);
        && IsListing(dir, names[..kept], listing[..kept])
        && forall name :: name in old(dir) && old(dir)[name].None? ==> name in dir
    {
      hide IsListing, ListsAll, WellFormed, Kept, Removed, RemovesItsOwn, NewestFirst;
      var runs;
      runs, names := ListRuns();
      listing := runs;
      ghost var kept := Kept(runs, keepRuns, cutoff);
      NothingRemoved(runs, kept);
      for i := 0 to |runs|
        invariant runs == listing
        invariant dir == old(dir) - Removed(runs[..i], kept)
      {
        var overCount := keepRuns > 0 && i >= keepRuns;
        var tooOld := TooOld(runs[i], cutoff);
        RemovedIffPastKept(runs, keepRuns, cutoff, i);
        RemovedNext(runs, kept, i);
        if overCount || tooOld {
          dir := dir - {runs[i].id};
        }
      }
      assert runs[..|runs|] == runs;
      if WellFormed(old(dir)) {
        PrefixStaysIff(old(dir), names, runs, kept);
        WellFormedIsSafe(old(dir), names, runs, kept);
      }
    }
  }
}
