/** config.go: the jobs file, its validation at load time, and the lookups on it. */
module JobConfig {
  import opened Prelude

  /** A duration string: empty, not a Go duration, or parsed. */
  datatype Duration = Absent | Malformed | Parsed(nanos: int)

  datatype Job = Job(
    name: string,
    command: string,
    group: string,
    onSuccess: seq<string>,
    onFailure: seq<string>,
    timeout: Duration,
    debounce: Duration,
    debounceMax: Duration,
    keepRuns: int,
    keepDays: int)

  datatype Config = Config(jobs: seq<Job>, keepRuns: int, maxLogBytes: int)

  datatype LoadError =
    | NoName(index: nat)
    | DuplicateName(index: nat)
    | NoCommand(index: nat)
    | BadTimeout(index: nat)
    | BadDebounce(index: nat)
    | UnknownReference(index: nat, reference: string)

  const DEFAULT_KEEP_RUNS := 50
  const DEFAULT_MAX_LOG_BYTES := 20 * 0x10_0000

  function DurationOrZero(d: Duration): int {
    if d.Parsed? then d.nanos else 0
  }

  function DebounceDur(job: Job): int {
    DurationOrZero(job.debounce)
  }

  function DebounceMaxDur(job: Job): int {
    DurationOrZero(job.debounceMax)
  }

  function References(job: Job): seq<string> {
    job.onSuccess + job.onFailure
  }

  /** What the first validation loop asks of job i, given the jobs before it. */
  ghost predicate JobOk(jobs: seq<Job>, i: nat)
    requires i < |jobs|
  {
    && jobs[i].name != ""
    && (forall k :: 0 <= k < i ==> jobs[k].name != jobs[i].name)
    && jobs[i].command != ""
    && !jobs[i].timeout.Malformed?
    && !jobs[i].debounce.Malformed?
    && !jobs[i].debounceMax.Malformed?
  }

  ghost predicate Declares(jobs: seq<Job>, name: string) {
    exists k :: 0 <= k < |jobs| && jobs[k].name == name
  }

  ghost predicate UniqueNames(jobs: seq<Job>) {
    forall i, k :: 0 <= i < k < |jobs| ==> jobs[i].name != jobs[k].name
  }

  ghost predicate Closed(jobs: seq<Job>) {
    forall i, ref :: 0 <= i < |jobs| && ref in References(jobs[i]) ==> Declares(jobs, ref)
  }

  ghost predicate Valid(c: Config) {
    && (forall i :: 0 <= i < |c.jobs| ==> JobOk(c.jobs, i))
    && Closed(c.jobs)
  }

  lemma ValidHasUniqueNames(c: Config)
    requires Valid(c)
    ensures UniqueNames(c.jobs)
  {
    forall i, k | 0 <= i < k < |c.jobs|
      ensures c.jobs[i].name != c.jobs[k].name
    {
      assert JobOk(c.jobs, k);
    }
  }

  function WithDefaults(raw: Config): Config {
    raw.(keepRuns := if raw.keepRuns <= 0 then DEFAULT_KEEP_RUNS else raw.keepRuns,
         maxLogBytes := if raw.maxLogBytes <= 0 then DEFAULT_MAX_LOG_BYTES else raw.maxLogBytes)
  }

  /** Every reference of the jobs before i is declared. */
  ghost predicate ClosedBefore(jobs: seq<Job>, i: nat) {
    forall k, ref :: 0 <= k < Min(i, |jobs|) && ref in References(jobs[k]) ==> Declares(jobs, ref)
  }

  ghost predicate Repeats(jobs: seq<Job>, i: nat)
    requires i < |jobs|
  {
    exists k :: 0 <= k < i && jobs[k].name == jobs[i].name
  }

  /** The first of the references that no job has as its name. */
  ghost predicate FirstUnknown(jobs: seq<Job>, refs: seq<string>, ref: string) {
    exists m :: 0 <= m < |refs| && refs[m] == ref && !Declares(jobs, ref) && forall k :: 0 <= k < m ==> Declares(jobs, refs[k])
  }

  /** The reported fault is there, and it is the first: what is tested before it is fine. */
  ghost predicate Explains(c: Config, e: LoadError) {
    && e.index < |c.jobs|
    && (forall k :: 0 <= k < e.index ==> JobOk(c.jobs, k))
    && var job := c.jobs[e.index];
    match e
    case NoName(_) => job.name == ""
    case DuplicateName(i) => job.name != "" && Repeats(c.jobs, i)
    case NoCommand(i) => job.name != "" && !Repeats(c.jobs, i) && job.command == ""
    case BadTimeout(i) => job.name != "" && !Repeats(c.jobs, i) && job.command != "" && job.timeout.Malformed?
    case BadDebounce(i) =>
      && job.name != "" && !Repeats(c.jobs, i) && job.command != "" && !job.timeout.Malformed?
      && (job.debounce.Malformed? || job.debounceMax.Malformed?)
    case UnknownReference(i, ref) =>
      && (forall k :: 0 <= k < |c.jobs| ==> JobOk(c.jobs, k))
      && ClosedBefore(c.jobs, i) && FirstUnknown(c.jobs, References(job), ref)
  }

  function KeepRunsFor(c: Config, job: Job): int {
    if job.keepRuns > 0 then job.keepRuns else c.keepRuns
  }

  /** Fills the defaults and validates; a rejected file is named together with its first fault. */
  method LoadConfig(raw: Config) returns (r: Result<Config, LoadError>)
    ensures r.Ok? <==> Valid(raw)
    ensures r.Ok? ==> r.value == WithDefaults(raw) && Valid(r.value)
    ensures r.Ok? ==> r.value.jobs == raw.jobs
    ensures r.Ok? ==> r.value.keepRuns == if raw.keepRuns >= 1 then raw.keepRuns else 50
    ensures r.Ok? ==> r.value.maxLogBytes == if raw.maxLogBytes >= 1 then raw.maxLogBytes else 20_971_520
    ensures r.Ok? ==> forall job :: KeepRunsFor(r.value, job) >= 1 && (job.keepRuns >= 1 ==> KeepRunsFor(r.value, job) == job.keepRuns)
    ensures r.Err? ==> Explains(raw, r.error)
  {
    var c := raw;
    if c.keepRuns <= 0 {
      c := c.(keepRuns := DEFAULT_KEEP_RUNS);
    }
    if c.maxLogBytes <= 0 {
      c := c.(maxLogBytes := DEFAULT_MAX_LOG_BYTES);
    }
    var seen: set<string> := {};
    for i := 0 to |c.jobs|
      invariant forall k :: 0 <= k < i ==> JobOk(c.jobs, k)
      invariant forall n :: n in seen <==> exists k :: 0 <= k < i && c.jobs[k].name == n
    {
      var j := c.jobs[i];
      if j.name == "" {
        assert !JobOk(c.jobs, i);
        return Err(NoName(i));
      }
      if j.name in seen {
        assert !JobOk(c.jobs, i);
        return Err(DuplicateName(i));
      }
      if j.command == "" {
        assert !JobOk(c.jobs, i);
        return Err(NoCommand(i));
      }
      if j.timeout.Malformed? {
        assert !JobOk(c.jobs, i);
        return Err(BadTimeout(i));
      }
      if j.debounce.Malformed? || j.debounceMax.Malformed? {
        assert !JobOk(c.jobs, i);
        return Err(BadDebounce(i));
      }
      seen := seen + {j.name};
    }
    for i := 0 to |c.jobs|
      invariant ClosedBefore(c.jobs, i)
    {
      var refs := References(c.jobs[i]);
      for m := 0 to |refs|
        invariant forall k :: 0 <= k < m ==> Declares(c.jobs, refs[k])
      {
        if refs[m] !in seen {
          assert refs[m] in References(c.jobs[i]) && !Declares(c.jobs, refs[m]);
          assert FirstUnknown(c.jobs, refs, refs[m]);
          return Err(UnknownReference(i, refs[m]));
        }
      }
    }
    assert Valid(c);
    r := Ok(c);
  }

  /** The first job of that name, scanning from index i. */
  function LookupFrom(jobs: seq<Job>, name: string, i: nat): (r: Option<Job>)
    requires i <= |jobs|
    ensures r.Some? ==> r.value in jobs && r.value.name == name
    ensures r.None? ==> forall k :: i <= k < |jobs| ==> jobs[k].name != name
    decreases |jobs| - i
  {
    if i == |jobs| then None
    else if jobs[i].name == name then Some(jobs[i])
    else LookupFrom(jobs, name, i + 1)
  }

  function Lookup(c: Config, name: string): Option<Job> {
    LookupFrom(c.jobs, name, 0)
  }

  predicate IsFirst(jobs: seq<Job>, name: string, i: int) {
    0 <= i < |jobs| && jobs[i].name == name && forall k :: 0 <= k < i ==> jobs[k].name != name
  }

  method JobNamed(c: Config, name: string) returns (r: Option<Job>)
    ensures r == Lookup(c, name)
    ensures r.Some? ==> exists i :: IsFirst(c.jobs, name, i) && c.jobs[i] == r.value
  {
    for i := 0 to |c.jobs|
      invariant Lookup(c, name) == LookupFrom(c.jobs, name, i)
      invariant forall k :: 0 <= k < i ==> c.jobs[k].name != name
    {
      if c.jobs[i].name == name {
        return Some(c.jobs[i]);
      }
    }
    r := None;
  }

  /** In a valid file the lookup by name and membership are the same thing. */
  lemma LookupIsMembership(c: Config, job: Job)
    requires Valid(c)
    ensures Lookup(c, job.name) == Some(job) <==> job in c.jobs
  {
    ValidHasUniqueNames(c);
  }

  /** Chain references of a valid file never dangle. */
  lemma ReferencesResolve(c: Config, job: Job, ref: string)
    requires Valid(c) && job in c.jobs && ref in References(job)
    ensures Lookup(c, ref).Some?
  {
    var i :| 0 <= i < |c.jobs| && c.jobs[i] == job;
    assert Declares(c.jobs, ref);
  }
}
