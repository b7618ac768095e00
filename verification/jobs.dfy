/** The registry of monitored batch jobs shared by the submit closure and the
    monitor, and the submit closure itself (`gen_submit_batch_job`, which the
    async core and the threaded variant define identically).

    The registry is a Python dict from `str(batch_id)` to `{"batch_id": id}`.
    Batch ids are strings, so the key is the id itself. A dict remembers
    insertion order, which decides the order a monitor pass visits the jobs:
    `order` holds the keys in that order. Re-assigning an existing key keeps
    its position; `del` of a missing key raises KeyError. */
module Jobs {
  import opened Py

  /** The `{"batch_id": id}` value stored per job. */
  datatype JobRecord = JobRecord(batchId: string)

  datatype Registry = Registry(order: seq<string>, jobs: map<string, JobRecord>)

  ghost predicate Distinct(s: seq<string>) {
    forall i, j :: 0 <= i < j < |s| ==> s[i] != s[j]
  }

  /** `order` lists every key once, and only keys. */
  ghost predicate Valid(r: Registry) {
    && Distinct(r.order)
    && forall k :: k in r.jobs <==> k in r.order
  }

  function Empty(): (r: Registry)
    ensures Valid(r)
    ensures forall k :: k !in r.jobs
  {
    Registry([], map[])
  }

  /** `registry[k] = v`. */
  function Set(r: Registry, k: string, v: JobRecord): (r': Registry)
    requires Valid(r)
    ensures Valid(r')
    ensures k in r'.jobs && r'.jobs[k] == v
    ensures forall other :: other != k ==> (other in r'.jobs <==> other in r.jobs)
    ensures forall other :: other != k && other in r.jobs ==> r'.jobs[other] == r.jobs[other]
    ensures k in r.jobs ==> r'.order == r.order
    ensures k !in r.jobs ==> r'.order == r.order + [k]
  {
    if k in r.jobs then Registry(r.order, r.jobs[k := v])
    else Registry(r.order + [k], r.jobs[k := v])
  }

  /** `s` without the element `k`. */
  function Without(s: seq<string>, k: string): (t: seq<string>)
    ensures forall x :: x in t <==> x in s && x != k
    ensures Distinct(s) ==> Distinct(t)
    ensures |t| <= |s|
    ensures k !in s ==> t == s
    ensures Distinct(s) && k in s ==> |t| == |s| - 1
  {
    if s == [] then []
    else if s[0] == k then
      assert Distinct(s) ==> k !in s[1..];
      Without(s[1..], k)
    else
      var rest := Without(s[1..], k);
      assert Distinct(s) ==> s[0] !in s[1..];
      [s[0]] + rest
  }

  /** The keys after the first of a list without repeats have no repeats,
      and the first key is not among them. */
  lemma DistinctTail(s: seq<string>)
    requires Distinct(s) && s != []
    ensures Distinct(s[1..]) && s[0] !in s[1..]
  {
    var tail := s[1..];
    forall a, b | 0 <= a < b < |tail| ensures tail[a] != tail[b] {
      assert tail[a] == s[a + 1] && tail[b] == s[b + 1];
    }
    forall a | 0 <= a < |tail| ensures tail[a] != s[0] {
      assert tail[a] == s[a + 1];
    }
  }

  /** Removing the key at position i of a list without repeats leaves the
      keys before i, then the keys after i. */
  lemma {:induction false} WithoutAt(s: seq<string>, i: nat)
    requires Distinct(s) && i < |s|
    ensures Without(s, s[i]) == s[..i] + s[i + 1..]
    decreases i
  {
    DistinctTail(s);
    if i == 0 {
      WithoutFirst(s);
    } else {
      var k := s[i];
      var tail := s[1..];
      assert s[0] != k && tail[i - 1] == k;
      WithoutLater(s, k);
      WithoutAt(tail, i - 1);
      SliceAfterHead(s, i);
      ConcatAssoc([s[0]], tail[..i - 1], tail[i..]);
    }
  }

  /** Removing the first key of a list without repeats leaves the rest. */
  lemma WithoutFirst(s: seq<string>)
    requires Distinct(s) && s != []
    ensures Without(s, s[0]) == s[1..]
  {
    DistinctTail(s);
  }

  /** Removing a key other than the first keeps the first in front. */
  lemma WithoutLater(s: seq<string>, k: string)
    requires s != [] && s[0] != k
    ensures Without(s, k) == [s[0]] + Without(s[1..], k)
  {
  }


  /** Removing a key that occurs once cuts it out where it stands: the keys
      before it and the keys after it keep their order. */
  lemma WithoutKeepsOrder(s: seq<string>, k: string)
    requires Distinct(s) && k in s
    ensures exists i :: 0 <= i < |s| && s[i] == k && Without(s, k) == s[..i] + s[i + 1..]
  {
    var i :| 0 <= i < |s| && s[i] == k;
    WithoutAt(s, i);
  }

  /** `del registry[k]`: the other keys keep their relative order. */
  function Delete(r: Registry, k: string): (res: Result<Registry>)
    requires Valid(r)
    ensures res.Err? <==> k !in r.jobs
    ensures res.Err? ==> res.error == KeyError(k)
    ensures res.Ok? ==> Valid(res.value) && res.value.jobs == r.jobs - {k}
    ensures res.Ok? ==> |res.value.order| == |r.order| - 1
    ensures res.Ok? ==> res.value.order == Without(r.order, k)
    ensures res.Ok? ==> exists i :: 0 <= i < |r.order| && r.order[i] == k
                                   && res.value.order == r.order[..i] + r.order[i + 1..]
  {
    if k !in r.jobs then Err(KeyError(k))
    else
      assert k in r.order;
      WithoutKeepsOrder(r.order, k);
      Ok(Registry(Without(r.order, k), r.jobs - {k}))
  }

  /** `registry[str(id)] = {"batch_id": id}`, the insertion the submit closure makes. */
  function Track(r: Registry, batchId: string): (r': Registry)
    requires Valid(r)
    ensures Valid(r')
  {
    Set(r, batchId, JobRecord(batchId))
  }

  /** Several submissions, in order. */
  function TrackAll(r: Registry, ids: seq<string>): (r': Registry)
    requires Valid(r)
    ensures Valid(r')
    ensures forall k :: k in r'.jobs <==> k in r.jobs || k in ids
    ensures forall k :: k in r.jobs && k !in ids ==> r'.jobs[k] == r.jobs[k]
    ensures forall k :: k in ids ==> r'.jobs[k] == JobRecord(k)
    decreases |ids|
  {
    if ids == [] then r else TrackAll(Track(r, ids[0]), ids[1..])
  }

  /** The job description the submit closure is bound to. */
  datatype Submitter = Submitter(description: string)

  /** `gen_submit_batch_job(registry, description="batch prompts job")`. */
  function GenSubmitBatchJob(description: string := "batch prompts job"): (s: Submitter)
    ensures forall r: Registry, filePath: string, submit: (string, string) -> Result<string> ::
              Valid(r) ==> AddBatchJob(s, r, filePath, submit).batchId == submit(filePath, description)
  {
    Submitter(description)
  }

  datatype Submission = Submission(registry: Registry, batchId: Result<string>)

  /** `add_batch_job(file_path)`: ask the provider to submit the file with the
      bound description. On success record the job under its id and return the
      id; if the provider call raises, the registry is untouched and the error
      reaches the caller. */
  function AddBatchJob(s: Submitter, r: Registry, filePath: string,
                       submit: (string, string) -> Result<string>): (out: Submission)
    requires Valid(r)
    ensures Valid(out.registry)
    ensures out.batchId == submit(filePath, s.description)
    ensures out.batchId.Err? ==> out.registry == r
    ensures out.batchId.Ok? ==>
      var id := out.batchId.value;
      && id in out.registry.jobs
      && out.registry.jobs[id] == JobRecord(id)
      && (forall k :: k != id ==> (k in out.registry.jobs <==> k in r.jobs))
      && (forall k :: k != id && k in r.jobs ==> out.registry.jobs[k] == r.jobs[k])
  {
    match submit(filePath, s.description)
    case Err(e) => Submission(r, Err(e))
    case Ok(id) => Submission(Track(r, id), Ok(id))
  }

  /** Without an explicit description the closure submits with
      "batch prompts job"; the provider sees that description. */
  lemma DefaultDescription(r: Registry, filePath: string, submit: (string, string) -> Result<string>)
    requires Valid(r)
    ensures AddBatchJob(GenSubmitBatchJob(), r, filePath, submit).batchId
            == submit(filePath, "batch prompts job")
  {
  }
}
