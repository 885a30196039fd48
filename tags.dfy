/** Job records, the subset test on tag lists, and the two tag vocabularies
    derived from a job list. */
module Tags {
  import opened Seqs

  /** One job posting, as passed to the listing component. */
  datatype Job = Job(
    organization: string,
    logoUrl: string,
    jobTitle: string,
    jobUrl: string,
    locations: seq<string>,
    date: string,
    techTags: seq<string>)

  /** The two tag kinds a job carries: its locations and its technology tags. */
  datatype TagKind = Location | Tech

  function TagsOf(job: Job, kind: TagKind): seq<string>
  {
    match kind
    case Location => job.locations
    case Tech => job.techTags
  }

  /** Every tag of `b` occurs in `a`, checked one element of `b` at a time. */
  function IncludesAll(a: seq<string>, b: seq<string>): (r: bool)
    ensures r <==> forall v :: v in b ==> v in a
    ensures b == [] ==> r
  {
    if b == [] then true
    else b[0] in a && IncludesAll(a, b[1..])
  }

  /** The tags of one kind of all jobs, concatenated job after job: the
      accumulator of a left fold that appends each job's tags. */
  function Concatenated(jobs: seq<Job>, kind: TagKind): (r: seq<string>)
    ensures forall t :: t in r <==> exists i :: 0 <= i < |jobs| && t in TagsOf(jobs[i], kind)
    ensures jobs == [] ==> r == []
  {
    if jobs == [] then []
    else
      var init := jobs[..|jobs| - 1];
      assert forall i :: 0 <= i < |init| ==> init[i] == jobs[i];
      Concatenated(init, kind) + TagsOf(jobs[|jobs| - 1], kind)
  }

  /** The fold visits the jobs in order: the tags of `a + b` are the tags of
      `a` followed by the tags of `b`. */
  lemma {:induction false} ConcatenatedAppend(a: seq<Job>, b: seq<Job>, kind: TagKind)
    ensures Concatenated(a + b, kind) == Concatenated(a, kind) + Concatenated(b, kind)
    decreases |b|
  {
    if b == [] {
      assert a + b == a;
    } else {
      var b' := b[..|b| - 1];
      assert (a + b)[..|a + b| - 1] == a + b';
      assert (a + b)[|a + b| - 1] == b[|b| - 1];
      ConcatenatedAppend(a, b', kind);
    }
  }

  /** The distinct location tags of all jobs, in first-occurrence order. */
  function AllLoTags(jobs: seq<Job>): (r: seq<string>)
    ensures NoDup(r)
    ensures forall t :: t in r <==> exists j :: j in jobs && t in j.locations
    ensures FirstOccurrences(Concatenated(jobs, Location), r)
    ensures jobs == [] ==> r == []
  {
    var all := Concatenated(jobs, Location);
    assert forall t :: t in all <==> exists j :: j in jobs && t in j.locations by {
      forall t
        ensures t in all <==> exists j :: j in jobs && t in j.locations
      {
        if t in all {
          var i :| 0 <= i < |jobs| && t in TagsOf(jobs[i], Location);
          assert jobs[i] in jobs && t in jobs[i].locations;
        }
        if exists j :: j in jobs && t in j.locations {
          var j :| j in jobs && t in j.locations;
          var i :| 0 <= i < |jobs| && jobs[i] == j;
          assert t in TagsOf(jobs[i], Location);
        }
      }
    }
    Dedup(all)
  }

  /** The distinct technology tags of all jobs, in first-occurrence order. */
  function AllTechTags(jobs: seq<Job>): (r: seq<string>)
    ensures NoDup(r)
    ensures forall t :: t in r <==> exists j :: j in jobs && t in j.techTags
    ensures FirstOccurrences(Concatenated(jobs, Tech), r)
    ensures jobs == [] ==> r == []
  {
    var all := Concatenated(jobs, Tech);
    assert forall t :: t in all <==> exists j :: j in jobs && t in j.techTags by {
      forall t
        ensures t in all <==> exists j :: j in jobs && t in j.techTags
      {
        if t in all {
          var i :| 0 <= i < |jobs| && t in TagsOf(jobs[i], Tech);
          assert jobs[i] in jobs && t in jobs[i].techTags;
        }
        if exists j :: j in jobs && t in j.techTags {
          var j :| j in jobs && t in j.techTags;
          var i :| 0 <= i < |jobs| && jobs[i] == j;
          assert t in TagsOf(jobs[i], Tech);
        }
      }
    }
    Dedup(all)
  }
}
