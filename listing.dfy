/** The job filter: which job cards the listing shows for the current
    location and technology selections. */
module Listing {
  import opened Seqs
  import opened Tags

  /** A job is shown when its locations include every selected location and
      its technology tags include every selected technology tag. */
  predicate Matches(job: Job, loSearchArr: seq<string>, techSearchArr: seq<string>)
    ensures Matches(job, loSearchArr, techSearchArr) <==>
      && (forall t :: t in loSearchArr ==> t in job.locations)
      && (forall t :: t in techSearchArr ==> t in job.techTags)
  {
    IncludesAll(job.locations, loSearchArr) && IncludesAll(job.techTags, techSearchArr)
  }

  /** The jobs whose cards are rendered. A job that does not match renders as
      an empty string, which shows nothing, so the visible cards are the
      matching jobs in their input order. */
  function JobsCards(jobs: seq<Job>, loSearchArr: seq<string>, techSearchArr: seq<string>): (r: seq<Job>)
    ensures |r| <= |jobs|
    ensures forall j :: j in r <==>
      && j in jobs
      && (forall t :: t in loSearchArr ==> t in j.locations)
      && (forall t :: t in techSearchArr ==> t in j.techTags)
  {
    Filter(jobs, j => Matches(j, loSearchArr, techSearchArr))
  }

  /** Filtering keeps relative order: the cards of two concatenated job lists
      are the cards of the first followed by the cards of the second. */
  lemma JobsCardsKeepOrder(a: seq<Job>, b: seq<Job>, loSearchArr: seq<string>, techSearchArr: seq<string>)
    ensures JobsCards(a + b, loSearchArr, techSearchArr)
         == JobsCards(a, loSearchArr, techSearchArr) + JobsCards(b, loSearchArr, techSearchArr)
  {
    FilterConcat(a, b, j => Matches(j, loSearchArr, techSearchArr));
  }

  /** A single job yields its card exactly when it matches. */
  lemma JobsCardsSingle(job: Job, loSearchArr: seq<string>, techSearchArr: seq<string>)
    ensures JobsCards([job], loSearchArr, techSearchArr)
         == if Matches(job, loSearchArr, techSearchArr) then [job] else []
  {
  }

  /** With neither kind of tag selected, every job is shown, in input order. */
  lemma NoSelectionShowsAll(jobs: seq<Job>)
    ensures JobsCards(jobs, [], []) == jobs
  {
    FilterKeepsAll(jobs, j => Matches(j, [], []));
  }

  /** The list is unchanged exactly when every job matches. */
  lemma JobsCardsAllShown(jobs: seq<Job>, loSearchArr: seq<string>, techSearchArr: seq<string>)
    ensures JobsCards(jobs, loSearchArr, techSearchArr) == jobs
        <==> forall j :: j in jobs ==> Matches(j, loSearchArr, techSearchArr)
  {
    FilterKeepsAll(jobs, j => Matches(j, loSearchArr, techSearchArr));
  }

  /** A selected technology tag that no job carries hides every job. */
  lemma UnknownTechTagShowsNone(jobs: seq<Job>, loSearchArr: seq<string>, techSearchArr: seq<string>, t: string)
    requires t in techSearchArr && t !in AllTechTags(jobs)
    ensures JobsCards(jobs, loSearchArr, techSearchArr) == []
  {
    var r := JobsCards(jobs, loSearchArr, techSearchArr);
    if r != [] {
      HeadIsMember(r);
      assert false;
    }
  }

  /** A selected location tag that no job carries hides every job. */
  lemma UnknownLoTagShowsNone(jobs: seq<Job>, loSearchArr: seq<string>, techSearchArr: seq<string>, t: string)
    requires t in loSearchArr && t !in AllLoTags(jobs)
    ensures JobsCards(jobs, loSearchArr, techSearchArr) == []
  {
    var r := JobsCards(jobs, loSearchArr, techSearchArr);
    if r != [] {
      HeadIsMember(r);
      assert false;
    }
  }

  /** Selecting one more location tag narrows the list to the previously shown
      jobs that carry that tag, in the same order. */
  lemma {:induction false} AddLoTagNarrows(jobs: seq<Job>, loSearchArr: seq<string>, techSearchArr: seq<string>, t: string)
    ensures JobsCards(jobs, loSearchArr + [t], techSearchArr)
         == Filter(JobsCards(jobs, loSearchArr, techSearchArr), (j: Job) => t in j.locations)
  {
    if jobs != [] {
      AddLoTagNarrows(jobs[1..], loSearchArr, techSearchArr, t);
      var j := jobs[0];
      assert IncludesAll(j.locations, loSearchArr + [t]) == (IncludesAll(j.locations, loSearchArr) && t in j.locations);
      var kept := JobsCards(jobs[1..], loSearchArr, techSearchArr);
      if Matches(j, loSearchArr, techSearchArr) {
        assert JobsCards(jobs, loSearchArr, techSearchArr) == [j] + kept;
        assert ([j] + kept)[1..] == kept;
      } else {
        assert JobsCards(jobs, loSearchArr, techSearchArr) == kept;
      }
    }
  }

  /** Selecting one more technology tag narrows the list to the previously
      shown jobs that carry that tag, in the same order. */
  lemma {:induction false} AddTechTagNarrows(jobs: seq<Job>, loSearchArr: seq<string>, techSearchArr: seq<string>, t: string)
    ensures JobsCards(jobs, loSearchArr, techSearchArr + [t])
         == Filter(JobsCards(jobs, loSearchArr, techSearchArr), (j: Job) => t in j.techTags)
  {
    if jobs != [] {
      AddTechTagNarrows(jobs[1..], loSearchArr, techSearchArr, t);
      var j := jobs[0];
      assert IncludesAll(j.techTags, techSearchArr + [t]) == (IncludesAll(j.techTags, techSearchArr) && t in j.techTags);
      var kept := JobsCards(jobs[1..], loSearchArr, techSearchArr);
      if Matches(j, loSearchArr, techSearchArr) {
        assert JobsCards(jobs, loSearchArr, techSearchArr) == [j] + kept;
        assert ([j] + kept)[1..] == kept;
      } else {
        assert JobsCards(jobs, loSearchArr, techSearchArr) == kept;
      }
    }
  }

  /** Two postings, one in NYC working in go and one in SF working in rust. */
  const SampleJobs: seq<Job> :=
    [ Job("Acme", "acme.png", "Backend", "acme.example/jobs/1", ["NYC"], "2020-01-01", ["go"]),
      Job("Bolt", "bolt.png", "Systems", "bolt.example/jobs/2", ["SF"], "2020-01-02", ["rust"]) ]

  /** Selecting the location NYC shows only the first sample posting. */
  lemma SampleSelectNyc()
    ensures JobsCards(SampleJobs, ["NYC"], []) == [SampleJobs[0]]
  {
  }
}
