/** The job-listing component as an object: the job list and the two
    vocabularies are fixed when it is created, and the event handlers update
    the four state fields in place. Each handler is proved against the
    matching transition function of module TagFilter. */
module JobsComponent {
  import opened Tags
  import opened Listing
  import opened TagFilter

  class Jobs {
    const jobs: seq<Job>
    const allLoTags: seq<string>
    const allTechTags: seq<string>

    var loSearchArr: seq<string>
    var techSearchArr: seq<string>
    var loTagInput: string
    var techTagInput: string

    /** The vocabularies belong to the job list and both selections are
        duplicate-free and inside their vocabularies. */
    ghost predicate Valid()
      reads this
    {
      && allLoTags == AllLoTags(jobs)
      && allTechTags == AllTechTags(jobs)
      && Inv(Snapshot(), Vocabulary())
    }

    /** The four state fields as one value. */
    function Snapshot(): State
      reads this
    {
      State(loSearchArr, techSearchArr, loTagInput, techTagInput)
    }

    function Vocabulary(): Vocab
    {
      Vocab(allLoTags, allTechTags)
    }

    /** The jobs whose cards the component currently renders. */
    function Cards(): seq<Job>
      reads this
    {
      JobsCards(jobs, loSearchArr, techSearchArr)
    }

    constructor (jobs: seq<Job>)
      ensures Valid()
      ensures this.jobs == jobs && Vocabulary() == VocabOf(jobs)
      ensures Snapshot() == InitialState
      ensures Cards() == jobs
    {
      this.jobs := jobs;
      allLoTags := AllLoTags(jobs);
      allTechTags := AllTechTags(jobs);
      loSearchArr := [];
      techSearchArr := [];
      loTagInput := "";
      techTagInput := "";
      new;
      NoSelectionShowsAll(jobs);
    }

    /** The location input's change handler. */
    method OnLoInputChange(value: string)
      requires Valid()
      modifies this
      ensures Valid()
      ensures Snapshot() == AfterLoInputChange(old(Snapshot()), value)
    {
      loTagInput := value;
    }

    /** The technology input's change handler. */
    method OnTechInputChange(value: string)
      requires Valid()
      modifies this
      ensures Valid()
      ensures Snapshot() == AfterTechInputChange(old(Snapshot()), value)
    {
      techTagInput := value;
    }

    /** The key-up handler of both inputs, `tagType` naming the input. */
    method OnTagInputKeyUp(keyCode: int, tagType: string) returns (outcome: Result<()>)
      requires Valid()
      modifies this
      ensures Valid()
      ensures AfterKeyUp(old(Snapshot()), Vocabulary(), keyCode, tagType)
           == if outcome.Err? then Err(outcome.message) else Ok(Snapshot())
      ensures outcome.Err? ==> Snapshot() == old(Snapshot())
    {
      if tagType != "lo" && tagType != "tech" {
        return Err(InvalidTagTypeMessage);
      }
      KeyUpPreservesInv(Snapshot(), Vocabulary(), keyCode, tagType);
      if keyCode == EnterKeyCode {
        if tagType == "lo" {
          if loTagInput in allLoTags && loTagInput !in loSearchArr {
            loSearchArr := loSearchArr + [loTagInput];
          }
          loTagInput := "";
        }
        if tagType == "tech" {
          if techTagInput in allLoTags && techTagInput !in loSearchArr {
            loSearchArr := loSearchArr + [techTagInput];
          }
          techTagInput := "";
        }
      }
      outcome := Ok(());
    }

    /** The technology input's "input" listener; `value` is the input's text
        and `isInputEvent` tells whether the event came from a keystroke. */
    method OnTechListInput(value: string, isInputEvent: bool)
      requires Valid()
      modifies this
      ensures Valid()
      ensures Snapshot() == AfterTechListInput(old(Snapshot()), Vocabulary(), value, isInputEvent)
    {
      ListInputPreservesInv(Snapshot(), Vocabulary(), value, isInputEvent);
      if value != "" {
        if !isInputEvent {
          if value in allTechTags && value !in techSearchArr {
            techSearchArr := techSearchArr + [value];
          }
          techTagInput := "";
        }
      }
    }

    /** The location input's "input" listener. */
    method OnLoListInput(value: string, isInputEvent: bool)
      requires Valid()
      modifies this
      ensures Valid()
      ensures Snapshot() == AfterLoListInput(old(Snapshot()), Vocabulary(), value, isInputEvent)
    {
      ListInputPreservesInv(Snapshot(), Vocabulary(), value, isInputEvent);
      if value != "" {
        if !isInputEvent {
          if value in allLoTags && value !in loSearchArr {
            loSearchArr := loSearchArr + [value];
          }
          loTagInput := "";
        }
      }
    }

    /** The chip dismiss handler: replaces the selection `tagType` names by
        that selection without `tag`. */
    method RemoveTag(tag: string, tagType: string) returns (outcome: Result<()>)
      requires Valid()
      modifies this
      ensures Valid()
      ensures AfterRemoveTag(old(Snapshot()), tag, tagType)
           == if outcome.Err? then Err(outcome.message) else Ok(Snapshot())
      ensures outcome.Err? ==> Snapshot() == old(Snapshot())
    {
      if tagType != "lo" && tagType != "tech" {
        return Err(InvalidTagTypeMessage);
      }
      RemoveTagPreservesInv(Snapshot(), Vocabulary(), tag, tagType);
      if tagType == "lo" {
        loSearchArr := Without(loSearchArr, tag);
      }
      if tagType == "tech" {
        techSearchArr := Without(techSearchArr, tag);
      }
      outcome := Ok(());
    }
  }
}
