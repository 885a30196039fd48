/** The filter widget's state and its transitions, as functions of the state
    before the event: typing into an input, Enter key-up on an input, picking
    a datalist suggestion, and dismissing a selected-tag chip. The class in
    module JobsComponent is proved against these functions. */
module TagFilter {
  import opened Seqs
  import opened Tags

  datatype Result<T> = Ok(value: T) | Err(message: string)

  /** The component's view state: the selected location and technology tags,
      and the text of the two filter inputs. */
  datatype State = State(
    loSearchArr: seq<string>,
    techSearchArr: seq<string>,
    loTagInput: string,
    techTagInput: string)

  /** The vocabularies the suggestions and checks use. */
  datatype Vocab = Vocab(allLoTags: seq<string>, allTechTags: seq<string>)

  function VocabOf(jobs: seq<Job>): Vocab
  {
    Vocab(AllLoTags(jobs), AllTechTags(jobs))
  }

  const InitialState := State([], [], "", "")

  /** The key code of the Enter key. */
  const EnterKeyCode := 13

  /** The message of the error thrown for a tag type other than "lo" or "tech". */
  const InvalidTagTypeMessage := "invald tag type"

  predicate ValidTagType(tagType: string)
  {
    tagType == "lo" || tagType == "tech"
  }

  /** A selection holds no tag twice and only tags of its vocabulary. */
  predicate WellFormedSelection(selected: seq<string>, vocabulary: seq<string>)
  {
    NoDup(selected) && forall t :: t in selected ==> t in vocabulary
  }

  /** Both selections are well formed for their own vocabularies. */
  predicate Inv(s: State, v: Vocab)
  {
    WellFormedSelection(s.loSearchArr, v.allLoTags) && WellFormedSelection(s.techSearchArr, v.allTechTags)
  }

  /** Appends `t` to the selection when it is a vocabulary entry that is not
      selected yet; otherwise the selection is kept as it is. */
  function Confirm(selected: seq<string>, vocabulary: seq<string>, t: string): (r: seq<string>)
    ensures |selected| <= |r| <= |selected| + 1
    ensures r[..|selected|] == selected
    ensures forall x :: x in r <==> x in selected || (x == t && t in vocabulary)
  {
    if t in vocabulary && t !in selected then selected + [t] else selected
  }

  /** Removes every occurrence of `tag`, keeping the other tags in order. */
  function Without(selected: seq<string>, tag: string): (r: seq<string>)
    ensures |r| <= |selected|
    ensures forall x :: x in r <==> x in selected && x != tag
  {
    Filter(selected, (x: string) => x != tag)
  }

  /** The controlled inputs: typing replaces the text of its own input and
      leaves both selections and the other input alone. */
  function AfterLoInputChange(s: State, value: string): (r: State)
    ensures r.loTagInput == value
    ensures r.loSearchArr == s.loSearchArr && r.techSearchArr == s.techSearchArr
    ensures r.techTagInput == s.techTagInput
  {
    s.(loTagInput := value)
  }

  function AfterTechInputChange(s: State, value: string): (r: State)
    ensures r.techTagInput == value
    ensures r.loSearchArr == s.loSearchArr && r.techSearchArr == s.techSearchArr
    ensures r.loTagInput == s.loTagInput
  {
    s.(techTagInput := value)
  }

  /** Key-up on one of the two inputs. A tag type other than "lo" or "tech"
      is an error. On Enter, the location input confirms its text against the
      location vocabulary and clears itself. The technology input, as written,
      also confirms its text against the LOCATION vocabulary, into the
      LOCATION selection, and then clears itself. Any other key changes
      nothing. */
  function AfterKeyUp(s: State, v: Vocab, keyCode: int, tagType: string): (r: Result<State>)
    ensures r.Err? <==> !ValidTagType(tagType)
    ensures r.Ok? ==> r.value.techSearchArr == s.techSearchArr
    ensures r.Ok? && keyCode != EnterKeyCode ==> r.value == s
  {
    if !ValidTagType(tagType) then Err(InvalidTagTypeMessage)
    else if keyCode != EnterKeyCode then Ok(s)
    else if tagType == "lo" then
      Ok(s.(loSearchArr := Confirm(s.loSearchArr, v.allLoTags, s.loTagInput), loTagInput := ""))
    else
      Ok(s.(loSearchArr := Confirm(s.loSearchArr, v.allLoTags, s.techTagInput), techTagInput := ""))
  }

  /** An "input" event on the technology input whose current text is `value`.
      Only a non-empty value not delivered as a keystroke (a suggestion pick)
      is confirmed; the input is then cleared. */
  function AfterTechListInput(s: State, v: Vocab, value: string, isInputEvent: bool): (r: State)
    ensures r.loSearchArr == s.loSearchArr && r.loTagInput == s.loTagInput
    ensures value == "" || isInputEvent ==> r == s
    ensures value != "" && !isInputEvent ==> r.techTagInput == ""
  {
    if value == "" || isInputEvent then s
    else s.(techSearchArr := Confirm(s.techSearchArr, v.allTechTags, value), techTagInput := "")
  }

  /** The same for the location input. */
  function AfterLoListInput(s: State, v: Vocab, value: string, isInputEvent: bool): (r: State)
    ensures r.techSearchArr == s.techSearchArr && r.techTagInput == s.techTagInput
    ensures value == "" || isInputEvent ==> r == s
    ensures value != "" && !isInputEvent ==> r.loTagInput == ""
  {
    if value == "" || isInputEvent then s
    else s.(loSearchArr := Confirm(s.loSearchArr, v.allLoTags, value), loTagInput := "")
  }

  /** Dismissing a chip removes its tag from the selection of its kind; a tag
      type other than "lo" or "tech" is an error. */
  function AfterRemoveTag(s: State, tag: string, tagType: string): (r: Result<State>)
    ensures r.Err? <==> !ValidTagType(tagType)
    ensures r.Ok? ==> r.value.loTagInput == s.loTagInput && r.value.techTagInput == s.techTagInput
    ensures r.Ok? ==> tag !in r.value.loSearchArr || r.value.loSearchArr == s.loSearchArr
    ensures r.Ok? ==> tag !in r.value.techSearchArr || r.value.techSearchArr == s.techSearchArr
  {
    if !ValidTagType(tagType) then Err(InvalidTagTypeMessage)
    else if tagType == "lo" then Ok(s.(loSearchArr := Without(s.loSearchArr, tag)))
    else Ok(s.(techSearchArr := Without(s.techSearchArr, tag)))
  }

  // ----- Confirm and Without -----

  /** Confirming keeps a selection well formed. */
  lemma ConfirmPreservesWellFormed(selected: seq<string>, vocabulary: seq<string>, t: string)
    requires WellFormedSelection(selected, vocabulary)
    ensures WellFormedSelection(Confirm(selected, vocabulary, t), vocabulary)
  {
  }

  /** Confirming the same text twice is confirming it once. */
  lemma ConfirmIdempotent(selected: seq<string>, vocabulary: seq<string>, t: string)
    ensures Confirm(Confirm(selected, vocabulary, t), vocabulary, t) == Confirm(selected, vocabulary, t)
  {
  }

  /** Removal leaves a selection unchanged exactly when the tag is absent. */
  lemma WithoutAbsent(selected: seq<string>, tag: string)
    ensures Without(selected, tag) == selected <==> tag !in selected
  {
    FilterKeepsAll(selected, (x: string) => x != tag);
  }

  /** Removing twice is removing once. */
  lemma WithoutIdempotent(selected: seq<string>, tag: string)
    ensures Without(Without(selected, tag), tag) == Without(selected, tag)
  {
    FilterIdempotent(selected, (x: string) => x != tag);
  }

  /** Removal keeps the remaining tags in their order. */
  lemma WithoutKeepsOrder(a: seq<string>, b: seq<string>, tag: string)
    ensures Without(a + b, tag) == Without(a, tag) + Without(b, tag)
  {
    FilterConcat(a, b, (x: string) => x != tag);
  }

  /** Removal keeps a selection well formed. */
  lemma WithoutPreservesWellFormed(selected: seq<string>, vocabulary: seq<string>, tag: string)
    requires WellFormedSelection(selected, vocabulary)
    ensures WellFormedSelection(Without(selected, tag), vocabulary)
  {
    FilterNoDup(selected, (x: string) => x != tag);
  }

  /** Dismissing the chip of a tag that was just added restores the selection. */
  lemma WithoutUndoesConfirm(selected: seq<string>, vocabulary: seq<string>, t: string)
    requires t !in selected
    ensures Without(Confirm(selected, vocabulary, t), t) == selected
  {
    WithoutAbsent(selected, t);
    if t in vocabulary {
      WithoutKeepsOrder(selected, [t], t);
      assert Without([t], t) == [];
    }
  }

  // ----- Key-up -----

  /** Key-up throws exactly for an unknown tag type, and then changes nothing. */
  lemma KeyUpRejectsUnknownTagType(s: State, v: Vocab, keyCode: int, tagType: string)
    ensures AfterKeyUp(s, v, keyCode, tagType).Err? <==> !ValidTagType(tagType)
    ensures AfterKeyUp(s, v, keyCode, tagType).Err? ==>
      AfterKeyUp(s, v, keyCode, tagType).message == InvalidTagTypeMessage
  {
  }

  /** Any key other than Enter leaves the whole state unchanged. */
  lemma KeyUpIgnoresOtherKeys(s: State, v: Vocab, keyCode: int, tagType: string)
    requires ValidTagType(tagType) && keyCode != EnterKeyCode
    ensures AfterKeyUp(s, v, keyCode, tagType) == Ok(s)
  {
  }

  /** Enter on the location input: the typed text is appended to the location
      selection exactly when it is a location tag not yet selected, and the
      location input is cleared whether or not the text was recognised. The
      technology selection and input are untouched. */
  lemma LoEnter(s: State, v: Vocab)
    ensures AfterKeyUp(s, v, EnterKeyCode, "lo").Ok?
    ensures var r := AfterKeyUp(s, v, EnterKeyCode, "lo").value;
      && (s.loTagInput in v.allLoTags && s.loTagInput !in s.loSearchArr ==>
            r.loSearchArr == s.loSearchArr + [s.loTagInput])
      && (s.loTagInput !in v.allLoTags || s.loTagInput in s.loSearchArr ==>
            r.loSearchArr == s.loSearchArr)
      && r.loTagInput == ""
      && r.techSearchArr == s.techSearchArr
      && r.techTagInput == s.techTagInput
  {
  }

  /** Under the invariant, Enter on the location input leaves the typed text
      selected exactly when it is a location tag. */
  lemma LoEnterSelectsKnownText(s: State, v: Vocab)
    requires Inv(s, v)
    ensures s.loTagInput in AfterKeyUp(s, v, EnterKeyCode, "lo").value.loSearchArr
        <==> s.loTagInput in v.allLoTags
  {
  }

  /** Enter on the technology input, as written: the typed text is checked
      against the LOCATION vocabulary and selection and appended to the
      LOCATION selection; the technology selection never changes; the
      technology input is cleared and the location input is untouched. */
  lemma TechEnterAsWritten(s: State, v: Vocab)
    ensures AfterKeyUp(s, v, EnterKeyCode, "tech").Ok?
    ensures var r := AfterKeyUp(s, v, EnterKeyCode, "tech").value;
      && (s.techTagInput in v.allLoTags && s.techTagInput !in s.loSearchArr ==>
            r.loSearchArr == s.loSearchArr + [s.techTagInput])
      && (s.techTagInput !in v.allLoTags || s.techTagInput in s.loSearchArr ==>
            r.loSearchArr == s.loSearchArr)
      && r.techSearchArr == s.techSearchArr
      && r.techTagInput == ""
      && r.loTagInput == s.loTagInput
  {
  }

  /** No key-up ever changes the technology selection. */
  lemma KeyUpNeverSelectsTech(s: State, v: Vocab, keyCode: int, tagType: string)
    requires AfterKeyUp(s, v, keyCode, tagType).Ok?
    ensures AfterKeyUp(s, v, keyCode, tagType).value.techSearchArr == s.techSearchArr
  {
  }

  /** A concrete trace of the technology Enter branch: typing the technology
      tag "go" and pressing Enter selects nothing, while typing the location
      "NYC" into the technology input selects it as a location. */
  lemma TechEnterExamples()
    ensures AfterKeyUp(State([], [], "", "go"), Vocab(["NYC"], ["go"]), EnterKeyCode, "tech")
         == Ok(State([], [], "", ""))
    ensures AfterKeyUp(State([], [], "", "NYC"), Vocab(["NYC"], ["go"]), EnterKeyCode, "tech")
         == Ok(State(["NYC"], [], "", ""))
  {
    assert [] + ["NYC"] == ["NYC"];
  }

  /** Key-up keeps both selections well formed. */
  lemma KeyUpPreservesInv(s: State, v: Vocab, keyCode: int, tagType: string)
    requires Inv(s, v) && AfterKeyUp(s, v, keyCode, tagType).Ok?
    ensures Inv(AfterKeyUp(s, v, keyCode, tagType).value, v)
  {
  }

  // ----- Datalist suggestion picks -----

  /** A keystroke or an empty input is ignored by both listeners. */
  lemma ListInputIgnored(s: State, v: Vocab, value: string, isInputEvent: bool)
    requires value == "" || isInputEvent
    ensures AfterTechListInput(s, v, value, isInputEvent) == s
    ensures AfterLoListInput(s, v, value, isInputEvent) == s
  {
  }

  /** A technology suggestion pick selects the value exactly when it is a
      technology tag not yet selected, clears the technology input and leaves
      the location state alone. */
  lemma TechListInputPick(s: State, v: Vocab, value: string)
    requires value != ""
    ensures var r := AfterTechListInput(s, v, value, false);
      && (value in v.allTechTags && value !in s.techSearchArr ==>
            r.techSearchArr == s.techSearchArr + [value])
      && (value !in v.allTechTags || value in s.techSearchArr ==>
            r.techSearchArr == s.techSearchArr)
      && r.techTagInput == ""
      && r.loSearchArr == s.loSearchArr
      && r.loTagInput == s.loTagInput
  {
  }

  /** A location suggestion pick selects the value exactly when it is a
      location tag not yet selected, clears the location input and leaves the
      technology state alone. */
  lemma LoListInputPick(s: State, v: Vocab, value: string)
    requires value != ""
    ensures var r := AfterLoListInput(s, v, value, false);
      && (value in v.allLoTags && value !in s.loSearchArr ==>
            r.loSearchArr == s.loSearchArr + [value])
      && (value !in v.allLoTags || value in s.loSearchArr ==>
            r.loSearchArr == s.loSearchArr)
      && r.loTagInput == ""
      && r.techSearchArr == s.techSearchArr
      && r.techTagInput == s.techTagInput
  {
  }

  /** Picking the same suggestion twice is picking it once. */
  lemma ListInputIdempotent(s: State, v: Vocab, value: string, isInputEvent: bool)
    ensures AfterTechListInput(AfterTechListInput(s, v, value, isInputEvent), v, value, isInputEvent)
         == AfterTechListInput(s, v, value, isInputEvent)
    ensures AfterLoListInput(AfterLoListInput(s, v, value, isInputEvent), v, value, isInputEvent)
         == AfterLoListInput(s, v, value, isInputEvent)
  {
  }

  /** Suggestion picks keep both selections well formed. */
  lemma ListInputPreservesInv(s: State, v: Vocab, value: string, isInputEvent: bool)
    requires Inv(s, v)
    ensures Inv(AfterTechListInput(s, v, value, isInputEvent), v)
    ensures Inv(AfterLoListInput(s, v, value, isInputEvent), v)
  {
  }

  // ----- Chip removal -----

  /** Removal throws exactly for an unknown tag type. */
  lemma RemoveTagRejectsUnknownTagType(s: State, tag: string, tagType: string)
    ensures AfterRemoveTag(s, tag, tagType).Err? <==> !ValidTagType(tagType)
  {
  }

  /** Removing a location chip drops every occurrence of that tag from the
      location selection and changes nothing else; likewise for technology. */
  lemma RemoveTagEffect(s: State, tag: string, x: string)
    ensures var r := AfterRemoveTag(s, tag, "lo").value;
      && (x in r.loSearchArr <==> x in s.loSearchArr && x != tag)
      && r.techSearchArr == s.techSearchArr
      && r.loTagInput == s.loTagInput && r.techTagInput == s.techTagInput
    ensures var r := AfterRemoveTag(s, tag, "tech").value;
      && (x in r.techSearchArr <==> x in s.techSearchArr && x != tag)
      && r.loSearchArr == s.loSearchArr
      && r.loTagInput == s.loTagInput && r.techTagInput == s.techTagInput
  {
  }

  /** Removing a tag that is not selected leaves the state unchanged. */
  lemma RemoveAbsentTagIsNoop(s: State, tag: string, tagType: string)
    requires tagType == "lo" ==> tag !in s.loSearchArr
    requires tagType == "tech" ==> tag !in s.techSearchArr
    requires ValidTagType(tagType)
    ensures AfterRemoveTag(s, tag, tagType) == Ok(s)
  {
    WithoutAbsent(s.loSearchArr, tag);
    WithoutAbsent(s.techSearchArr, tag);
  }

  /** Removing the same chip twice is removing it once. */
  lemma RemoveTagIdempotent(s: State, tag: string, tagType: string)
    requires ValidTagType(tagType)
    ensures AfterRemoveTag(AfterRemoveTag(s, tag, tagType).value, tag, tagType)
         == AfterRemoveTag(s, tag, tagType)
  {
    WithoutIdempotent(s.loSearchArr, tag);
    WithoutIdempotent(s.techSearchArr, tag);
  }

  /** Removal keeps both selections well formed. */
  lemma RemoveTagPreservesInv(s: State, v: Vocab, tag: string, tagType: string)
    requires Inv(s, v) && ValidTagType(tagType)
    ensures Inv(AfterRemoveTag(s, tag, tagType).value, v)
  {
    WithoutPreservesWellFormed(s.loSearchArr, v.allLoTags, tag);
    WithoutPreservesWellFormed(s.techSearchArr, v.allTechTags, tag);
  }

  // ----- Event sequences -----

  /** The user events the component reacts to. */
  datatype Event =
    | InputChange(kind: TagKind, value: string)
    | KeyUp(keyCode: int, tagType: string)
    | ListInput(kind: TagKind, value: string, isInputEvent: bool)
    | ChipRemove(tag: string, tagType: string)

  /** The state after one event. A handler that throws does so before it
      updates anything, so the state is then unchanged. */
  function Step(s: State, v: Vocab, e: Event): State
  {
    match e
    case InputChange(Location, value) => AfterLoInputChange(s, value)
    case InputChange(Tech, value) => AfterTechInputChange(s, value)
    case KeyUp(keyCode, tagType) =>
      (match AfterKeyUp(s, v, keyCode, tagType) case Ok(s') => s' case Err(_) => s)
    case ListInput(Location, value, isInputEvent) => AfterLoListInput(s, v, value, isInputEvent)
    case ListInput(Tech, value, isInputEvent) => AfterTechListInput(s, v, value, isInputEvent)
    case ChipRemove(tag, tagType) =>
      (match AfterRemoveTag(s, tag, tagType) case Ok(s') => s' case Err(_) => s)
  }

  /** The state after a sequence of events, handled one at a time. */
  function Run(s: State, v: Vocab, events: seq<Event>): State
    decreases |events|
  {
    if events == [] then s else Run(Step(s, v, events[0]), v, events[1..])
  }

  /** Every event keeps both selections well formed. */
  lemma StepPreservesInv(s: State, v: Vocab, e: Event)
    requires Inv(s, v)
    ensures Inv(Step(s, v, e), v)
  {
    match e
    case InputChange(_, _) =>
    case KeyUp(keyCode, tagType) =>
      if AfterKeyUp(s, v, keyCode, tagType).Ok? {
        KeyUpPreservesInv(s, v, keyCode, tagType);
      }
    case ListInput(_, value, isInputEvent) =>
      ListInputPreservesInv(s, v, value, isInputEvent);
    case ChipRemove(tag, tagType) =>
      if ValidTagType(tagType) {
        RemoveTagPreservesInv(s, v, tag, tagType);
      }
  }

  /** However the user interacts with the component, each selection stays
      duplicate-free and inside its vocabulary. */
  lemma {:induction false} RunPreservesInv(s: State, v: Vocab, events: seq<Event>)
    requires Inv(s, v)
    ensures Inv(Run(s, v, events), v)
    decreases |events|
  {
    if events != [] {
      StepPreservesInv(s, v, events[0]);
      RunPreservesInv(Step(s, v, events[0]), v, events[1..]);
    }
  }

  /** Every state reachable from the initial one for a job list satisfies the
      invariant for that job list's vocabularies. */
  lemma ReachableStatesWellFormed(jobs: seq<Job>, events: seq<Event>)
    ensures Inv(Run(InitialState, VocabOf(jobs), events), VocabOf(jobs))
  {
    RunPreservesInv(InitialState, VocabOf(jobs), events);
  }
}
