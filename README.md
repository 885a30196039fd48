# Job listing tag filter — a Dafny model

This project models the filtering logic of the job-listing component of
open-source-jobs (`pages/components/Jobs.js`), without React and without the DOM.
The component takes a list of job postings. From them it derives two
vocabularies: the distinct location tags and the distinct technology tags. It
keeps four pieces of view state:

- `loSearchArr`: the selected location tags;
- `techSearchArr`: the selected technology tags;
- `loTagInput`: the text of the location input;
- `techTagInput`: the text of the technology input.

It renders the card of every job whose locations include every selected
location tag and whose technology tags include every selected technology tag.

The model has five modules:

- `Seqs` (`seqs.dfy`): sequence helpers. These are duplicate freedom, the
  first-occurrence index, `Dedup` (the order-keeping deduplication a
  JavaScript `Set` performs) and an order-keeping `Filter`. The lemmas show that
  `Dedup` is the *only* duplicate-free sequence over the same elements in
  first-occurrence order.
- `Tags` (`tags.dfy`): the `Job` record, the subset test `arrAIncludesArrB`
  (`IncludesAll`), the left fold that concatenates one field over all jobs
  (`Concatenated`), and the two vocabularies `AllLoTags` and `AllTechTags`.
- `Listing` (`listing.dfy`): the filter in `jobsCards` (`JobsCards`) and its
  properties. These are the membership if-and-only-if, order preservation,
  everything shown when nothing is selected, narrowing when a tag is added,
  and nothing shown for a tag no job carries.
- `TagFilter` (`tag_filter.dfy`): the state as a value (`State`) and one
  transition function per handler. The functions are typing, Enter key-up,
  datalist pick and chip removal. There are lemmas about each, and a lemma
  that any sequence of events keeps both selections duplicate-free and inside
  their vocabularies.
- `JobsComponent` (`jobs_component.dfy`): the component as a class `Jobs`. Its
  job list and vocabularies are fixed when it is constructed. It has the four
  state fields, and one method per handler that updates those fields in place.
  Every method is proved to produce exactly the state the matching
  `TagFilter` function gives, and to keep the class invariant `Valid()`.

Three behaviours of the code worth keeping in mind:

- **Enter in the technology input.** The code tests the typed text against the
  *location* vocabulary and the *location* selection, and appends it to the
  *location* selection (`Jobs.js:121-126`). `AfterKeyUp` and
  `Jobs.OnTagInputKeyUp` reproduce this. The lemmas `TechEnterAsWritten`,
  `KeyUpNeverSelectsTech` and `TechEnterExamples` state the consequences. No
  key-up ever changes the technology selection. A technology tag that is not
  also a location tag selects nothing (in `TechEnterExamples` the location
  vocabulary is `["NYC"]`, and typing `go` then Enter selects nothing). Typing the location `NYC` into the
  technology input selects `NYC` as a location. The invariant still holds,
  because the appended text is checked against the location vocabulary.
- **Unrecognised text on Enter.** The input is cleared unconditionally, not left
  in place (`Jobs.js:119`, `Jobs.js:125`).
- **Vocabulary order.** The vocabularies keep first-occurrence order. A
  JavaScript `Set` iterates in insertion order, so the spread of a `Set` does
  that.

A tag type other than `"lo"` or `"tech"` makes the handler throw before it
changes anything. The model returns an error result with the source's message
(`"invald tag type"`) and leaves the state unchanged.

## Model

| member | source | states |
|---|---|---|
| Seqs.Dedup | pages/components/Jobs.js:13 | the result has no duplicates, holds exactly the input's elements, and lists them in the order of their first occurrence |
| Seqs.DedupCharacterised | pages/components/Jobs.js:20 | a sequence lists the distinct elements in first-occurrence order if and only if it is `Dedup` of the input |
| Seqs.Filter | pages/components/Jobs.js:135 | the result is no longer than the input and holds exactly the input's elements that pass the test |
| Seqs.FilterConcat | pages/components/Jobs.js:136 | filtering a concatenation is the concatenation of the filtered parts, so relative order is kept |
| Tags.IncludesAll | pages/components/Jobs.js:6-8 | true exactly when every element of `b` occurs in `a`; true for an empty `b` |
| Tags.Concatenated | pages/components/Jobs.js:11-12 | a tag occurs in the folded concatenation exactly when some job carries it in the chosen field; no jobs give an empty result |
| Tags.ConcatenatedAppend | pages/components/Jobs.js:11-12 | the fold visits the jobs in order: the tags of `a + b` are the tags of `a` followed by the tags of `b` |
| Tags.AllTechTags | pages/components/Jobs.js:10-14 | duplicate-free; a tag is in it exactly when some job lists it in `techTags`; first-occurrence order of the concatenation; empty for no jobs |
| Tags.AllLoTags | pages/components/Jobs.js:16-21 | duplicate-free; a tag is in it exactly when some job lists it in `locations`; first-occurrence order of the concatenation; empty for no jobs |
| Listing.Matches | pages/components/Jobs.js:88-91 | a job matches exactly when its locations include every selected location and its technology tags include every selected technology tag |
| Listing.JobsCards | pages/components/Jobs.js:79-107 | a job is shown exactly when it is in the list, its locations include every selected location and its tech tags include every selected tech tag; no more jobs than given |
| Listing.JobsCardsKeepOrder | pages/components/Jobs.js:79 | the cards of `a + b` are the cards of `a` followed by those of `b`: input order is kept |
| Listing.JobsCardsSingle | pages/components/Jobs.js:88-106 | one job yields its own card exactly when both matches hold, and nothing otherwise |
| Listing.NoSelectionShowsAll | pages/components/Jobs.js:88-89 | with both selections empty every job is shown, in input order |
| Listing.JobsCardsAllShown | pages/components/Jobs.js:91 | the shown list equals the job list exactly when every job matches |
| Listing.UnknownTechTagShowsNone | pages/components/Jobs.js:89 | a selected technology tag outside the technology vocabulary hides every job |
| Listing.UnknownLoTagShowsNone | pages/components/Jobs.js:88 | a selected location tag outside the location vocabulary hides every job |
| Listing.AddLoTagNarrows | pages/components/Jobs.js:88 | one more selected location shows the previously shown jobs that carry it, in the same order |
| Listing.AddTechTagNarrows | pages/components/Jobs.js:89 | one more selected technology tag shows the previously shown jobs that carry it, in the same order |
| Listing.SampleSelectNyc | pages/components/Jobs.js:79-107 | with a NYC/go job and an SF/rust job, selecting NYC shows only the first |
| TagFilter.ConfirmPreservesWellFormed | pages/components/Jobs.js:116-117 | adding a tag only when it is in the vocabulary and not yet selected keeps the selection duplicate-free and inside the vocabulary |
| TagFilter.Confirm | pages/components/Jobs.js:116-117 | confirming keeps the old tags as a prefix, adds at most one, and the result holds a tag exactly when it was selected or is the confirmed vocabulary entry; `ConfirmPreservesWellFormed`, `ConfirmIdempotent` and `WithoutUndoesConfirm` state the rest |
| TagFilter.ConfirmIdempotent | pages/components/Jobs.js:61-62 | confirming the same text twice is confirming it once |
| TagFilter.Without | pages/components/Jobs.js:135-136 | no longer than the selection, and a tag is in the result exactly when it was selected and is not the removed one; `WithoutAbsent`, `WithoutIdempotent`, `WithoutKeepsOrder` and `WithoutPreservesWellFormed` state the rest |
| TagFilter.WithoutAbsent | pages/components/Jobs.js:136 | removal leaves the selection unchanged exactly when the tag is absent |
| TagFilter.WithoutIdempotent | pages/components/Jobs.js:133-137 | removing twice is removing once |
| TagFilter.WithoutKeepsOrder | pages/components/Jobs.js:135-136 | removal from a concatenation is removal from each part, so the other tags keep their order |
| TagFilter.WithoutPreservesWellFormed | pages/components/Jobs.js:134-136 | removal keeps a selection duplicate-free and inside its vocabulary |
| TagFilter.WithoutUndoesConfirm | pages/components/Jobs.js:116-136 | removing the chip of a tag that was not selected before confirming it restores the earlier selection |
| TagFilter.AfterLoInputChange | pages/components/Jobs.js:145 | the location input takes the typed value; both selections and the technology input are unchanged |
| TagFilter.AfterTechInputChange | pages/components/Jobs.js:149 | the technology input takes the typed value; both selections and the location input are unchanged |
| TagFilter.AfterKeyUp | pages/components/Jobs.js:112-128 | fails exactly for a tag type other than "lo" or "tech"; a success never changes the technology selection; a key other than Enter changes nothing; `LoEnter`, `TechEnterAsWritten` and `KeyUpPreservesInv` state the Enter cases |
| TagFilter.KeyUpRejectsUnknownTagType | pages/components/Jobs.js:113 | key-up fails exactly for a tag type other than "lo" or "tech", with the source's message |
| TagFilter.KeyUpIgnoresOtherKeys | pages/components/Jobs.js:114 | any key code other than 13 leaves the whole state unchanged |
| TagFilter.LoEnter | pages/components/Jobs.js:115-120 | Enter on the location input appends its text exactly when it is an unselected location tag, always clears that input, and leaves the technology state alone |
| TagFilter.LoEnterSelectsKnownText | pages/components/Jobs.js:116-117 | under the invariant, after Enter the typed location is selected exactly when it is in the location vocabulary |
| TagFilter.TechEnterAsWritten | pages/components/Jobs.js:121-126 | Enter on the technology input checks and extends the location selection against the location vocabulary, never changes the technology selection, and clears the technology input |
| TagFilter.KeyUpNeverSelectsTech | pages/components/Jobs.js:112-128 | no successful key-up changes the technology selection |
| TagFilter.TechEnterExamples | pages/components/Jobs.js:122-125 | typing the tech tag "go" and pressing Enter selects nothing; typing the location "NYC" into the tech input selects it as a location |
| TagFilter.KeyUpPreservesInv | pages/components/Jobs.js:112-128 | key-up keeps both selections duplicate-free and inside their vocabularies |
| TagFilter.AfterTechListInput | pages/components/Jobs.js:39-52 | the location state is untouched; an empty value or a keystroke event changes nothing; a pick clears the technology input; `TechListInputPick` and `ListInputPreservesInv` state the selection |
| TagFilter.AfterLoListInput | pages/components/Jobs.js:54-67 | the technology state is untouched; an empty value or a keystroke event changes nothing; a pick clears the location input; `LoListInputPick` and `ListInputPreservesInv` state the selection |
| TagFilter.ListInputIgnored | pages/components/Jobs.js:41-44 | an empty input value or a keystroke event leaves the state unchanged in both listeners |
| TagFilter.TechListInputPick | pages/components/Jobs.js:39-52 | a technology pick appends the value exactly when it is an unselected technology tag, clears the technology input and leaves the location state alone |
| TagFilter.LoListInputPick | pages/components/Jobs.js:54-67 | a location pick appends the value exactly when it is an unselected location tag, clears the location input and leaves the technology state alone |
| TagFilter.ListInputIdempotent | pages/components/Jobs.js:56-64 | picking the same suggestion twice is picking it once |
| TagFilter.ListInputPreservesInv | pages/components/Jobs.js:46-62 | suggestion picks keep both selections duplicate-free and inside their vocabularies |
| TagFilter.AfterRemoveTag | pages/components/Jobs.js:133-137 | fails exactly for a tag type other than "lo" or "tech"; a success leaves both inputs alone, and each selection either no longer holds the tag or is unchanged; `RemoveTagEffect` and `RemoveTagPreservesInv` state the rest |
| TagFilter.RemoveTagRejectsUnknownTagType | pages/components/Jobs.js:134 | removal fails exactly for a tag type other than "lo" or "tech" |
| TagFilter.RemoveTagEffect | pages/components/Jobs.js:133-137 | removal drops every occurrence of the tag from its own kind's selection and changes neither the other selection nor either input |
| TagFilter.RemoveAbsentTagIsNoop | pages/components/Jobs.js:135-136 | removing a tag that is not selected leaves the state unchanged |
| TagFilter.RemoveTagIdempotent | pages/components/Jobs.js:133 | removing the same chip twice is removing it once |
| TagFilter.RemoveTagPreservesInv | pages/components/Jobs.js:135-136 | removal keeps both selections duplicate-free and inside their vocabularies |
| TagFilter.StepPreservesInv | pages/components/Jobs.js:112-137 | every single event keeps both selections duplicate-free and inside their vocabularies |
| TagFilter.RunPreservesInv | pages/components/Jobs.js:39-149 | any sequence of events keeps both selections duplicate-free and inside their vocabularies |
| TagFilter.ReachableStatesWellFormed | pages/components/Jobs.js:24-30 | every state reachable from empty selections and empty inputs satisfies the invariant for the job list's vocabularies |
| JobsComponent.Jobs.constructor | pages/components/Jobs.js:23-30 | starts with empty selections and inputs, vocabularies derived from the jobs, the invariant, and every job shown |
| JobsComponent.Jobs.OnLoInputChange | pages/components/Jobs.js:145 | the location input takes the typed value; nothing else changes |
| JobsComponent.Jobs.OnTechInputChange | pages/components/Jobs.js:149 | the technology input takes the typed value; nothing else changes |
| JobsComponent.Jobs.OnTagInputKeyUp | pages/components/Jobs.js:112-128 | the new state is exactly `AfterKeyUp` of the old one, an unknown tag type throws with the state unchanged, and the invariant is kept |
| JobsComponent.Jobs.OnTechListInput | pages/components/Jobs.js:39-52 | the new state is exactly `AfterTechListInput` of the old one and the invariant is kept |
| JobsComponent.Jobs.OnLoListInput | pages/components/Jobs.js:54-67 | the new state is exactly `AfterLoListInput` of the old one and the invariant is kept |
| JobsComponent.Jobs.RemoveTag | pages/components/Jobs.js:133-137 | the new state is exactly `AfterRemoveTag` of the old one, an unknown tag type throws with the state unchanged, and the invariant is kept |

## Left out

- Rendering is left out: the JSX, `JobCard`, class names, the datalist options, the chips' markup and the "Post a job" button (`Jobs.js:139-187`). It is presentation only. `JobsCards` gives the jobs whose cards are drawn. A non-matching job maps to `''`, which renders nothing, so the model drops it.
- The DOM wiring is left out: `document.querySelector`, `addEventListener`/`removeEventListener` and the mount/unmount lifecycle of `useEffect` (`Jobs.js:35-76`). The listener bodies are methods that take the input's current text, `value`, as a parameter.
- The runtime type test `Object.prototype.toString` and the `console.log` calls are left out (`Jobs.js:43, 45, 58, 60`). They depend on the host. The outcome of the type test is the `isInputEvent` parameter.
- The key-up event is reduced to its `keyCode`, an integer parameter.
- React hook semantics are left out: batched `useState` updates, and listeners re-registered with stale closures on every render. Each handler runs atomically on the current state.
- `PropTypes` validation is left out (`Jobs.js:190-200`). This includes `locations` being declared a string while it is used as an array. The model types `locations` as a sequence of strings.
- The job list is fixed for the lifetime of a `Jobs` object. The vocabularies are computed once, in the constructor, not on every render. This gives the same values as long as `jobs` does not change.
