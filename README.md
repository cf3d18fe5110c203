# Pet selector model

A Dafny model of the storefront's pet-profile selector
(`src/components/PetSelector.tsx`): a three-stage form in which the shopper
picks a pet type (dog or cat), then an age bracket, then a breed size, and then
presses "Find Products", which hands the triple `(petType, age, breed)` to the
optional `onSelect` callback of the host page.

Everything is in `petselector.dfy`, module `PetSelector`:

- the four option tables and the `Ages` / `Breeds` lookups, as functions;
- the component itself, as the class `Selector` with the three state fields
  `selectedPet`, `selectedAge`, `selectedBreed` and one method per click
  handler (`ChoosePet`, `ChooseAge`, `ChooseBreed`, `Submit`);
- the same transitions on values (`Step`, `TrySubmit`, `Run` over a sequence of
  click events), which the class methods are proved against, and the lemmas
  about them;
- the invariant `WellFormed` (breed set implies age set implies pet set; a set
  age is one of `Ages(pet)`, a set breed one of `Breeds(pet)`), proved to hold
  along every run of clicks on visible buttons and, conversely, proved to
  describe exactly the states such runs reach.

Which buttons are on screen is modelled by `AgeControlsShown`,
`BreedControlsShown` and `SubmitShown`. A click can only happen on a rendered
button, so the choose methods require the corresponding group to be shown and
the value to be one of the rendered labels. The source has no other guard: the
handlers themselves set the field unconditionally, and so do the model's.
`Submit` has no such requirement because `handleSubmit` re-checks completeness
itself.

Two behaviours of the source are kept as they are:

- choosing an age does not clear an already chosen breed
  (`PickAgeKeepsBreed`); since the breed lists depend only on the pet, the
  state stays well formed;
- with no pet chosen the lookups return the cat lists (`NoPetDefaultsToCat`);
  those lists are never rendered then, because the age and breed groups are
  hidden until a pet is chosen.

A pet click clears age and breed even when the same pet is clicked again
(`PickPetResets`, `RepeatedPetClickClearsProgress`), and the clearing is what
keeps the invariant: an age or breed carried over to the other pet would be
invalid (`CarriedOverAgeIsInvalid`, `CarriedOverBreedIsInvalid`).

The age and breed handlers call their setters unconditionally (lines 86 and
110); only the rendering conditions (lines 77 and 101) keep them from being
reached without a pet. The model follows the code.

## Model

| member | source | states |
|---|---|---|
| PetSelector.Ages | src/components/PetSelector.tsx:15-21 | the age options are three distinct, non-empty labels for either pet |
| PetSelector.Breeds | src/components/PetSelector.tsx:18-22 | the breed options are four distinct non-empty labels for a dog and three otherwise |
| PetSelector.PetName | src/components/PetSelector.tsx:11-60 | computes the string stored for a pet and passed on: 'dog' for the dog button (line 45), 'cat' for the cat button (line 60) |
| PetSelector.AgeControlsShown | src/components/PetSelector.tsx:77 | computes whether the age group is rendered: a pet is chosen |
| PetSelector.BreedControlsShown | src/components/PetSelector.tsx:101 | computes whether the breed group is rendered (a pet and a non-empty age); ensures it is shown only when the age group is |
| PetSelector.SubmitShown | src/components/PetSelector.tsx:125 | computes whether the submit button is rendered (pet, age and breed all set); ensures it is shown only when the breed group is |
| PetSelector.Shown | src/components/PetSelector.tsx:43-133 | computes whether a click is possible: pet buttons always, an age label only if it is one of the rendered `ages` (lines 83-95), a breed label only if one of the rendered `breeds` (lines 107-119), submit only when its button is rendered |
| PetSelector.Step | src/components/PetSelector.tsx:44-110 | computes the state after one click: a pet click sets the pet and clears age and breed (lines 45-47, 60-62), an age click sets only the age (line 86), a breed click sets only the breed (line 110), submit leaves the state |
| PetSelector.TrySubmit | src/components/PetSelector.tsx:24-28 | computes what the submit handler passes to the callback: the triple when a callback is given and pet, age and breed are all set, nothing otherwise |
| PetSelector.NoPetDefaultsToCat | src/components/PetSelector.tsx:15-22 | the dog gets exactly the dog lists; with no pet the lookups give exactly the cat lists |
| PetSelector.OptionsBelongToOnePet | src/components/PetSelector.tsx:15-19 | no age label and no breed label is offered for both pets |
| PetSelector.PetNameRoundTrip | src/components/PetSelector.tsx:11-26 | the pet string passed on ('dog' or 'cat') is non-empty and identifies the pet |
| PetSelector.InitialWellFormed | src/components/PetSelector.tsx:11-13 | the state at mount satisfies the invariant and shows neither age, breed nor submit controls |
| PetSelector.StepKeepsWellFormed | src/components/PetSelector.tsx:43-122 | a click on any rendered button keeps the invariant |
| PetSelector.EmittedIsSound | src/components/PetSelector.tsx:24-28 | from a well-formed state, a submitted triple names a pet, one of its ages and one of its breeds |
| PetSelector.CarriedOverAgeIsInvalid | src/components/PetSelector.tsx:44-63 | keeping a set age while switching pet would break the invariant, so the reset is needed |
| PetSelector.CarriedOverBreedIsInvalid | src/components/PetSelector.tsx:44-63 | keeping a set breed while switching pet would break the invariant whatever the age, so the breed reset is needed on its own |
| PetSelector.PickPetResets | src/components/PetSelector.tsx:44-63 | a pet click clears age and breed whatever the prior state, so clicking the same pet twice equals clicking it once |
| PetSelector.RepeatedPetClickClearsProgress | src/components/PetSelector.tsx:44-63 | re-clicking the current pet on a complete form changes the state and hides the breed group: it is not a toggle |
| PetSelector.PickAgeKeepsBreed | src/components/PetSelector.tsx:86 | an age click sets the age and leaves pet and breed as they were; a shown submit button stays shown |
| PetSelector.PickBreedOnlySetsBreed | src/components/PetSelector.tsx:110 | a breed click sets the breed, leaves pet and age, and completes the form |
| PetSelector.SubmitFiresIffComplete | src/components/PetSelector.tsx:24-28 | submit emits exactly when a callback was given and all three fields are set, emits the current triple, and does not change the state |
| PetSelector.RunKeepsWellFormed | src/components/PetSelector.tsx:77-133 | after any run of clicks on rendered buttons the invariant holds and every emitted triple is sound |
| PetSelector.OneEmissionPerClick | src/components/PetSelector.tsx:124-133 | along any run of clicks on rendered buttons the callback is called once per submit click when given, never otherwise |
| PetSelector.WellFormedIsReachable | src/components/PetSelector.tsx:43-122 | every well-formed state is reached from mount by some run of clicks on rendered buttons |
| PetSelector.Selector.constructor | src/components/PetSelector.tsx:11-13 | the component mounts with no pet, empty age and empty breed |
| PetSelector.Selector.ChoosePet | src/components/PetSelector.tsx:43-63 | sets the pet and clears age and breed; the invariant holds afterwards |
| PetSelector.Selector.ChooseAge | src/components/PetSelector.tsx:77-98 | on a rendered age button, sets only the age and keeps the invariant |
| PetSelector.Selector.ChooseBreed | src/components/PetSelector.tsx:101-122 | on a rendered breed button, sets only the breed, keeps the invariant and makes submit visible |
| PetSelector.Selector.Submit | src/components/PetSelector.tsx:24-28 | returns the triple exactly when a callback was given and the form is complete, the triple is sound, and no field changes |
| PetSelector.DogAdultMediumFlow | src/components/PetSelector.tsx:43-133 | dog, "Adult (1-7y)", "Medium Breed", submit emits ("dog", "Adult (1-7y)", "Medium Breed") |
| PetSelector.SwitchPetMidwayFlow | src/components/PetSelector.tsx:43-98 | dog, "Puppy (0-1y)", then cat leaves age and breed unset, offers the cat ages, and submit emits nothing |
| PetSelector.NothingChosenFlow | src/components/PetSelector.tsx:77-133 | with no pet chosen neither age, breed nor submit controls are shown and submit emits nothing |

## Left out

- Rendering and styling: the JSX tree, `className` strings, icons and the highlighting of the selected button do not change state and are not modelled.
- The body of the `onSelect` callback is the host's code (the index page passes a scroll-to-products action that ignores its arguments); the model returns the triple from `Submit` instead of calling it.
- React's scheduling of state updates: the three setter calls of a pet click are applied together, as one transition, which is what the next render observes.
- `src/pages/ui/IndexUI.tsx` and `src/components/CollectionCard.tsx` are page composition and presentation over data from a data layer that is not part of this model.
- Selector.hasHandler: a constant fixed at construction, whereas React reads the `onSelect` prop afresh on every render; the only host (`src/pages/ui/IndexUI.tsx`:100) always passes a callback, so this makes no difference for the program as it stands.
