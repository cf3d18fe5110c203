/**
 * The pet-profile selector of the storefront: a three-stage form in which the
 * shopper picks a pet type, then an age bracket, then a breed size, and then
 * submits the completed triple to an optional host callback.
 *
 * The option tables and the per-pet lookups are pure functions. The form's
 * three pieces of component state are the fields of the class `Selector`,
 * one method per click handler. Beside the class, `Step` and `Run` give the
 * same transitions as functions on values, so that lemmas can speak about
 * whole sequences of clicks.
 */
module PetSelector {

  datatype Option<T> = None | Some(value: T)

  /** The two pet types; the source holds them as the strings 'dog' and 'cat'. */
  datatype Pet = Dog | Cat

  /** The three fields of the form. An unset age or breed is the empty string. */
  datatype Choices = Choices(pet: Option<Pet>, age: string, breed: string)

  /** The triple handed to the host callback on submit. */
  datatype Selection = Selection(petType: string, age: string, breed: string)

  /** One user action: a click on a pet, age or breed button, or on submit. */
  datatype Event = PickPet(p: Pet) | PickAge(a: string) | PickBreed(b: string) | ClickSubmit

  /** A run of events: the state it ends in and the selections it emitted, in order. */
  datatype Outcome = Outcome(final: Choices, emitted: seq<Selection>)

  // ---------------------------------------------------------------------------
  // Option tables
  // ---------------------------------------------------------------------------

  const DogAges: seq<string> := ["Puppy (0-1y)", "Adult (1-7y)", "Senior (7+y)"]
  const CatAges: seq<string> := ["Kitten (0-1y)", "Adult (1-10y)", "Senior (10+y)"]
  const DogBreeds: seq<string> := ["Small Breed", "Medium Breed", "Large Breed", "Giant Breed"]
  const CatBreeds: seq<string> := ["Shorthair", "Longhair", "Mixed Breed"]

  /** No two buttons of one group share a label (the labels are the React keys). */
  predicate Distinct(s: seq<string>) {
    forall i, j :: 0 <= i < j < |s| ==> s[i] != s[j]
  }

  /** Every label is a non-empty, hence truthy, string. */
  predicate AllNonEmpty(s: seq<string>) {
    forall x :: x in s ==> x != ""
  }

  /**
   * The age buttons for the current pet. Only a dog gets the dog list; any
   * other value, including no pet at all, gets the cat list.
   */
  function Ages(pet: Option<Pet>): (r: seq<string>)
    ensures |r| == 3 && Distinct(r) && AllNonEmpty(r)
  {
    if pet == Some(Dog) then DogAges else CatAges
  }

  /** The breed-size buttons for the current pet, with the same cat default. */
  function Breeds(pet: Option<Pet>): (r: seq<string>)
    ensures |r| == (if pet == Some(Dog) then 4 else 3)
    ensures Distinct(r) && AllNonEmpty(r)
  {
    if pet == Some(Dog) then DogBreeds else CatBreeds
  }

  /** With no pet chosen, the lookups fall back to the cat lists. */
  lemma NoPetDefaultsToCat()
    ensures Ages(None) == Ages(Some(Cat)) == CatAges
    ensures Breeds(None) == Breeds(Some(Cat)) == CatBreeds
    ensures Ages(Some(Dog)) == DogAges && Breeds(Some(Dog)) == DogBreeds
  {
  }

  /** The string the source stores and passes on for a pet. */
  function PetName(p: Pet): string {
    match p
    case Dog => "dog"
    case Cat => "cat"
  }

  /** The inverse of `PetName`, to read a pet back out of an emitted selection. */
  function ParsePet(name: string): (r: Option<Pet>)
    ensures r.Some? ==> PetName(r.value) == name
  {
    if name == "dog" then Some(Dog)
    else if name == "cat" then Some(Cat)
    else None
  }

  lemma PetNameRoundTrip(p: Pet)
    ensures ParsePet(PetName(p)) == Some(p)
    ensures PetName(p) != ""
  {
  }

  /** An age or breed label belongs to the lists of one pet only. */
  lemma OptionsBelongToOnePet(p: Pet, q: Pet)
    requires p != q
    ensures forall a :: a in Ages(Some(p)) ==> a !in Ages(Some(q))
    ensures forall b :: b in Breeds(Some(p)) ==> b !in Breeds(Some(q))
  {
  }

  // ---------------------------------------------------------------------------
  // Which controls are on screen
  // ---------------------------------------------------------------------------

  /** The age group is rendered once a pet is chosen. */
  predicate AgeControlsShown(s: Choices) {
    s.pet.Some?
  }

  /** The breed group is rendered once a pet and an age are chosen; it never appears without the age group. */
  predicate BreedControlsShown(s: Choices): (r: bool)
    ensures r ==> AgeControlsShown(s)
  {
    s.pet.Some? && s.age != ""
  }

  /** The submit button is rendered once all three fields are set; it never appears without the breed group. */
  predicate SubmitShown(s: Choices): (r: bool)
    ensures r ==> BreedControlsShown(s)
  {
    s.pet.Some? && s.age != "" && s.breed != ""
  }

  /** An event can happen only through a button that is on screen. */
  predicate Shown(s: Choices, e: Event) {
    match e
    case PickPet(_) => true
    case PickAge(a) => AgeControlsShown(s) && a in Ages(s.pet)
    case PickBreed(b) => BreedControlsShown(s) && b in Breeds(s.pet)
    case ClickSubmit => SubmitShown(s)
  }

  // ---------------------------------------------------------------------------
  // Transitions on values
  // ---------------------------------------------------------------------------

  /** The state at mount: no pet, no age, no breed. */
  const Initial: Choices := Choices(None, "", "")

  /**
   * The state after one event. A pet click sets the pet and clears both later
   * fields, even when the same pet is clicked again; an age click sets only
   * the age, leaving an earlier breed in place; a breed click sets only the
   * breed; submit leaves the state alone.
   */
  function Step(s: Choices, e: Event): Choices {
    match e
    case PickPet(p) => Choices(Some(p), "", "")
    case PickAge(a) => s.(age := a)
    case PickBreed(b) => s.(breed := b)
    case ClickSubmit => s
  }

  /**
   * What the submit handler passes to the callback: the triple when all three
   * fields are set and the host gave a callback, nothing otherwise.
   */
  function TrySubmit(s: Choices, hasHandler: bool): Option<Selection> {
    if s.pet.Some? && s.age != "" && s.breed != "" && hasHandler then
      Some(Selection(PetName(s.pet.value), s.age, s.breed))
    else
      None
  }

  /** What one event hands to the callback. */
  function Emitted(s: Choices, e: Event, hasHandler: bool): Option<Selection> {
    if e == ClickSubmit then TrySubmit(s, hasHandler) else None
  }

  function OptionToSeq(o: Option<Selection>): seq<Selection> {
    match o
    case None => []
    case Some(x) => [x]
  }

  /** Plays a sequence of events from `s`. */
  function Run(s: Choices, es: seq<Event>, hasHandler: bool): Outcome
    decreases |es|
  {
    if es == [] then Outcome(s, [])
    else
      var rest := Run(Step(s, es[0]), es[1..], hasHandler);
      Outcome(rest.final, OptionToSeq(Emitted(s, es[0], hasHandler)) + rest.emitted)
  }

  /** Every event of `es` goes through a button that is on screen when it is clicked. */
  predicate Feasible(s: Choices, es: seq<Event>)
    decreases |es|
  {
    es == [] || (Shown(s, es[0]) && Feasible(Step(s, es[0]), es[1..]))
  }

  /** The number of submit clicks in `es`. */
  function Clicks(es: seq<Event>): nat {
    if es == [] then 0 else (if es[0] == ClickSubmit then 1 else 0) + Clicks(es[1..])
  }

  // ---------------------------------------------------------------------------
  // The invariant of the form
  // ---------------------------------------------------------------------------

  /**
   * A breed is set only after an age, an age only after a pet, and each set
   * label is one of the buttons offered for the chosen pet.
   */
  predicate WellFormed(s: Choices) {
    (s.breed != "" ==> s.age != "") &&
    (s.age != "" ==> s.pet.Some?) &&
    (s.age != "" ==> s.age in Ages(s.pet)) &&
    (s.breed != "" ==> s.breed in Breeds(s.pet))
  }

  /** An emitted triple names a pet, one of its ages and one of its breeds. */
  predicate Sound(x: Selection) {
    ParsePet(x.petType).Some? &&
    x.age in Ages(ParsePet(x.petType)) &&
    x.breed in Breeds(ParsePet(x.petType))
  }

  lemma InitialWellFormed()
    ensures WellFormed(Initial)
    ensures !AgeControlsShown(Initial) && !BreedControlsShown(Initial) && !SubmitShown(Initial)
  {
  }

  /** Every on-screen event keeps the invariant. */
  lemma StepKeepsWellFormed(s: Choices, e: Event)
    requires WellFormed(s) && Shown(s, e)
    ensures WellFormed(Step(s, e))
  {
  }

  /** On a well-formed state, what submit emits is a sound triple. */
  lemma EmittedIsSound(s: Choices, e: Event, hasHandler: bool)
    requires WellFormed(s)
    ensures Emitted(s, e, hasHandler).Some? ==> Sound(Emitted(s, e, hasHandler).value)
  {
    if Emitted(s, e, hasHandler).Some? {
      PetNameRoundTrip(s.pet.value);
    }
  }

  /**
   * The reset on a pet click is what keeps the invariant: if a set age were
   * carried over to a different pet, the state would no longer be well formed.
   */
  lemma CarriedOverAgeIsInvalid(s: Choices, q: Pet)
    requires WellFormed(s) && s.age != "" && s.pet != Some(q)
    ensures !WellFormed(Choices(Some(q), s.age, s.breed))
  {
    OptionsBelongToOnePet(s.pet.value, q);
  }

  /**
   * The same for a set breed carried over to a different pet, whatever age
   * comes with it: the breed alone already breaks the invariant.
   */
  lemma CarriedOverBreedIsInvalid(s: Choices, q: Pet)
    requires WellFormed(s) && s.breed != "" && s.pet != Some(q)
    ensures forall a :: !WellFormed(Choices(Some(q), a, s.breed))
  {
    OptionsBelongToOnePet(s.pet.value, q);
  }

  // ---------------------------------------------------------------------------
  // Properties of single events
  // ---------------------------------------------------------------------------

  /**
   * A pet click resets the later fields whatever they were: its result does
   * not depend on the state it starts from, so clicking the same pet twice
   * gives what clicking it once gives.
   */
  lemma PickPetResets(s: Choices, t: Choices, p: Pet)
    ensures Step(s, PickPet(p)) == Step(t, PickPet(p))
    ensures Step(s, PickPet(p)).age == "" && Step(s, PickPet(p)).breed == ""
    ensures Step(Step(s, PickPet(p)), PickPet(p)) == Step(s, PickPet(p))
  {
  }

  /** A pet click after an age and breed were chosen loses both: it is not a toggle. */
  lemma RepeatedPetClickClearsProgress(s: Choices, p: Pet)
    requires s.pet == Some(p) && SubmitShown(s)
    ensures Step(s, PickPet(p)) != s
    ensures !BreedControlsShown(Step(s, PickPet(p)))
  {
  }

  /**
   * An age click changes the age and nothing else; in particular a breed chosen
   * earlier survives, and the submit button stays on screen.
   */
  lemma PickAgeKeepsBreed(s: Choices, a: string)
    requires WellFormed(s) && Shown(s, PickAge(a))
    ensures Step(s, PickAge(a)).pet == s.pet && Step(s, PickAge(a)).breed == s.breed
    ensures Step(s, PickAge(a)).age == a
    ensures SubmitShown(s) ==> SubmitShown(Step(s, PickAge(a)))
  {
  }

  /** A breed click changes the breed and nothing else, and makes the form complete. */
  lemma PickBreedOnlySetsBreed(s: Choices, b: string)
    requires WellFormed(s) && Shown(s, PickBreed(b))
    ensures Step(s, PickBreed(b)).pet == s.pet && Step(s, PickBreed(b)).age == s.age
    ensures Step(s, PickBreed(b)).breed == b
    ensures SubmitShown(Step(s, PickBreed(b)))
  {
  }

  /** Submit fires exactly when the form is complete and a callback was given. */
  lemma SubmitFiresIffComplete(s: Choices, hasHandler: bool)
    ensures TrySubmit(s, hasHandler).Some? <==> hasHandler && SubmitShown(s)
    ensures TrySubmit(s, hasHandler).Some? ==>
              TrySubmit(s, hasHandler).value == Selection(PetName(s.pet.value), s.age, s.breed)
    ensures Step(s, ClickSubmit) == s
  {
  }

  // ---------------------------------------------------------------------------
  // Properties of whole runs
  // ---------------------------------------------------------------------------

  /**
   * Along any run of on-screen events the invariant holds at the end, and
   * every triple handed to the callback was sound.
   */
  lemma {:induction false} RunKeepsWellFormed(s: Choices, es: seq<Event>, hasHandler: bool)
    requires WellFormed(s) && Feasible(s, es)
    ensures WellFormed(Run(s, es, hasHandler).final)
    ensures forall x :: x in Run(s, es, hasHandler).emitted ==> Sound(x)
    decreases |es|
  {
    if es != [] {
      StepKeepsWellFormed(s, es[0]);
      EmittedIsSound(s, es[0], hasHandler);
      RunKeepsWellFormed(Step(s, es[0]), es[1..], hasHandler);
    }
  }

  /**
   * Along any run of on-screen events the callback is called once per submit
   * click when the host gave one, and never otherwise.
   */
  lemma {:induction false} OneEmissionPerClick(s: Choices, es: seq<Event>, hasHandler: bool)
    requires Feasible(s, es)
    ensures |Run(s, es, hasHandler).emitted| == if hasHandler then Clicks(es) else 0
    decreases |es|
  {
    if es != [] {
      OneEmissionPerClick(Step(s, es[0]), es[1..], hasHandler);
    }
  }

  /** The shortest run of on-screen events from mount that builds `s`. */
  function PathTo(s: Choices): seq<Event> {
    if s.pet.None? then []
    else [PickPet(s.pet.value)]
         + (if s.age != "" then [PickAge(s.age)] else [])
         + (if s.breed != "" then [PickBreed(s.breed)] else [])
  }

  /**
   * The converse of `RunKeepsWellFormed`: every well-formed state is reached
   * from mount by some run of on-screen events, so the invariant describes the
   * reachable states exactly.
   */
  lemma WellFormedIsReachable(s: Choices, hasHandler: bool)
    requires WellFormed(s)
    ensures Feasible(Initial, PathTo(s))
    ensures Run(Initial, PathTo(s), hasHandler).final == s
  {
    if s.pet.Some? {
      var s1 := Step(Initial, PickPet(s.pet.value));
      var s2 := if s.age != "" then Step(s1, PickAge(s.age)) else s1;
      var breedPart := if s.breed != "" then [PickBreed(s.breed)] else [];
      if s.breed != "" {
        RunCons(s2, PickBreed(s.breed), [], hasHandler);
      }
      assert Feasible(s2, breedPart) && Run(s2, breedPart, hasHandler).final == s;
      var agePart := if s.age != "" then [PickAge(s.age)] else [];
      if s.age != "" {
        RunCons(s1, PickAge(s.age), breedPart, hasHandler);
      }
      assert Feasible(s1, agePart + breedPart) && Run(s1, agePart + breedPart, hasHandler).final == s;
      assert PathTo(s) == [PickPet(s.pet.value)] + (agePart + breedPart);
      RunCons(Initial, PickPet(s.pet.value), agePart + breedPart, hasHandler);
    }
  }

  /** Running `e` then `es` is running `es` from the state `e` leads to. */
  lemma RunCons(s: Choices, e: Event, es: seq<Event>, hasHandler: bool)
    ensures Run(s, [e] + es, hasHandler).final == Run(Step(s, e), es, hasHandler).final
    ensures Feasible(s, [e] + es) <==> Shown(s, e) && Feasible(Step(s, e), es)
  {
    assert ([e] + es)[0] == e && ([e] + es)[1..] == es;
  }

  // ---------------------------------------------------------------------------
  // The component
  // ---------------------------------------------------------------------------

  /**
   * The mounted selector. `hasHandler` says whether the host passed the
   * optional `onSelect` callback; the callback itself is the host's code and is
   * modelled by what `Submit` returns.
   */
  class Selector {
    var selectedPet: Option<Pet>
    var selectedAge: string
    var selectedBreed: string
    const hasHandler: bool

    function Current(): Choices
      reads this
    {
      Choices(selectedPet, selectedAge, selectedBreed)
    }

    ghost predicate Valid()
      reads this
    {
      WellFormed(Current())
    }

    constructor (hasHandler: bool)
      ensures Valid() && Current() == Initial && this.hasHandler == hasHandler
    {
      selectedPet := None;
      selectedAge := "";
      selectedBreed := "";
      this.hasHandler := hasHandler;
    }

    /** A click on a pet button: sets the pet, clears age and breed. */
    method ChoosePet(p: Pet)
      modifies this
      ensures Valid()
      ensures selectedPet == Some(p) && selectedAge == "" && selectedBreed == ""
      ensures Current() == Step(old(Current()), PickPet(p))
    {
      selectedPet := Some(p);
      selectedAge := "";
      selectedBreed := "";
    }

    /** A click on one of the age buttons, which are on screen only once a pet is chosen. */
    method ChooseAge(age: string)
      requires Valid() && AgeControlsShown(Current()) && age in Ages(selectedPet)
      modifies this
      ensures Valid()
      ensures selectedAge == age
      ensures selectedPet == old(selectedPet) && selectedBreed == old(selectedBreed)
      ensures Current() == Step(old(Current()), PickAge(age))
    {
      selectedAge := age;
    }

    /** A click on one of the breed buttons, which are on screen only once pet and age are chosen. */
    method ChooseBreed(breed: string)
      requires Valid() && BreedControlsShown(Current()) && breed in Breeds(selectedPet)
      modifies this
      ensures Valid() && SubmitShown(Current())
      ensures selectedBreed == breed
      ensures selectedPet == old(selectedPet) && selectedAge == old(selectedAge)
      ensures Current() == Step(old(Current()), PickBreed(breed))
    {
      selectedBreed := breed;
    }

    /**
     * The submit handler: hands the triple to the callback, and only when all
     * three fields are set. It changes no field.
     */
    method Submit() returns (fired: Option<Selection>)
      requires Valid()
      ensures fired.Some? <==> hasHandler && SubmitShown(Current())
      ensures fired.Some? ==>
                selectedPet.Some? && fired.value == Selection(PetName(selectedPet.value), selectedAge, selectedBreed)
      ensures fired.Some? ==> Sound(fired.value)
      ensures fired == Emitted(Current(), ClickSubmit, hasHandler)
    {
      fired := None;
      if selectedPet.Some? && selectedAge != "" && selectedBreed != "" {
        if hasHandler {
          fired := Some(Selection(PetName(selectedPet.value), selectedAge, selectedBreed));
          PetNameRoundTrip(selectedPet.value);
        }
      }
    }
  }

  // ---------------------------------------------------------------------------
  // End-to-end runs against the component
  // ---------------------------------------------------------------------------

  /** Dog, "Adult (1-7y)", "Medium Breed", submit: the callback gets that triple. */
  method DogAdultMediumFlow() returns (fired: Option<Selection>)
    ensures fired == Some(Selection("dog", "Adult (1-7y)", "Medium Breed"))
  {
    var w := new Selector(true);
    w.ChoosePet(Dog);
    w.ChooseAge("Adult (1-7y)");
    w.ChooseBreed("Medium Breed");
    fired := w.Submit();
  }

  /**
   * Dog, "Puppy (0-1y)", then Cat before any breed: age and breed are unset
   * again, the cat ages are offered, and submit emits nothing.
   */
  method SwitchPetMidwayFlow() returns (after: Choices, offered: seq<string>, fired: Option<Selection>)
    ensures after == Choices(Some(Cat), "", "")
    ensures offered == CatAges
    ensures fired == None
  {
    var w := new Selector(true);
    w.ChoosePet(Dog);
    w.ChooseAge("Puppy (0-1y)");
    w.ChoosePet(Cat);
    after := w.Current();
    offered := Ages(w.selectedPet);
    fired := w.Submit();
  }

  /** With no pet chosen only the pet buttons are on screen and submit emits nothing. */
  method NothingChosenFlow() returns (ageShown: bool, breedShown: bool, submitShown: bool, fired: Option<Selection>)
    ensures !ageShown && !breedShown && !submitShown && fired == None
  {
    var w := new Selector(true);
    ageShown := AgeControlsShown(w.Current());
    breedShown := BreedControlsShown(w.Current());
    submitShown := SubmitShown(w.Current());
    fired := w.Submit();
  }
}
