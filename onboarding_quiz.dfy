/**
 * The onboarding wizard of src/components/onboarding/OnboardingQuiz.tsx: a step index over a
 * fixed list of seven steps and an answer object whose keys keep their insertion order.
 */
module OnboardingQuiz {
  import opened Wrappers

  /** welcome, categories, profile type, brand status, launch urgency, phone, completion */
  const StepCount: nat := 7

  /** The keys the five question steps (indices 1 to 5) write through `handleAnswer`, in step order. */
  const AnswerKeys: seq<string> := ["categories", "profileType", "brandStatus", "launchUrgency", "phone"]

  /** A stored answer: the categories step stores an array, the other question steps a string. */
  datatype Answer = Text(text: string) | Choices(items: seq<string>)

  /** JavaScript truthiness of an answer: an array is always truthy, a string when non-empty. */
  predicate Truthy(a: Answer) {
    a.Choices? || a.text != ""
  }

  /** The test `isStepValid` applies to an answer: a non-empty array, or a truthy non-array. */
  predicate Filled(a: Answer) {
    if a.Choices? then |a.items| > 0 else Truthy(a)
  }

  /** The answer object as its (key, value) entries in insertion order. */
  type Entries = seq<(string, Answer)>

  /** `Object.keys(answers)`: the keys in insertion order. */
  function Keys(e: Entries): (ks: seq<string>)
    ensures |ks| == |e|
    ensures forall i :: 0 <= i < |e| ==> ks[i] == e[i].0
  {
    if e == [] then [] else [e[0].0] + Keys(e[1..])
  }

  /** No key occurs twice: a JavaScript object has each property once. */
  ghost predicate DistinctKeys(e: Entries) {
    e == [] || (e[0].0 !in Keys(e[1..]) && DistinctKeys(e[1..]))
  }

  /** `answers[key]`, `None` standing for `undefined`. */
  function Lookup(e: Entries, key: string): (r: Option<Answer>)
    ensures r.None? <==> key !in Keys(e)
    ensures r.Some? ==> (key, r.value) in e
  {
    if e == [] then None else if e[0].0 == key then Some(e[0].1) else Lookup(e[1..], key)
  }

  /** The entry at position `i` is what a lookup of its own key finds, when keys are distinct. */
  lemma {:induction false} LookupAt(e: Entries, i: nat)
    requires DistinctKeys(e) && i < |e|
    ensures Lookup(e, e[i].0) == Some(e[i].1)
  {
    if i > 0 {
      assert e[1..][i - 1] == e[i];
      assert Keys(e[1..])[i - 1] == e[i].0;
      LookupAt(e[1..], i - 1);
    }
  }

  /**
   * `{ ...prev, [key]: value }`: overwrites the value of `key` where it stands, or appends
   * a new entry at the end of the key order.
   */
  function Put(e: Entries, key: string, value: Answer): (r: Entries)
    ensures Lookup(r, key) == Some(value)
    ensures forall k :: k != key ==> Lookup(r, k) == Lookup(e, k)
  {
    if e == [] then [(key, value)]
    else if e[0].0 == key then [(key, value)] + e[1..]
    else [e[0]] + Put(e[1..], key, value)
  }

  /** The keys of an entry followed by more entries. */
  lemma KeysCons(x: (string, Answer), rest: Entries)
    ensures Keys([x] + rest) == [x.0] + Keys(rest)
  {
    assert ([x] + rest)[1..] == rest;
  }

  /** An existing key keeps its position in the key order and a new key goes last. */
  lemma PutKeys(e: Entries, key: string, value: Answer)
    ensures key in Keys(e) ==> Keys(Put(e, key, value)) == Keys(e)
    ensures key !in Keys(e) ==> Keys(Put(e, key, value)) == Keys(e) + [key]
  {
    if key in Keys(e) {
      PutKeysExisting(e, key, value);
    } else {
      PutKeysNew(e, key, value);
    }
  }

  /** Overwriting an existing key leaves the key order as it was. */
  lemma {:induction false} PutKeysExisting(e: Entries, key: string, value: Answer)
    requires key in Keys(e)
    ensures Keys(Put(e, key, value)) == Keys(e)
  {
    KeysCons(e[0], e[1..]);
    assert e == [e[0]] + e[1..];
    if e[0].0 != key {
      PutKeysExisting(e[1..], key, value);
      KeysCons(e[0], Put(e[1..], key, value));
    } else {
      KeysCons((key, value), e[1..]);
    }
  }

  /** A new key is appended at the end of the key order. */
  lemma {:induction false} PutKeysNew(e: Entries, key: string, value: Answer)
    requires key !in Keys(e)
    ensures Keys(Put(e, key, value)) == Keys(e) + [key]
  {
    if e == [] {
      KeysCons((key, value), []);
    } else {
      KeysCons(e[0], e[1..]);
      assert e == [e[0]] + e[1..];
      assert e[0].0 != key;
      PutKeysNew(e[1..], key, value);
      KeysCons(e[0], Put(e[1..], key, value));
    }
  }

  /** Overwriting or appending never stores a key twice. */
  lemma {:induction false} PutDistinct(e: Entries, key: string, value: Answer)
    requires DistinctKeys(e)
    ensures DistinctKeys(Put(e, key, value))
  {
    if e != [] && e[0].0 != key {
      PutDistinct(e[1..], key, value);
      PutKeys(e[1..], key, value);
      var r := Put(e, key, value);
      assert r[0] == e[0] && r[1..] == Put(e[1..], key, value);
    } else if e != [] {
      var r := Put(e, key, value);
      assert r[1..] == e[1..];
    }
  }

  /** Answering the same key twice keeps only the second answer: an overwrite, not an accumulation. */
  lemma {:induction false} PutTwice(e: Entries, key: string, a: Answer, b: Answer)
    ensures Put(Put(e, key, a), key, b) == Put(e, key, b)
  {
    if e != [] && e[0].0 != key {
      PutTwice(e[1..], key, a, b);
    }
  }

  /**
   * `isStepValid(step)`: the welcome and completion steps are always valid; any other step
   * reads the answer stored under the (step-1)-th key in insertion order, not under its own key.
   */
  function IsStepValid(step: int, answers: Entries): bool {
    if step == 0 then true
    else if step == StepCount - 1 then true
    else
      var keys := Keys(answers);
      if 0 <= step - 1 < |keys| then
        match Lookup(answers, keys[step - 1])
        case Some(a) => Filled(a)
        case None => false
      else false
  }

  /** Validity of a question step depends only on the entry at position step-1 of the key order. */
  lemma StepValidByPosition(step: int, answers: Entries)
    requires DistinctKeys(answers)
    ensures IsStepValid(step, answers) <==>
      step == 0 || step == StepCount - 1 || (1 <= step <= |answers| && Filled(answers[step - 1].1))
  {
    if step != 0 && step != StepCount - 1 && 1 <= step <= |answers| {
      LookupAt(answers, step - 1);
    }
  }

  /**
   * When the question steps were answered in step order (the keys are a prefix of `AnswerKeys`),
   * a question step does read the answer of its own key.
   */
  lemma InOrderAnswersMatchSteps(step: int, answers: Entries, m: nat)
    requires DistinctKeys(answers)
    requires m <= |AnswerKeys| && Keys(answers) == AnswerKeys[..m]
    requires 1 <= step <= m
    ensures IsStepValid(step, answers) <==> Filled(Lookup(answers, AnswerKeys[step - 1]).value)
  {
    StepValidByPosition(step, answers);
    LookupAt(answers, step - 1);
    assert Keys(answers)[step - 1] == answers[step - 1].0;
  }

  /**
   * The insertion-order reading in action: with the profile type answered before any category,
   * the categories step (index 1) is valid although the stored categories array is empty.
   */
  lemma OutOfOrderAnswersMisleadValidity()
    ensures var answers := Put(Put([], "profileType", Text("brand")), "categories", Choices([]));
      IsStepValid(1, answers) && Lookup(answers, "categories") == Some(Choices([]))
  {
    var answers := Put(Put([], "profileType", Text("brand")), "categories", Choices([]));
    assert answers == [("profileType", Text("brand")), ("categories", Choices([]))];
  }

  /** The welcome and completion steps are valid whatever has been answered. */
  lemma EndStepsAlwaysValid(answers: Entries)
    ensures IsStepValid(0, answers) && IsStepValid(StepCount - 1, answers)
  {
  }

  /** The Back button is rendered on every step strictly between the welcome and completion steps. */
  predicate BackButtonShown(step: int) {
    0 < step < StepCount - 1
  }

  /** The Next button is rendered on those steps except the one before completion (the phone step). */
  predicate NextButtonShown(step: int) {
    BackButtonShown(step) && step < StepCount - 2
  }

  /** The Next button is disabled when `!isStepValid(currentStep)`. */
  predicate NextButtonEnabled(step: int, answers: Entries) {
    NextButtonShown(step) && IsStepValid(step, answers)
  }

  /** `progress`: step/(steps.length-1)*100, computed here in exact arithmetic. */
  function Progress(step: int): (r: real)
    ensures step == 0 ==> r == 0.0
    ensures step == StepCount - 1 ==> r == 100.0
    ensures 0 <= step < StepCount ==> 0.0 <= r <= 100.0
  {
    (step as real) / ((StepCount - 1) as real) * 100.0
  }

  /** Progress grows with the step index, and reaches 100 only at the completion step. */
  lemma ProgressMonotone(a: int, b: int)
    requires a <= b
    ensures Progress(a) <= Progress(b)
    ensures Progress(a) == 100.0 <==> a == StepCount - 1
  {
  }

  /** The row written to `profiles` on completion. */
  datatype ProfileUpdate = ProfileUpdate(
    productInterest: Answer,
    profileType: Answer,
    brandStatus: Answer,
    launchUrgency: Answer,
    phone: Answer,
    onboardingCompleted: bool)

  /** The stored answer under `key` is there and truthy, so `answers[key] || fallback` takes it. */
  predicate Answered(answers: Entries, key: string) {
    Lookup(answers, key).Some? && Truthy(Lookup(answers, key).value)
  }

  /** `answers[key] || fallback`. */
  function AnswerOr(answers: Entries, key: string, fallback: Answer): Answer {
    match Lookup(answers, key)
    case Some(a) => if Truthy(a) then a else fallback
    case None => fallback
  }

  /** The payload field each answer key fills. */
  function Field(p: ProfileUpdate, key: string): Answer
    requires key in AnswerKeys
  {
    if key == "categories" then p.productInterest
    else if key == "profileType" then p.profileType
    else if key == "brandStatus" then p.brandStatus
    else if key == "launchUrgency" then p.launchUrgency
    else p.phone
  }

  /** The fallback of each key: an empty array for the categories, an empty string otherwise. */
  function Default(key: string): Answer {
    if key == "categories" then Choices([]) else Text("")
  }

  /**
   * The quiz data of `saveQuizData`, spread into the update with `onboarding_completed: true`:
   * each field holds its key's answer when that answer is truthy, and its fallback otherwise.
   */
  function BuildPayload(answers: Entries): (p: ProfileUpdate)
    ensures p.onboardingCompleted
    ensures p.productInterest.Choices? || Truthy(p.productInterest)
    ensures forall key :: key in AnswerKeys && Answered(answers, key) ==> Field(p, key) == Lookup(answers, key).value
    ensures forall key :: key in AnswerKeys && !Answered(answers, key) ==> Field(p, key) == Default(key)
    ensures Lookup(answers, "categories").None? ==> p.productInterest == Choices([])
    ensures Lookup(answers, "profileType").None? ==> p.profileType == Text("")
    ensures Lookup(answers, "brandStatus").None? ==> p.brandStatus == Text("")
    ensures Lookup(answers, "launchUrgency").None? ==> p.launchUrgency == Text("")
    ensures Lookup(answers, "phone").None? ==> p.phone == Text("")
  {
    ProfileUpdate(
      AnswerOr(answers, "categories", Choices([])),
      AnswerOr(answers, "profileType", Text("")),
      AnswerOr(answers, "brandStatus", Text("")),
      AnswerOr(answers, "launchUrgency", Text("")),
      AnswerOr(answers, "phone", Text("")),
      true)
  }

  /** A truthy answer to any question reaches its payload field unchanged; an empty string gives the fallback. */
  lemma PayloadCarriesAnswers(answers: Entries, key: string, v: Answer)
    requires key in AnswerKeys
    ensures Truthy(v) ==> Field(BuildPayload(Put(answers, key, v)), key) == v
    ensures !Truthy(v) ==> Field(BuildPayload(Put(answers, key, v)), key) == Default(key)
  {
    assert Lookup(Put(answers, key, v), key) == Some(v);
  }

  /** Answering one question leaves the payload fields of the other questions unchanged. */
  lemma PayloadFieldsIndependent(answers: Entries, key: string, v: Answer)
    requires key in AnswerKeys
    ensures forall other :: other in AnswerKeys && other != key ==>
      Field(BuildPayload(Put(answers, key, v)), other) == Field(BuildPayload(answers), other)
  {
    forall other | other in AnswerKeys && other != key
      ensures Field(BuildPayload(Put(answers, key, v)), other) == Field(BuildPayload(answers), other)
    {
      assert Lookup(Put(answers, key, v), other) == Lookup(answers, other);
      assert Answered(Put(answers, key, v), other) == Answered(answers, other);
    }
  }

  const NotAuthenticatedMessage: string := "User not authenticated"
  const SaveFailedMessage: string := "Failed to save your responses. Please try again."
  const SavedMessage: string := "Your profile has been updated successfully"
  const StartHerePath: string := "/start-here"

  /** The observable effects of `saveQuizData`. */
  datatype Effect =
    | ErrorToast(description: string)
    | SuccessToast(description: string)
    | UpdateProfile(userId: string, update: ProfileUpdate)
    | Navigate(path: string)

  /**
   * `saveQuizData`: without a user id it reports "User not authenticated" and writes nothing;
   * otherwise it writes the payload, then either reports the failure or confirms and moves on to
   * /start-here. `writeFails` is the outcome of the remote update.
   */
  function SaveQuizData(userId: Option<string>, answers: Entries, writeFails: bool): (r: seq<Effect>)
    ensures userId.None? || userId.value == "" ==> r == [ErrorToast(NotAuthenticatedMessage)]
    ensures userId.Some? && userId.value != "" ==>
      && |r| == (if writeFails then 2 else 3)
      && r[0] == UpdateProfile(userId.value, BuildPayload(answers))
      && (writeFails <==> r[1].ErrorToast?)
      && (writeFails ==> r[1] == ErrorToast(SaveFailedMessage))
      && (!writeFails ==> r[1] == SuccessToast(SavedMessage) && r[2] == Navigate(StartHerePath))
    ensures forall i :: 0 <= i < |r| && r[i].UpdateProfile? ==> i == 0 && userId == Some(r[i].userId)
    ensures Navigate(StartHerePath) in r <==> userId.Some? && userId.value != "" && !writeFails
  {
    if userId.None? || userId.value == "" then
      [ErrorToast(NotAuthenticatedMessage)]
    else
      var write := UpdateProfile(userId.value, BuildPayload(answers));
      if writeFails then
        [write, ErrorToast(SaveFailedMessage)]
      else
        [write, SuccessToast(SavedMessage), Navigate(StartHerePath)]
  }

  /** The wizard's state: the current step and the answers given so far. */
  class Quiz {
    var currentStep: int
    var answers: Entries

    /** The step is a valid index into the steps and no answer key is stored twice. */
    ghost predicate Valid()
      reads this
    {
      0 <= currentStep < StepCount && DistinctKeys(answers)
    }

    /** A fresh wizard starts at the welcome step with no answers. */
    constructor ()
      ensures Valid() && currentStep == 0 && answers == []
    {
      currentStep := 0;
      answers := [];
    }

    /** `handleNext`: advances unless on the last step; it does not consult validity. */
    method HandleNext()
      requires Valid()
      modifies this
      ensures Valid()
      ensures currentStep == if old(currentStep) < StepCount - 1 then old(currentStep) + 1 else old(currentStep)
      ensures answers == old(answers)
    {
      if currentStep < StepCount - 1 {
        currentStep := currentStep + 1;
      }
    }

    /** `handleBack`: goes back one step unless on the first, whatever the answers. */
    method HandleBack()
      requires Valid()
      modifies this
      ensures Valid()
      ensures currentStep == if old(currentStep) > 0 then old(currentStep) - 1 else old(currentStep)
      ensures answers == old(answers)
    {
      if currentStep > 0 {
        currentStep := currentStep - 1;
      }
    }

    /** `handleAnswer`: overwrites one key's answer in place or appends it; the step does not move. */
    method HandleAnswer(key: string, value: Answer)
      requires Valid()
      modifies this
      ensures Valid()
      ensures answers == Put(old(answers), key, value)
      ensures Keys(answers) == if key in Keys(old(answers)) then Keys(old(answers)) else Keys(old(answers)) + [key]
      ensures Lookup(answers, key) == Some(value)
      ensures forall k :: k != key ==> Lookup(answers, k) == Lookup(old(answers), k)
      ensures currentStep == old(currentStep)
    {
      PutKeys(answers, key, value);
      PutDistinct(answers, key, value);
      answers := Put(answers, key, value);
    }

    /**
     * A click on the Next button: it exists only on steps 1 to 4 and is disabled while the step
     * is invalid, so it advances exactly when it is shown and enabled, and never reaches the
     * completion step.
     */
    method PressNextButton()
      requires Valid()
      modifies this
      ensures Valid()
      ensures NextButtonEnabled(old(currentStep), old(answers)) ==> currentStep == old(currentStep) + 1
      ensures !NextButtonEnabled(old(currentStep), old(answers)) ==> currentStep == old(currentStep)
      ensures currentStep < StepCount - 1 || currentStep == old(currentStep)
      ensures answers == old(answers)
    {
      if NextButtonShown(currentStep) && IsStepValid(currentStep, answers) {
        HandleNext();
      }
    }
  }

  /** Walks the example flow: answering categories then Next moves from step 1 to step 2. */
  method ExampleFlow()
  {
    var q := new Quiz();
    q.HandleNext();
    assert q.currentStep == 1;
    q.PressNextButton();
    assert Keys(q.answers) == [];
    assert q.currentStep == 1;
    q.HandleAnswer("categories", Choices(["a", "b"]));
    assert q.answers == [("categories", Choices(["a", "b"]))];
    assert Keys(q.answers) == ["categories"];
    q.PressNextButton();
    assert q.currentStep == 2;
    q.HandleBack();
    q.HandleBack();
    q.HandleBack();
    assert q.currentStep == 0;
  }
}
