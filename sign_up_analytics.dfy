/**
 * The sign-up analytics of src/components/auth/signup/pt/SignUpAnalytics.ts: a bounded retry
 * around three sends, with the analytics object's state at each attempt given as an input.
 */
module SignUpAnalytics {
  const DefaultRetries: nat := 3
  const ErrorMessage := "Erro ao registrar eventos de analytics"

  /**
   * What one attempt finds: no analytics object, a working one, or one whose calls throw after
   * `sent` of the three sends went out.
   */
  datatype Observation = Missing | Ready | ThrowsAfter(sent: nat)

  datatype Effect = Identify | TrackSignedUp | OnboardingCompleted | RetryScheduled(retries: nat) | ErrorToast(message: string)

  /** identify, then track, then the onboarding-completed event. */
  const Sends: seq<Effect> := [Identify, TrackSignedUp, OnboardingCompleted]

  /** The observation of attempt i; attempts past the given ones find no analytics. */
  function At(obs: seq<Observation>, i: nat): Observation {
    if i < |obs| then obs[i] else Missing
  }

  function Rest(obs: seq<Observation>): seq<Observation> {
    if obs == [] then [] else obs[1..]
  }

  lemma AtRest(obs: seq<Observation>, i: nat)
    ensures At(Rest(obs), i) == At(obs, i + 1)
  {
  }

  function SentBeforeThrow(k: nat): seq<Effect> {
    if k < |Sends| then Sends[..k] else Sends
  }

  /** `trackSignUpEvents(..., retries)`: the effects of this attempt and of every retry it schedules. */
  function Attempt(obs: seq<Observation>, retries: nat): seq<Effect>
    decreases retries, 1
  {
    match At(obs, 0)
    case Missing => RetryOrReport(obs, retries)
    case Ready => Sends
    case ThrowsAfter(k) => SentBeforeThrow(k) + RetryOrReport(obs, retries)
  }

  /** A failed attempt schedules a retry with one less while the budget lasts, and reports an error at zero. */
  function RetryOrReport(obs: seq<Observation>, retries: nat): seq<Effect>
    decreases retries, 0
  {
    if retries > 0 then [RetryScheduled(retries - 1)] + Attempt(Rest(obs), retries - 1)
    else [ErrorToast(ErrorMessage)]
  }

  /** The budget a single effect carries, if it is a scheduled retry. */
  function BudgetOf(x: Effect): seq<nat> {
    if x.RetryScheduled? then [x.retries] else []
  }

  /** The budgets carried by the scheduled retries, in order. */
  function Budgets(e: seq<Effect>): seq<nat> {
    if e == [] then [] else BudgetOf(e[0]) + Budgets(e[1..])
  }

  lemma {:induction false} BudgetsAppend(a: seq<Effect>, b: seq<Effect>)
    ensures Budgets(a + b) == Budgets(a) + Budgets(b)
    decreases |a|
  {
    if a == [] {
      assert a + b == b;
    } else {
      var ab := a + b;
      assert ab[0] == a[0];
      assert ab[1..] == a[1..] + b;
      BudgetsAppend(a[1..], b);
      calc {
        Budgets(ab);
        BudgetOf(a[0]) + Budgets(a[1..] + b);
        BudgetOf(a[0]) + (Budgets(a[1..]) + Budgets(b));
        (BudgetOf(a[0]) + Budgets(a[1..])) + Budgets(b);
      }
    }
  }

  lemma SendsNoBudgets(k: nat)
    ensures Budgets(SentBeforeThrow(k)) == []
  {
    var s := SentBeforeThrow(k);
    assert |s| <= 3;
    if |s| > 0 { assert s[0] == Identify; }
    if |s| > 1 { assert s[1..][0] == TrackSignedUp; }
    if |s| > 2 { assert s[1..][1..][0] == OnboardingCompleted; }
  }

  /**
   * The retries count down one by one from `retries - 1`: at most `retries` are scheduled, so at
   * most `retries + 1` attempts run in all.
   */
  lemma {:induction false} RetriesCountDown(obs: seq<Observation>, retries: nat)
    ensures |Budgets(Attempt(obs, retries))| <= retries
    ensures forall j :: 0 <= j < |Budgets(Attempt(obs, retries))| ==> Budgets(Attempt(obs, retries))[j] == retries - 1 - j
    decreases retries
  {
    match At(obs, 0) {
      case Ready =>
        SendsNoBudgets(3);
      case Missing =>
        RetryCountDownStep(obs, retries);
      case ThrowsAfter(k) =>
        SendsNoBudgets(k);
        BudgetsAppend(SentBeforeThrow(k), RetryOrReport(obs, retries));
        RetryCountDownStep(obs, retries);
    }
  }

  lemma {:induction false} RetryCountDownStep(obs: seq<Observation>, retries: nat)
    ensures |Budgets(RetryOrReport(obs, retries))| <= retries
    ensures forall j :: 0 <= j < |Budgets(RetryOrReport(obs, retries))| ==> Budgets(RetryOrReport(obs, retries))[j] == retries - 1 - j
    decreases retries, 0
  {
    if retries > 0 {
      var tail := Attempt(Rest(obs), retries - 1);
      BudgetsAppend([RetryScheduled(retries - 1)], tail);
      RetriesCountDown(Rest(obs), retries - 1);
    } else {
      assert Budgets([ErrorToast(ErrorMessage)]) == [];
    }
  }

  /** With the default budget there are at most four attempts. */
  lemma AtMostFourAttempts(obs: seq<Observation>)
    ensures |Budgets(Attempt(obs, DefaultRetries))| + 1 <= 4
  {
    RetriesCountDown(obs, DefaultRetries);
  }

  /** A missing analytics object with budget left sends nothing and schedules exactly one retry with one less. */
  lemma MissingSchedulesRetry(obs: seq<Observation>, retries: nat)
    requires At(obs, 0) == Missing && retries > 0
    ensures Attempt(obs, retries) == [RetryScheduled(retries - 1)] + Attempt(Rest(obs), retries - 1)
  {
  }

  /** A missing analytics object, or a throwing one, at budget zero reports the error and schedules nothing. */
  lemma FailureAtZeroReports(obs: seq<Observation>)
    requires At(obs, 0) != Ready
    ensures Attempt(obs, 0)[|Attempt(obs, 0)| - 1] == ErrorToast(ErrorMessage)
    ensures Budgets(Attempt(obs, 0)) == []
  {
    RetriesCountDown(obs, 0);
  }

  /** When analytics works on the first attempt the three events go out once each, in order, and nothing else happens. */
  lemma ReadySendsInOrder(obs: seq<Observation>, retries: nat)
    requires At(obs, 0) == Ready
    ensures Attempt(obs, retries) == [Identify, TrackSignedUp, OnboardingCompleted]
  {
  }

  /** Every one of the first `n + 1` attempts finds no working analytics object. */
  predicate AllFail(obs: seq<Observation>, n: nat) {
    forall i :: 0 <= i <= n ==> At(obs, i) != Ready
  }

  lemma AllFailRest(obs: seq<Observation>, n: nat)
    requires n > 0
    ensures AllFail(obs, n) <==> At(obs, 0) != Ready && AllFail(Rest(obs), n - 1)
  {
    forall i | 0 <= i <= n - 1 { AtRest(obs, i); }
    if At(obs, 0) != Ready && AllFail(Rest(obs), n - 1) {
      forall i | 0 <= i <= n ensures At(obs, i) != Ready {
        if i > 0 { AtRest(obs, i - 1); }
      }
    }
  }

  /** The error is reported exactly when every one of the `retries + 1` attempts fails. */
  lemma {:induction false} ErrorIffAllFail(obs: seq<Observation>, retries: nat)
    ensures ErrorToast(ErrorMessage) in Attempt(obs, retries) <==> AllFail(obs, retries)
    decreases retries
  {
    match At(obs, 0) {
      case Ready =>
        assert Attempt(obs, retries) == Sends;
      case Missing =>
        ErrorIffAllFailStep(obs, retries);
      case ThrowsAfter(k) =>
        ErrorIffAllFailStep(obs, retries);
        SendsNoError(k);
    }
  }

  lemma {:induction false} ErrorIffAllFailStep(obs: seq<Observation>, retries: nat)
    requires At(obs, 0) != Ready
    ensures ErrorToast(ErrorMessage) in RetryOrReport(obs, retries) <==> AllFail(obs, retries)
    decreases retries, 0
  {
    if retries > 0 {
      ErrorIffAllFail(Rest(obs), retries - 1);
      AllFailRest(obs, retries);
    }
  }

  lemma SendsNoError(k: nat)
    ensures ErrorToast(ErrorMessage) !in SentBeforeThrow(k)
  {
  }

  /** A reported error is the last effect and is reported only once. */
  lemma {:induction false} ErrorOnceAndLast(obs: seq<Observation>, retries: nat)
    ensures var e := Attempt(obs, retries);
      ErrorToast(ErrorMessage) in e ==> e[|e| - 1] == ErrorToast(ErrorMessage) && ErrorToast(ErrorMessage) !in e[..|e| - 1]
    decreases retries
  {
    var err := ErrorToast(ErrorMessage);
    match At(obs, 0) {
      case Ready =>
        assert Attempt(obs, retries) == Sends;
      case Missing =>
        ErrorOnceAndLastStep(obs, retries);
      case ThrowsAfter(k) =>
        var p := SentBeforeThrow(k);
        var t := RetryOrReport(obs, retries);
        ErrorOnceAndLastStep(obs, retries);
        SendsNoError(k);
        if err in t {
          assert (p + t)[..|p + t| - 1] == p + t[..|t| - 1];
        }
    }
  }

  lemma {:induction false} ErrorOnceAndLastStep(obs: seq<Observation>, retries: nat)
    ensures var e := RetryOrReport(obs, retries);
      ErrorToast(ErrorMessage) in e ==> e[|e| - 1] == ErrorToast(ErrorMessage) && ErrorToast(ErrorMessage) !in e[..|e| - 1]
    decreases retries, 0
  {
    if retries > 0 {
      var t := Attempt(Rest(obs), retries - 1);
      ErrorOnceAndLast(Rest(obs), retries - 1);
      if ErrorToast(ErrorMessage) in t {
        assert ([RetryScheduled(retries - 1)] + t)[..|t|] == [RetryScheduled(retries - 1)] + t[..|t| - 1];
      }
    }
  }

  /** Without a reported error the log closes with the three sends, in order. */
  lemma {:induction false} SuccessEndsWithSends(obs: seq<Observation>, retries: nat)
    ensures var e := Attempt(obs, retries);
      ErrorToast(ErrorMessage) !in e ==> |e| >= 3 && e[|e| - 3..] == Sends
    decreases retries
  {
    match At(obs, 0) {
      case Ready =>
        assert Attempt(obs, retries) == Sends;
      case Missing =>
        SuccessEndsWithSendsStep(obs, retries);
      case ThrowsAfter(k) =>
        var p := SentBeforeThrow(k);
        var t := RetryOrReport(obs, retries);
        SuccessEndsWithSendsStep(obs, retries);
        if ErrorToast(ErrorMessage) !in t {
          assert (p + t)[|p + t| - 3..] == t[|t| - 3..];
        }
    }
  }

  lemma {:induction false} SuccessEndsWithSendsStep(obs: seq<Observation>, retries: nat)
    ensures var e := RetryOrReport(obs, retries);
      ErrorToast(ErrorMessage) !in e ==> |e| >= 3 && e[|e| - 3..] == Sends
    decreases retries, 0
  {
    if retries > 0 {
      var t := Attempt(Rest(obs), retries - 1);
      SuccessEndsWithSends(Rest(obs), retries - 1);
      if ErrorToast(ErrorMessage) !in t {
        assert ([RetryScheduled(retries - 1)] + t)[|t| + 1 - 3..] == t[|t| - 3..];
      }
    }
  }
}
