/**
 * The application component: the credit counter kept in the browser's store
 * under the key "lf_credits", the usage gate in front of the generation call,
 * the screen it moves to afterwards and the message shown on failure.
 *
 * The component's state is given twice: as a value (Snapshot) with one pure
 * function per handler, which the lemmas about runs of several events use, and
 * as the class App, whose handlers change its fields in the order the
 * component does and are proved to end in the state the function gives.
 */
module AppComponent {
  import opened Wrappers
  import opened Types
  import opened Strings
  import GeminiService

  const FreeCredits: int := 1
  const PurchasedCredits: int := 5
  const PaymentFlag: string := "true"

  // ---------------------------------------------------------------------------
  // The failure message

  const AuthMessage: string := "Erro de Autentica\U{E7}\U{E3}o: Verifique a configura\U{E7}\U{E3}o da API Key no servidor."
  const QuotaMessage: string := "Muitas requisi\U{E7}\U{F5}es (Quota Excedida). Aguarde um momento."
  const GenericMessage: string := "Erro inesperado na IA. Tente novamente."

  /** The error text points at a rejected or missing credential. */
  ghost predicate AuthSignal(m: string)
  {
    IsInfix("403", m) || IsInfix("API key", m) || IsInfix("invalid", m)
  }

  /** The three kinds of failure the component tells apart. */
  datatype ErrorKind = AuthError | QuotaError | UnexpectedError

  /**
   * The kind of an error text: authentication wins over the quota, and
   * anything else is unexpected.
   */
  function Classify(m: string): (k: ErrorKind)
    ensures k == AuthError <==> AuthSignal(m)
    ensures k == QuotaError <==> !AuthSignal(m) && IsInfix("429", m)
    ensures k == UnexpectedError <==> !AuthSignal(m) && !IsInfix("429", m)
  {
    if Contains(m, "403") || Contains(m, "API key") || Contains(m, "invalid") then AuthError
    else if Contains(m, "429") then QuotaError
    else UnexpectedError
  }

  function MessageFor(k: ErrorKind): string
  {
    match k
    case AuthError => AuthMessage
    case QuotaError => QuotaMessage
    case UnexpectedError => GenericMessage
  }

  /** The message shown for an error text. */
  function ErrorMessage(m: string): string
  {
    MessageFor(Classify(m))
  }

  /** The three messages are distinct, so the one shown identifies the branch taken. */
  lemma ErrorMessageCases(m: string)
    ensures ErrorMessage(m) == AuthMessage <==> AuthSignal(m)
    ensures ErrorMessage(m) == QuotaMessage <==> !AuthSignal(m) && IsInfix("429", m)
    ensures ErrorMessage(m) == GenericMessage <==> !AuthSignal(m) && !IsInfix("429", m)
  {
    assert |AuthMessage| == 70 && |QuotaMessage| == 56 && |GenericMessage| == 39;
  }

  // ---------------------------------------------------------------------------
  // The component's state as a value, and one function per handler

  datatype Snapshot = Snapshot(
    segment: string,
    language: string,
    region: string,
    radius: string,
    credits: int,
    showPremiumModal: bool,
    appState: AppState,
    plan: Option<MarketingPlan>,
    error: Option<string>,
    stored: Option<int>,   // the "lf_credits" entry of the browser's store
    backendCalls: nat)

  /** The first render: the form's defaults, no credits yet, and whatever the store holds. */
  function Launch(stored: Option<int>): Snapshot
  {
    Snapshot("", "Portugu\U{EA}s", "Brasil", "Nacional (Pa\U{ED}s Inteiro)",
             0, false, IDLE, None, None, stored, 0)
  }

  /** The effect run once after the first render: load or seed the credits, then credit a payment. */
  function Initialized(s: Snapshot, paymentSuccess: Option<string>): Snapshot
  {
    var loaded :=
      if s.stored.None? then s.(stored := Some(FreeCredits), credits := FreeCredits)
      else s.(credits := s.stored.value);
    if paymentSuccess == Some(PaymentFlag) then
      var current := if loaded.stored.Some? then loaded.stored.value else 0;
      loaded.(stored := Some(current + PurchasedCredits), credits := current + PurchasedCredits,
              showPremiumModal := false)
    else loaded
  }

  /**
   * The user interactions the component handles. The form (the four inputs and
   * its submit) is on screen only in the idle state; the logo's reset and the
   * premium modal's buttons are always there.
   */
  datatype Event =
    | EditSegment(segment: string)
    | EditLanguage(language: string)
    | EditRegion(region: string)
    | EditRadius(radius: string)
    | SetPremiumModal(open: bool)
    | Submit(result: Result<MarketingPlan, string>)   // the generation's outcome, were it called
    | Reset

  /** A submit that gets past both checks and reaches the backend. */
  predicate Passes(s: Snapshot)
  {
    !IsBlank(s.segment) && s.credits > 0
  }

  /**
   * The checks before the call: a blank niche changes nothing, no credits
   * opens the premium modal, and otherwise the screen shows the loading state
   * with the last error cleared.
   */
  function Checked(s: Snapshot): Snapshot
  {
    if IsBlank(s.segment) then s
    else if s.credits <= 0 then s.(showPremiumModal := true)
    else s.(appState := LOADING, error := None)
  }

  /** After the generation returned or failed. */
  function Completed(s: Snapshot, result: Result<MarketingPlan, string>): Snapshot
  {
    match result
    case Success(p) =>
      s.(plan := Some(p), appState := SUCCESS, credits := s.credits - 1, stored := Some(s.credits - 1))
    case Failure(m) =>
      s.(error := Some(ErrorMessage(m)), appState := ERROR)
  }

  /** A whole submit: the checks, then, if they pass, one backend call and its outcome. */
  function Submitted(s: Snapshot, result: Result<MarketingPlan, string>): Snapshot
  {
    if Passes(s) then Completed(Checked(s).(backendCalls := s.backendCalls + 1), result)
    else Checked(s)
  }

  /** The event comes from the form, which only the idle screen shows. */
  predicate FromForm(e: Event)
  {
    e.EditSegment? || e.EditLanguage? || e.EditRegion? || e.EditRadius? || e.Submit?
  }

  /** One event on the current screen; a form event while the form is not shown cannot happen and changes nothing. */
  function Step(s: Snapshot, e: Event): Snapshot
  {
    if FromForm(e) && s.appState != IDLE then s
    else
      match e
      case EditSegment(v) => s.(segment := v)
      case EditLanguage(v) => s.(language := v)
      case EditRegion(v) => s.(region := v)
      case EditRadius(v) => s.(radius := v)
      case SetPremiumModal(open) => s.(showPremiumModal := open)
      case Submit(result) => Submitted(s, result)
      case Reset => s.(appState := IDLE, plan := None, segment := "")
  }

  /** The event is a submit from the form that gets past both checks. */
  predicate Calls(s: Snapshot, e: Event)
  {
    e.Submit? && s.appState == IDLE && Passes(s)
  }

  /** The state after a sequence of events, first to last. */
  function Run(s: Snapshot, events: seq<Event>): Snapshot
    decreases |events|
  {
    if events == [] then s else Run(Step(s, events[0]), events[1..])
  }

  /** How many of the events are submits that deliver a plan. */
  function Delivered(s: Snapshot, events: seq<Event>): nat
    decreases |events|
  {
    if events == [] then 0
    else
      (if Calls(s, events[0]) && events[0].result.Success? then 1 else 0)
      + Delivered(Step(s, events[0]), events[1..])
  }

  /** The displayed balance and the stored one agree, and neither is negative. */
  predicate Consistent(s: Snapshot)
  {
    s.stored == Some(s.credits) && s.credits >= 0
  }

  // ---------------------------------------------------------------------------
  // Lemmas about the handlers

  /**
   * Loading leaves the balance in the store and on screen equal; a first visit
   * starts with one credit; a payment adds exactly five to what loading gave.
   */
  lemma InitializedCredits(s: Snapshot)
    ensures Initialized(s, None).stored == Some(Initialized(s, None).credits)
    ensures s.stored.None? ==> Initialized(s, None).credits == 1
    ensures s.stored.Some? ==> Initialized(s, None).credits == s.stored.value
    ensures Initialized(s, Some("true")).credits == Initialized(s, None).credits + 5
    ensures Initialized(s, Some("true")).stored == Some(Initialized(s, None).credits + 5)
    ensures !Initialized(s, Some("true")).showPremiumModal
  {
  }

  /**
   * What one submit does. A blank niche changes nothing. Without credits only
   * the premium modal opens. Otherwise the screen goes through the loading
   * state with the error cleared, the backend is called once, and then either
   * the plan is kept and one credit is taken and stored, or the classified
   * message is shown with the balance and the last plan untouched.
   */
  lemma SubmittedEffects(s: Snapshot, result: Result<MarketingPlan, string>)
    ensures IsBlank(s.segment) ==> Submitted(s, result) == s
    ensures !IsBlank(s.segment) && s.credits <= 0 ==> Submitted(s, result) == s.(showPremiumModal := true)
    ensures Passes(s) ==> Checked(s).appState == LOADING && Checked(s).error == None
    ensures Submitted(s, result).backendCalls == s.backendCalls + (if Passes(s) then 1 else 0)
    ensures Passes(s) && result.Success? ==>
              var t := Submitted(s, result);
              t.credits == s.credits - 1 && t.stored == Some(t.credits) && t.plan == Some(result.value)
              && t.appState == SUCCESS && t.error == None
    ensures Passes(s) && result.Failure? ==>
              var t := Submitted(s, result);
              t.credits == s.credits && t.stored == s.stored && t.plan == s.plan
              && t.appState == ERROR && t.error == Some(ErrorMessage(result.error))
    ensures Submitted(s, result).credits >= 0 <==> s.credits >= 0
  {
  }

  /** A non-negative stored balance, or none at all, loads into a consistent state. */
  lemma InitializedConsistent(s: Snapshot, paymentSuccess: Option<string>)
    requires s.stored.None? || s.stored.value >= 0
    ensures Consistent(Initialized(s, paymentSuccess))
  {
  }

  /** Every handler keeps the balances equal and non-negative. */
  lemma StepConsistent(s: Snapshot, e: Event)
    requires Consistent(s)
    ensures Consistent(Step(s, e))
  {
    match e {
      case Submit(result) =>
        if Calls(s, e) {
          var t := Checked(s).(backendCalls := s.backendCalls + 1);
          assert t.stored == Some(t.credits) && t.credits > 0;
        }
      case _ =>
    }
  }

  lemma {:induction false} RunConsistent(s: Snapshot, events: seq<Event>)
    requires Consistent(s)
    ensures Consistent(Run(s, events))
    decreases |events|
  {
    if events != [] {
      StepConsistent(s, events[0]);
      RunConsistent(Step(s, events[0]), events[1..]);
    }
  }

  /**
   * One event: a submit from the idle screen that passes the checks calls the
   * backend once and, on success, costs one credit; every other event leaves
   * both counts alone.
   */
  lemma StepCounts(s: Snapshot, e: Event)
    ensures Step(s, e).credits ==
              s.credits - (if Calls(s, e) && e.result.Success? then 1 else 0)
    ensures Step(s, e).backendCalls ==
              s.backendCalls + (if Calls(s, e) then 1 else 0)
  {
    if Calls(s, e) {
      var t := Checked(s).(backendCalls := s.backendCalls + 1);
      assert t.credits == s.credits && t.backendCalls == s.backendCalls + 1;
    }
  }

  /**
   * Each delivered plan costs exactly one credit and nothing else changes the
   * balance; from a non-negative balance no run delivers more plans than there
   * were credits.
   */
  lemma {:induction false} CreditsAccounting(s: Snapshot, events: seq<Event>)
    ensures Run(s, events).credits == s.credits - Delivered(s, events)
    ensures s.credits >= 0 ==> Run(s, events).credits >= 0 && Delivered(s, events) <= s.credits
    decreases |events|
  {
    if events != [] {
      var s' := Step(s, events[0]);
      StepCounts(s, events[0]);
      CreditsAccounting(s', events[1..]);
      assert Run(s, events) == Run(s', events[1..]);
      assert Delivered(s, events) ==
        (if Calls(s, events[0]) && events[0].result.Success? then 1 else 0) + Delivered(s', events[1..]);
    }
  }

  /** Out of credits, no sequence of events reaches the backend or changes the balance. */
  lemma {:induction false} DepletedMakesNoCalls(s: Snapshot, events: seq<Event>)
    requires s.credits <= 0
    ensures Run(s, events).backendCalls == s.backendCalls
    ensures Run(s, events).credits == s.credits
    ensures Delivered(s, events) == 0
    decreases |events|
  {
    if events != [] {
      var s' := Step(s, events[0]);
      StepCounts(s, events[0]);
      DepletedMakesNoCalls(s', events[1..]);
      assert Run(s, events) == Run(s', events[1..]);
      assert Delivered(s, events) == Delivered(s', events[1..]);
    }
  }

  /**
   * A first visit: the free credit buys one plan for "Pizzaria". The result
   * screen has no form, so a new plan starts from a reset and a retyped
   * niche; that second submit opens the premium modal without calling the
   * backend.
   */
  lemma {:induction false} FirstVisitBuysOnePlan(p: MarketingPlan, q: MarketingPlan)
    ensures var s := Run(Initialized(Launch(None), None),
                         [EditSegment("Pizzaria"), Event.Submit(Success(p)), Event.Reset,
                          EditSegment("Pizzaria"), Event.Submit(Success(q))]);
            s.credits == 0 && s.stored == Some(0) && s.plan == None && s.appState == IDLE
            && s.segment == "Pizzaria" && s.showPremiumModal && s.backendCalls == 1
  {
    var s0 := Initialized(Launch(None), None);
    assert s0.credits == 1 && s0.appState == IDLE;
    var s1 := Step(s0, EditSegment("Pizzaria"));
    assert !IsWhitespace('P');
    assert TrimStart("Pizzaria") == "Pizzaria";
    assert !IsBlank(s1.segment);
    var s2 := Step(s1, Event.Submit(Success(p)));
    assert s2.credits == 0 && s2.backendCalls == 1 && s2.appState == SUCCESS;
    var s3 := Step(s2, Event.Reset);
    var s4 := Step(s3, EditSegment("Pizzaria"));
    assert s4.appState == IDLE && s4.credits == 0 && !IsBlank(s4.segment);
    var s5 := Step(s4, Event.Submit(Success(q)));
    assert s5 == s4.(showPremiumModal := true);
    var evs := [EditSegment("Pizzaria"), Event.Submit(Success(p)), Event.Reset,
                EditSegment("Pizzaria"), Event.Submit(Success(q))];
    assert evs[1..] == [Event.Submit(Success(p)), Event.Reset, EditSegment("Pizzaria"), Event.Submit(Success(q))];
    assert evs[1..][1..] == [Event.Reset, EditSegment("Pizzaria"), Event.Submit(Success(q))];
    assert evs[1..][1..][1..] == [EditSegment("Pizzaria"), Event.Submit(Success(q))];
    assert evs[1..][1..][1..][1..] == [Event.Submit(Success(q))];
    assert Run(s0, evs) == Run(s1, evs[1..]) == Run(s2, evs[1..][1..]) == Run(s3, evs[1..][1..][1..])
           == Run(s4, evs[1..][1..][1..][1..]) == Run(s5, []);
  }

  /** Off the idle screen, the form's events cannot happen: they change nothing and call nothing. */
  lemma FormOnlyWhenIdle(s: Snapshot, e: Event)
    requires s.appState != IDLE && FromForm(e)
    ensures Step(s, e) == s && !Calls(s, e)
  {
  }

  // ---------------------------------------------------------------------------
  // The component as an object

  class App {
    var segment: string
    var language: string
    var region: string
    var radius: string
    var credits: int
    var showPremiumModal: bool
    var appState: AppState
    var plan: Option<MarketingPlan>
    var error: Option<string>
    var stored: Option<int>
    var backendCalls: nat

    function State(): Snapshot
      reads this
    {
      Snapshot(segment, language, region, radius, credits, showPremiumModal, appState,
               plan, error, stored, backendCalls)
    }

    /** The first render, over a store that holds `storedCredits` under "lf_credits". */
    constructor (storedCredits: Option<int>)
      ensures State() == Launch(storedCredits)
      ensures credits == 0 && appState == IDLE && !showPremiumModal && backendCalls == 0
    {
      segment, language, region, radius := "", "Portugu\U{EA}s", "Brasil", "Nacional (Pa\U{ED}s Inteiro)";
      credits := 0;
      showPremiumModal := false;
      appState := IDLE;
      plan, error := None, None;
      stored := storedCredits;
      backendCalls := 0;
    }

    /** The mount effect; `paymentSuccess` is the "payment_success" query parameter, if any. */
    method Initialize(paymentSuccess: Option<string>)
      modifies this
      ensures State() == Initialized(old(State()), paymentSuccess)
      ensures stored == Some(credits)
      ensures var loaded := if old(stored).None? then FreeCredits else old(stored).value;
              credits == if paymentSuccess == Some("true") then loaded + PurchasedCredits else loaded
      ensures paymentSuccess == Some("true") ==> !showPremiumModal
      ensures appState == old(appState) && backendCalls == old(backendCalls) && plan == old(plan)
    {
      if stored.None? {
        stored := Some(FreeCredits);
        credits := FreeCredits;
      } else {
        credits := stored.value;
      }
      if paymentSuccess == Some(PaymentFlag) {
        var current := if stored.Some? then stored.value else 0;
        var newBalance := current + PurchasedCredits;
        stored := Some(newBalance);
        credits := newBalance;
        showPremiumModal := false;
      }
    }

    method SetSegment(value: string)
      modifies this
      ensures State() == old(State()).(segment := value)
      ensures old(appState) == IDLE ==> State() == Step(old(State()), EditSegment(value))
    {
      segment := value;
    }

    method SetLanguage(value: string)
      modifies this
      ensures State() == old(State()).(language := value)
      ensures old(appState) == IDLE ==> State() == Step(old(State()), EditLanguage(value))
    {
      language := value;
    }

    method SetRegion(value: string)
      modifies this
      ensures State() == old(State()).(region := value)
      ensures old(appState) == IDLE ==> State() == Step(old(State()), EditRegion(value))
    {
      region := value;
    }

    method SetRadius(value: string)
      modifies this
      ensures State() == old(State()).(radius := value)
      ensures old(appState) == IDLE ==> State() == Step(old(State()), EditRadius(value))
    {
      radius := value;
    }

    /** The premium modal's open and close buttons. */
    method SetShowPremiumModal(open: bool)
      modifies this
      ensures State() == Step(old(State()), SetPremiumModal(open))
    {
      showPremiumModal := open;
    }

    /**
     * The checks before the call; `proceed` says whether the backend is to be
     * called.
     */
    method BeginSubmit() returns (proceed: bool)
      modifies this
      ensures proceed == Passes(old(State()))
      ensures State() == Checked(old(State()))
    {
      if IsBlank(segment) {
        return false;
      }
      if credits <= 0 {
        showPremiumModal := true;
        return false;
      }
      appState := LOADING;
      error := None;
      return true;
    }

    /** After the call: keep the plan and take one credit, or show the failure message. */
    method CompleteSubmit(result: Result<MarketingPlan, string>)
      modifies this
      ensures State() == Completed(old(State()), result)
    {
      match result {
        case Success(p) =>
          plan := Some(p);
          appState := SUCCESS;
          var newBalance := credits - 1;
          credits := newBalance;
          stored := Some(newBalance);
        case Failure(m) =>
          var msg := ErrorMessage(m);
          error := Some(msg);
          appState := ERROR;
      }
    }

    /**
     * The form's submit handler. `generate` is the generation service's entry
     * point, which takes the niche, the language and the region: the radius is
     * not passed on. It is called at most once, and only when the checks pass.
     */
    method Submit(generate: (string, string, string) -> Result<MarketingPlan, string>)
      modifies this
      ensures State() == Submitted(old(State()), generate(old(segment), old(language), old(region)))
    {
      ghost var before := State();
      var proceed := BeginSubmit();
      if proceed {
        backendCalls := backendCalls + 1;
        var result := generate(segment, language, region);
        ghost var called := State();
        assert called == Checked(before).(backendCalls := before.backendCalls + 1);
        CompleteSubmit(result);
      }
    }

    /** The submit handler wired to the Gemini service, over a given backend and parser. */
    method SubmitToGemini(backend: GeminiService.Request -> GeminiService.CallOutcome,
                          parse: string -> Result<MarketingPlan, string>)
      modifies this
      ensures State() == Submitted(old(State()),
                GeminiService.GenerateMarketingPlan(old(segment), old(language), old(region), backend, parse))
    {
      Submit((s, l, r) => GeminiService.GenerateMarketingPlan(s, l, r, backend, parse));
    }

    /** Back to the form: an empty niche and no plan; credits and the last error stay. */
    method Reset()
      modifies this
      ensures State() == Step(old(State()), Event.Reset)
      ensures appState == IDLE && plan == None && segment == ""
      ensures credits == old(credits) && stored == old(stored) && error == old(error)
    {
      appState := IDLE;
      plan := None;
      segment := "";
    }
  }
}
