/**
  The onboarding provider of the web app: from the account's login state,
  its free balance and whether it owns spaces it decides which onboarding
  step the user is on, whether the onboarding UI is shown, and whether the
  account is recorded as onboarded in the browser's persistent store.

  The provider's React state, the stored value and the variables of the
  latest effect run's closure are the fields of class `OnBoarding`; the
  effect run, the two subscription callbacks and the cleanup are its
  methods, called one after another in the order React and the chain API
  would call them.
 */
module Onboarding {
  import opened JsValues

  /** The route of the dedicated "get started" page. */
  const GetStartedPath: string := "/get-started"

  /** `StepsEnum`, in ascending onboarding order. */
  datatype Step = Login | GetTokens | CreateSpace | Finish

  /** The number React keeps for a step (the enum's ordinal). */
  function StepValue(s: Step): (n: nat)
    ensures n < 4
  {
    match s
    case Login => 0
    case GetTokens => 1
    case CreateSpace => 2
    case Finish => 3
  }

  /** Steps are numbered in onboarding order, and distinct steps have distinct numbers. */
  lemma StepValueOrder(a: Step, b: Step)
    ensures StepValue(a) == StepValue(b) <==> a == b
    ensures StepValue(Login) < StepValue(GetTokens) < StepValue(CreateSpace) < StepValue(Finish)
  {
  }

  /**
    What `store.get('df.onboarded')` returns: nothing, a list of addresses (the shape the
    reader expects), or a single address (the shape the provider writes).
   */
  datatype Stored = Missing | Addresses(list: seq<string>) | Single(address: string)

  /**
    `onBoardedAccounts.includes(address)` with `onBoardedAccounts = store.get('df.onboarded') || []`:
    membership for a list, a substring test for a stored string, false when
    nothing (or an empty string) is stored.
   */
  function Recorded(stored: Stored, address: string): (r: bool)
    ensures stored.Missing? ==> !r
    ensures stored.Addresses? ==> (r <==> address in stored.list)
    ensures stored.Single? && stored.address != "" && |address| == |stored.address| ==>
      (r <==> address == stored.address)
    ensures stored.Single? && |address| > |stored.address| ==> !r
  {
    match stored
    case Missing => false
    case Addresses(list) => address in list
    case Single(s) =>
      if |s| == |address| then IncludesSameLength(s, address); s != "" && Includes(s, address)
      else s != "" && Includes(s, address)
  }

  /** `noOnBoarded`: the address is absent (or empty) or not recorded as onboarded. */
  function NoOnBoarded(address: Option<string>, onboarded: Stored): (r: bool)
    ensures !Truthy(address) ==> r
    ensures Truthy(address) ==> (r <==> !Recorded(onboarded, address.value))
  {
    !Truthy(address) || !Recorded(onboarded, address.value)
  }

  /**
    The step a fresh effect run publishes after one balance event and then
    one ownership event.
   */
  function DeriveStep(balanceIsZero: bool, spacesEmpty: bool): (r: Step)
    ensures r != Login
    ensures r == GetTokens <==> balanceIsZero
    ensures r == CreateSpace <==> !balanceIsZero && spacesEmpty
    ensures r == Finish <==> !balanceIsZero && !spacesEmpty
  {
    if balanceIsZero then GetTokens
    else if spacesEmpty then CreateSpace
    else Finish
  }

  /**
    Because the provider stores one address, recording a second account
    forgets the first: an account whose address has the same length as the
    stored one, but differs from it, counts as not onboarded.
   */
  lemma SingleRecordForgetsOthers(stored: string, other: string)
    requires stored != "" && |other| == |stored| && other != stored
    ensures !NoOnBoarded(Some(stored), Single(stored))
    ensures NoOnBoarded(Some(other), Single(stored))
  {
    IncludesSameLength(stored, stored);
    IncludesSameLength(stored, other);
  }

  /**
    The pending step after an ownership snapshot, as the callback computes it:
    a funded subscription that sees no spaces moves it to `CreateSpace`, any
    other snapshot leaves it where it was.
   */
  function PendingAfterOwnership(pending: Step, isBalance: bool, spacesEmpty: bool): (r: Step)
    ensures r == CreateSpace || r == pending
    ensures r == Finish ==> pending == Finish
    ensures isBalance && spacesEmpty ==> r == CreateSpace
  {
    if isBalance && spacesEmpty then CreateSpace else pending
  }

  /**
    Once a run has settled on `CreateSpace`, a funded snapshot showing that
    the account now owns a space leaves the pending step at `CreateSpace`:
    the callback never reaches `Finish`, so the account is never stored.
   */
  lemma CreateSpaceIsSticky(isBalance: bool, spacesEmpty: bool)
    ensures PendingAfterOwnership(CreateSpace, isBalance, spacesEmpty) == CreateSpace
    ensures PendingAfterOwnership(CreateSpace, true, false) != DeriveStep(false, false)
  {
  }

  /**
    The ownership step as evidently intended: derived from the snapshot the
    callback receives (the balance it captured and the space list) alone.
   */
  function RederivedStep(isBalance: bool, spacesEmpty: bool): (r: Step)
    ensures r == DeriveStep(!isBalance, spacesEmpty)
    ensures isBalance && !spacesEmpty <==> r == Finish
  {
    if !isBalance then GetTokens else if spacesEmpty then CreateSpace else Finish
  }

  /**
    The intended step ignores the pending step of earlier snapshots: from
    any earlier outcome, a funded account that owns a space reaches `Finish`,
    while the callback as written reaches it only from `Finish`.
   */
  lemma RederivedStepForgetsHistory(pending: Step)
    ensures RederivedStep(true, false) == Finish
    ensures PendingAfterOwnership(pending, true, false) == Finish <==> pending == Finish
  {
  }

  /** The state the provider exposes through its context. */
  datatype View = View(showOnBoarding: bool, currentStep: Step, actions: bool)

  class OnBoarding {
    // React state of the provider.
    var currentStep: Step
    var showOnBoarding: bool
    var actions: bool

    /** The value the persistent store holds under the key `df.onboarded`. */
    var stored: Stored

    /** `store.get('df.onboarded') || []` as read when the provider mounted; React keeps the first value. */
    const onBoardedAccounts: Stored

    // The closure of the latest effect run: the pending step, the address and
    // `noOnBoarded` captured from the render that scheduled it.
    var step: Step
    var runAddress: Option<string>
    var runNoOnBoarded: bool

    /** `unsubBalance` is set: the balance subscription of the latest run is open. */
    var balanceLive: bool

    /**
      The ownership subscriptions the latest run has opened, in order, each
      with the `isBalanse` it captured; `unsubBlog` refers to the last one.
     */
    var ownerSubs: seq<bool>

    /** Ownership subscriptions whose unsubscribe function was overwritten, so no cleanup reaches them. */
    var leakedOwnerSubs: nat

    /** Ownership subscriptions are opened only by the balance callback, which only exists for a present address. */
    ghost predicate Valid()
      reads this
    {
      && (ownerSubs != [] ==> balanceLive)
      && (balanceLive ==> Truthy(runAddress))
    }

    /**
      The balance subscription and the last ownership subscription of the
      latest run are closed; earlier ownership subscriptions of the run may
      still be open, counted in `leakedOwnerSubs`.
     */
    predicate Idle()
      reads this
    {
      !balanceLive && ownerSubs == []
    }

    /** Mounting `OnBoardingProvider` with the current account address and the stored value. */
    constructor (address: Option<string>, storedAtMount: Stored)
      ensures Valid() && Idle()
      ensures currentStep == Login && !actions
      ensures showOnBoarding == NoOnBoarded(address, storedAtMount)
      ensures onBoardedAccounts == storedAtMount && stored == storedAtMount
      ensures step == Finish && runAddress == None && leakedOwnerSubs == 0
    {
      currentStep := Login;
      actions := false;
      onBoardedAccounts := storedAtMount;
      stored := storedAtMount;
      showOnBoarding := NoOnBoarded(address, storedAtMount);
      step := Finish;
      runAddress := None;
      runNoOnBoarded := true;
      balanceLive := false;
      ownerSubs := [];
      leakedOwnerSubs := 0;
    }

    /**
      One run of the effect, scheduled by a render with the given login
      state, API readiness and address. React has run the previous run's
      cleanup before this one.
     */
    method EffectRun(isLogged: bool, isApiReady: bool, address: Option<string>)
      requires Valid() && Idle()
      modifies this
      ensures Valid()
      ensures !isLogged ==> currentStep == Login && Idle()
      ensures isLogged && !isApiReady ==> currentStep == GetTokens && Idle()
      ensures !(isLogged && isApiReady) ==>
        step == old(step) && runAddress == old(runAddress) && runNoOnBoarded == old(runNoOnBoarded)
      ensures isLogged && isApiReady ==>
        && currentStep == old(currentStep)
        && step == Finish
        && runAddress == address
        && runNoOnBoarded == NoOnBoarded(address, onBoardedAccounts)
        && balanceLive == Truthy(address)
        && ownerSubs == []
      ensures showOnBoarding == old(showOnBoarding) && actions == old(actions)
      ensures stored == old(stored) && leakedOwnerSubs == old(leakedOwnerSubs)
    {
      if !isLogged {
        currentStep := Login;
        return;
      }
      if !isApiReady {
        currentStep := GetTokens;
        return;
      }
      step := Finish;
      runAddress := address;
      runNoOnBoarded := NoOnBoarded(address, onBoardedAccounts);
      if Truthy(address) {
        balanceLive := true;
      }
    }

    /**
      The balance subscription delivers a snapshot whose free balance prints
      as `freeBalance`; the callback opens another ownership subscription.
     */
    method BalanceEvent(freeBalance: string)
      requires Valid() && balanceLive
      modifies this
      ensures Valid() && balanceLive
      ensures step == (if freeBalance == "0" then GetTokens else old(step))
      ensures old(step) != Finish ==> step != Finish
      ensures ownerSubs == old(ownerSubs) + [freeBalance != "0"]
      ensures currentStep == old(currentStep) && showOnBoarding == old(showOnBoarding)
      ensures actions == old(actions) && stored == old(stored)
      ensures runAddress == old(runAddress) && runNoOnBoarded == old(runNoOnBoarded)
      ensures leakedOwnerSubs == old(leakedOwnerSubs)
    {
      var isEmptyBalance := freeBalance == "0";
      if isEmptyBalance {
        step := GetTokens;
      }
      ownerSubs := ownerSubs + [!isEmptyBalance];
    }

    /**
      An ownership subscription that captured `isBalance` delivers the
      owner's space list, empty or not. The callback publishes the pending
      step and, in the `Finish` branch, records the address.
     */
    method OwnershipEvent(isBalance: bool, spacesEmpty: bool)
      requires Valid() && isBalance in ownerSubs
      modifies this
      ensures Valid() && ownerSubs == old(ownerSubs) && balanceLive
      ensures step == PendingAfterOwnership(old(step), isBalance, spacesEmpty)
      ensures old(step) != Finish ==> step != Finish
      ensures currentStep == step
      ensures showOnBoarding == (currentStep != Finish)
      ensures stored ==
        if !(isBalance && spacesEmpty) && old(step) == Finish && runNoOnBoarded
        then Single(runAddress.value)
        else old(stored)
      ensures stored != old(stored) ==> currentStep == Finish && runNoOnBoarded
      ensures actions == old(actions)
      ensures runAddress == old(runAddress) && runNoOnBoarded == old(runNoOnBoarded)
      ensures leakedOwnerSubs == old(leakedOwnerSubs)
    {
      if isBalance && spacesEmpty {
        step := CreateSpace;
      } else if step == Finish {
        if runNoOnBoarded {
          stored := Single(runAddress.value);
        }
      }
      showOnBoarding := step != Finish;
      currentStep := step;
    }

    /**
      The cleanup the effect returns: `unsubBlog` cancels the last ownership
      subscription, `unsubBalance` the balance subscription. The ownership
      subscriptions opened before the last one stay open.
     */
    method Cleanup()
      requires Valid()
      modifies this
      ensures Valid() && Idle()
      ensures leakedOwnerSubs ==
        old(leakedOwnerSubs) + (if old(ownerSubs) == [] then 0 else |old(ownerSubs)| - 1)
      ensures currentStep == old(currentStep) && showOnBoarding == old(showOnBoarding)
      ensures actions == old(actions) && stored == old(stored) && step == old(step)
      ensures runAddress == old(runAddress) && runNoOnBoarded == old(runNoOnBoarded)
    {
      if ownerSubs != [] {
        leakedOwnerSubs := leakedOwnerSubs + |ownerSubs| - 1;
        ownerSubs := [];
      }
      balanceLive := false;
    }

    /** `setCurrentStep`, exposed to consumers through the context. */
    method SetCurrentStep(s: Step)
      modifies this`currentStep
      ensures currentStep == s
    {
      currentStep := s;
    }

    /** `setAction`, exposed to consumers through the context. */
    method SetAction(value: bool)
      modifies this`actions
      ensures actions == value
    {
      actions := value;
    }

    /**
      The context value read on the route `pathname`: the "get started" page
      never shows the onboarding bar; the step and the actions flag pass through.
     */
    function Context(pathname: string): (v: View)
      reads this
      ensures v.currentStep == currentStep && v.actions == actions
      ensures pathname == GetStartedPath ==> !v.showOnBoarding
      ensures pathname != GetStartedPath ==> v.showOnBoarding == showOnBoarding
    {
      View(if pathname == GetStartedPath then false else showOnBoarding, currentStep, actions)
    }
  }

  /**
    A freshly mounted provider whose user is logged out: the run publishes
    `Login`, opens no subscription, and the bar is shown unless the address
    is already recorded.
   */
  method LoggedOutRun(address: Option<string>, storedAtMount: Stored)
    returns (published: Step, shown: bool, subscribed: bool)
    ensures published == Login && !subscribed
    ensures shown <==> !Truthy(address) || !Recorded(storedAtMount, address.value)
  {
    var provider := new OnBoarding(address, storedAtMount);
    provider.EffectRun(false, true, address);
    published, shown, subscribed := provider.currentStep, provider.showOnBoarding, !provider.Idle();
  }

  /** Logged in while the API is not ready: the run publishes `GetTokens` and opens no subscription. */
  method ApiNotReadyRun(address: Option<string>, storedAtMount: Stored)
    returns (published: Step, subscribed: bool)
    ensures published == GetTokens && !subscribed
  {
    var provider := new OnBoarding(address, storedAtMount);
    provider.EffectRun(true, false, address);
    published, subscribed := provider.currentStep, !provider.Idle();
  }

  /**
    Logged in with a ready API but no address: no balance subscription is
    opened and nothing is published, so the mount-time state stays.
   */
  method NoAddressRun(address: Option<string>, storedAtMount: Stored)
    returns (published: Step, shown: bool, subscribed: bool, storedAfter: Stored)
    requires !Truthy(address)
    ensures !subscribed && published == Login && shown && storedAfter == storedAtMount
  {
    var provider := new OnBoarding(address, storedAtMount);
    provider.EffectRun(true, true, address);
    published, shown, subscribed, storedAfter :=
      provider.currentStep, provider.showOnBoarding, !provider.Idle(), provider.stored;
  }

  /**
    A fresh run that receives one balance snapshot and then one ownership
    snapshot publishes `DeriveStep`; the address is written to the store
    exactly when the step is `Finish` and it was not recorded at mount.
   */
  method FreshRunPublishes(address: string, storedAtMount: Stored, freeBalance: string, spacesEmpty: bool)
    returns (published: Step, shown: bool, storedAfter: Stored)
    requires address != ""
    ensures published == DeriveStep(freeBalance == "0", spacesEmpty)
    ensures shown <==> published != Finish
    ensures storedAfter ==
      if published == Finish && !Recorded(storedAtMount, address) then Single(address) else storedAtMount
  {
    var provider := new OnBoarding(Some(address), storedAtMount);
    provider.EffectRun(true, true, Some(address));
    provider.BalanceEvent(freeBalance);
    provider.OwnershipEvent(freeBalance != "0", spacesEmpty);
    published, shown, storedAfter := provider.currentStep, provider.showOnBoarding, provider.stored;
  }

  /**
    Within one run the pending step is never re-derived: after a zero
    balance, a later non-zero balance and a non-empty space list still
    publish `GetTokens`, and nothing is stored.
   */
  method ZeroThenFundedRun(address: string, storedAtMount: Stored, laterBalance: string, spacesEmpty: bool)
    returns (published: Step, storedAfter: Stored)
    requires address != "" && laterBalance != "0"
    ensures published == (if spacesEmpty then CreateSpace else GetTokens)
    ensures published != DeriveStep(false, spacesEmpty) <==> !spacesEmpty
    ensures storedAfter == storedAtMount
  {
    var provider := new OnBoarding(Some(address), storedAtMount);
    provider.EffectRun(true, true, Some(address));
    provider.BalanceEvent("0");
    provider.BalanceEvent(laterBalance);
    provider.OwnershipEvent(true, spacesEmpty);
    published, storedAfter := provider.currentStep, provider.stored;
  }

  /**
    The context a freshly mounted provider exposes before any effect has
    run: step `Login`, no actions, and the bar shown only off the "get
    started" page for an account that is not recorded.
   */
  method MountedContext(address: Option<string>, storedAtMount: Stored, pathname: string)
    returns (v: View)
    ensures v.currentStep == Login && !v.actions
    ensures v.showOnBoarding <==> pathname != GetStartedPath && NoOnBoarded(address, storedAtMount)
  {
    var provider := new OnBoarding(address, storedAtMount);
    v := provider.Context(pathname);
  }

  /**
    A funded account that owns no space: the first run publishes `CreateSpace`,
    which changes `currentStep` and so makes React clean up and re-run the
    effect. The re-run publishes `CreateSpace` again, which leaves
    `currentStep` unchanged, so no further re-run follows. When that run's
    subscription then sees the newly created space, `CreateSpace` is
    published once more and nothing is stored.
   */
  method CreateSpaceThenSpaceOwned(address: string, storedAtMount: Stored, freeBalance: string)
    returns (first: Step, rerunChanged: bool, last: Step, storedAfter: Stored)
    requires address != "" && freeBalance != "0"
    ensures first == CreateSpace && first != Login
    ensures !rerunChanged
    ensures last == CreateSpace && last != DeriveStep(false, false)
    ensures storedAfter == storedAtMount
  {
    var provider := new OnBoarding(Some(address), storedAtMount);
    provider.EffectRun(true, true, Some(address));
    provider.BalanceEvent(freeBalance);
    provider.OwnershipEvent(true, true);
    first := provider.currentStep;
    // `currentStep` went from Login to CreateSpace: the effect re-runs.
    provider.Cleanup();
    provider.EffectRun(true, true, Some(address));
    provider.BalanceEvent(freeBalance);
    var before := provider.currentStep;
    provider.OwnershipEvent(true, true);
    rerunChanged := provider.currentStep != before;
    provider.OwnershipEvent(true, false);
    last, storedAfter := provider.currentStep, provider.stored;
  }
}
