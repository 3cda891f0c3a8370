/**
 * The application shell: the generation pipeline (quota check, prompt enrichment,
 * three image attempts, usage charge), the dialogs it opens, and the upgrade flow from
 * tier selection through payment.
 */
module App {
  import opened Wrappers
  import opened Text
  import opened Types
  import AuthContext
  import GeminiService

  /** The one account the admin button is shown to. */
  const AdminEmail: string := "admin@albanian.ai"

  /** What the page says when any stage of a generation fails. */
  const GenericFailureMessage: string := "Failed to generate images. Please try again."

  /** `isAdmin`: the signed-in account's email is exactly the admin email. */
  function IsAdmin(user: Option<User>): (r: bool)
    ensures r ==> user.Some? && user.value.email == AdminEmail
    ensures user.Some? && user.value.email == AdminEmail ==> r
  {
    match user
    case None => false
    case Some(u) => u.email == AdminEmail
  }

  /** The comparison is exact: the email in other letter case is not the admin. */
  lemma AdminIsCaseSensitive(u: User)
    requires u.email == "Admin@albanian.ai"
    ensures !IsAdmin(Some(u))
  {
    assert u.email[0] != AdminEmail[0];
  }

  /**
   * What the two stages produce together: the brief and the images when enrichment
   * gave a brief and at least one attempt gave an image, and otherwise the error the
   * first failing stage throws.
   */
  function GenerationOutcome(enrich: GeminiService.EnrichOutcome, attempts: seq<GeminiService.AttemptOutcome>)
    : Result<(PromptDetails, seq<string>), GeminiService.GeminiError>
  {
    match GeminiService.TransformAlbanianPrompt(enrich)
    case Failure(e) => Failure(e)
    case Success(brief) =>
      match GeminiService.ImagesOutcome(attempts)
      case Failure(e) => Failure(e)
      case Success(images) => Success((brief, images))
  }

  /**
   * A generation succeeds, and so is charged, exactly when enrichment returned a brief
   * and some attempt returned an image; the images are then between one and the number
   * of attempts.
   */
  lemma {:induction false} ChargedIffBriefAndImage(enrich: GeminiService.EnrichOutcome,
                                                    attempts: seq<GeminiService.AttemptOutcome>)
    ensures GenerationOutcome(enrich, attempts).Success? <==>
      && GeminiService.TransformAlbanianPrompt(enrich).Success?
      && exists i :: 0 <= i < |attempts| && GeminiService.AttemptResult(attempts[i]).Some?
    ensures GenerationOutcome(enrich, attempts).Success? ==>
      0 < |GenerationOutcome(enrich, attempts).value.1| <= |attempts|
  {
    var results := GeminiService.Results(attempts);
    if exists i :: 0 <= i < |attempts| && GeminiService.AttemptResult(attempts[i]).Some? {
      var i :| 0 <= i < |attempts| && GeminiService.AttemptResult(attempts[i]).Some?;
      assert results[i].Some?;
    } else {
      assert forall i :: 0 <= i < |results| ==> results[i].None?;
    }
  }

  /** The shell's state. */
  class App {
    var input: string
    var status: GenerationStatus
    /** The statuses set so far, in order; `status` is the last. */
    ghost var statusTrace: seq<GenerationStatus>
    var mediaUrls: Option<seq<string>>
    var selectedIndex: nat
    var error: Option<string>
    var successMsg: Option<string>
    var isAuthOpen: bool
    var isPricingOpen: bool
    var isPaymentOpen: bool
    var isAdminOpen: bool
    var pendingTier: Option<SubscriptionTier>
    var promptData: Option<PromptDetails>
    const auth: AuthContext.AuthProvider

    constructor (auth: AuthContext.AuthProvider)
      ensures this.auth == auth
      ensures input == "" && status == Idle && statusTrace == [Idle]
      ensures mediaUrls == None && selectedIndex == 0 && error == None && successMsg == None
      ensures !isAuthOpen && !isPricingOpen && !isPaymentOpen && !isAdminOpen
      ensures pendingTier == None && promptData == None
    {
      this.auth := auth;
      input := "";
      status := Idle;
      statusTrace := [Idle];
      mediaUrls := None;
      selectedIndex := 0;
      error := None;
      successMsg := None;
      isAuthOpen, isPricingOpen, isPaymentOpen, isAdminOpen := false, false, false, false;
      pendingTier := None;
      promptData := None;
    }

    /** The result area: the images, the one selected, the error and the last brief. */
    function Screen(): (Option<seq<string>>, nat, Option<string>, Option<PromptDetails>)
      reads this
    {
      (mediaUrls, selectedIndex, error, promptData)
    }

    /** The dialog flags, the tier waiting for payment and the success toast. */
    function Dialogs(): (bool, bool, bool, bool, Option<SubscriptionTier>, Option<string>)
      reads this
    {
      (isAuthOpen, isPricingOpen, isPaymentOpen, isAdminOpen, pendingTier, successMsg)
    }

    /** The status field is the last entry of the trace. */
    ghost predicate StatusTracked()
      reads this
    {
      statusTrace != [] && statusTrace[|statusTrace| - 1] == status
    }

    /** The status, the result area and the account are as they were. */
    twostate predicate GenerationUntouched()
      reads this, auth, auth.store
    {
      && status == old(status) && statusTrace == old(statusTrace) && Screen() == old(Screen())
      && auth.user == old(auth.user) && auth.store.entries == old(auth.store.entries)
    }

    /**
     * What `performGeneration` does. Blank input changes nothing. Otherwise, when both
     * stages succeed, the status goes ANALYZING, GENERATING, COMPLETED, the images are
     * shown from the first with no error, and the account is charged one use; when a
     * stage fails, the status ends ERROR with the fixed message, the images shown and
     * the account stay as they were, and the brief is kept only if enrichment gave one.
     * The input and the dialogs never change.
     */
    twostate predicate GenerationRan(enrich: GeminiService.EnrichOutcome, attempts: seq<GeminiService.AttemptOutcome>)
      reads this, auth, auth.store
    {
      && input == old(input) && Dialogs() == old(Dialogs())
      && if Trim(old(input)) == [] then GenerationUntouched()
         else
           && StatusTracked()
           && match GenerationOutcome(enrich, attempts)
              case Success((brief, images)) =>
                && statusTrace == old(statusTrace) + [Analyzing, Generating, Completed]
                && Screen() == (Some(images), 0, None, Some(brief))
                && AuthContext.UsageCharged(old(auth.user), old(auth.store.entries), auth.user, auth.store.entries)
              case Failure(_) =>
                && status == Error && error == Some(GenericFailureMessage)
                && mediaUrls == old(mediaUrls) && selectedIndex == old(selectedIndex)
                && auth.user == old(auth.user) && auth.store.entries == old(auth.store.entries)
                && match GeminiService.TransformAlbanianPrompt(enrich)
                   case Failure(_) =>
                     statusTrace == old(statusTrace) + [Analyzing, Error] && promptData == old(promptData)
                   case Success(brief) =>
                     statusTrace == old(statusTrace) + [Analyzing, Generating, Error] && promptData == Some(brief)
    }

    /** Typing changes only the input. */
    method ChangeInput(text: string)
      modifies this
      ensures input == text
      ensures status == old(status) && statusTrace == old(statusTrace)
      ensures Screen() == old(Screen()) && Dialogs() == old(Dialogs())
    {
      input := text;
    }

    method SetStatus(s: GenerationStatus)
      modifies this
      ensures status == s && statusTrace == old(statusTrace) + [s]
      ensures StatusTracked()
      ensures input == old(input) && Screen() == old(Screen()) && Dialogs() == old(Dialogs())
    {
      status := s;
      statusTrace := statusTrace + [s];
    }

    /**
     * `performGeneration`, with `enrich` and `attempts` what the two model calls
     * answer: see `GenerationRan`.
     */
    method PerformGeneration(enrich: GeminiService.EnrichOutcome, attempts: seq<GeminiService.AttemptOutcome>)
      requires |attempts| == GeminiService.DefaultCount
      modifies this, auth, auth.store
      ensures GenerationRan(enrich, attempts)
    {
      if Trim(input) == [] {
        return;
      }
      Analyze(enrich, attempts);
    }

    /** The try block from the ANALYZING status on: enrichment, then the image stage. */
    method Analyze(enrich: GeminiService.EnrichOutcome, attempts: seq<GeminiService.AttemptOutcome>)
      requires |attempts| == GeminiService.DefaultCount
      modifies this, auth, auth.store
      ensures GenerationOutcome(enrich, attempts).Success? ==>
        && statusTrace == old(statusTrace) + [Analyzing, Generating, Completed]
        && Screen() == (Some(GenerationOutcome(enrich, attempts).value.1), 0, None,
                        Some(GenerationOutcome(enrich, attempts).value.0))
        && AuthContext.UsageCharged(old(auth.user), old(auth.store.entries), auth.user, auth.store.entries)
      ensures GenerationOutcome(enrich, attempts).Failure? ==>
        && status == Error && error == Some(GenericFailureMessage)
        && mediaUrls == old(mediaUrls) && selectedIndex == old(selectedIndex)
        && auth.user == old(auth.user) && auth.store.entries == old(auth.store.entries)
      ensures GeminiService.TransformAlbanianPrompt(enrich).Failure? ==>
        statusTrace == old(statusTrace) + [Analyzing, Error] && promptData == old(promptData)
      ensures GeminiService.TransformAlbanianPrompt(enrich).Success?
              && GeminiService.ImagesOutcome(attempts).Failure? ==>
        && statusTrace == old(statusTrace) + [Analyzing, Generating, Error]
        && promptData == Some(GeminiService.TransformAlbanianPrompt(enrich).value)
      ensures input == old(input) && Dialogs() == old(Dialogs())
      ensures StatusTracked()
    {
      SetStatus(Analyzing);
      error := None;
      var enhanced := GeminiService.TransformAlbanianPrompt(enrich);
      if enhanced.Failure? {
        FailGeneration();
        return;
      }
      Generate(enhanced.value, attempts);
    }

    /** The image stage of the try block, once the brief is in. */
    method Generate(brief: PromptDetails, attempts: seq<GeminiService.AttemptOutcome>)
      requires |attempts| == GeminiService.DefaultCount
      modifies this, auth, auth.store
      ensures promptData == Some(brief)
      ensures GeminiService.ImagesOutcome(attempts).Success? ==>
        && statusTrace == old(statusTrace) + [Generating, Completed]
        && mediaUrls == Some(GeminiService.ImagesOutcome(attempts).value) && selectedIndex == 0
        && error == old(error)
        && AuthContext.UsageCharged(old(auth.user), old(auth.store.entries), auth.user, auth.store.entries)
      ensures GeminiService.ImagesOutcome(attempts).Failure? ==>
        && statusTrace == old(statusTrace) + [Generating, Error]
        && status == Error && error == Some(GenericFailureMessage)
        && mediaUrls == old(mediaUrls) && selectedIndex == old(selectedIndex)
        && auth.user == old(auth.user) && auth.store.entries == old(auth.store.entries)
      ensures input == old(input) && Dialogs() == old(Dialogs())
      ensures StatusTracked()
    {
      promptData := Some(brief);
      SetStatus(Generating);
      var generated := GeminiService.GenerateImagesFromPrompt(GeminiService.DefaultCount, attempts);
      if generated.Failure? {
        FailGeneration();
        return;
      }
      CompleteGeneration(generated.value);
    }

    /** The catch block: the fixed message and the ERROR status. */
    method FailGeneration()
      modifies this
      ensures status == Error && statusTrace == old(statusTrace) + [Error]
      ensures error == Some(GenericFailureMessage)
      ensures input == old(input) && mediaUrls == old(mediaUrls) && selectedIndex == old(selectedIndex)
      ensures promptData == old(promptData) && Dialogs() == old(Dialogs())
    {
      error := Some(GenericFailureMessage);
      SetStatus(Error);
    }

    /** The end of the try block: show the images from the first, then charge one use. */
    method CompleteGeneration(images: seq<string>)
      modifies this, auth, auth.store
      ensures status == Completed && statusTrace == old(statusTrace) + [Completed]
      ensures mediaUrls == Some(images) && selectedIndex == 0
      ensures error == old(error) && promptData == old(promptData)
      ensures input == old(input) && Dialogs() == old(Dialogs())
      ensures AuthContext.UsageCharged(old(auth.user), old(auth.store.entries), auth.user, auth.store.entries)
    {
      mediaUrls := Some(images);
      selectedIndex := 0;
      SetStatus(Completed);
      auth.IncrementUsage();
    }

    /**
     * `triggerGeneration`: a signed-out visitor gets the sign-in dialog, an account at its
     * limit gets the pricing dialog, and in both cases nothing else changes; only an
     * account with generations left runs the pipeline. An account within its daily
     * limit therefore stays within it.
     */
    method TriggerGeneration(enrich: GeminiService.EnrichOutcome, attempts: seq<GeminiService.AttemptOutcome>)
      requires |attempts| == GeminiService.DefaultCount
      modifies this, auth, auth.store
      ensures old(auth.user).None? ==>
        && isAuthOpen && isPricingOpen == old(isPricingOpen)
        && isPaymentOpen == old(isPaymentOpen) && isAdminOpen == old(isAdminOpen)
        && pendingTier == old(pendingTier) && successMsg == old(successMsg)
        && input == old(input) && GenerationUntouched()
      ensures old(auth.user).Some? && !AuthContext.CanGenerate(old(auth.user)) ==>
        && isPricingOpen && isAuthOpen == old(isAuthOpen)
        && isPaymentOpen == old(isPaymentOpen) && isAdminOpen == old(isAdminOpen)
        && pendingTier == old(pendingTier) && successMsg == old(successMsg)
        && input == old(input) && GenerationUntouched()
      ensures AuthContext.CanGenerate(old(auth.user)) ==> GenerationRan(enrich, attempts)
      ensures old(auth.user).Some? && old(auth.user.value.dailyUsage) <= TierLimit(old(auth.user.value.tier)) ==>
        auth.user.Some? && auth.user.value.dailyUsage <= TierLimit(auth.user.value.tier)
    {
      if !auth.IsAuthenticated() {
        isAuthOpen := true;
        return;
      }
      if !AuthContext.CanGenerate(auth.user) {
        isPricingOpen := true;
        return;
      }
      PerformGeneration(enrich, attempts);
    }

    /** `handleTierSelection`: the free tier only closes pricing; a paid tier waits for payment. */
    method HandleTierSelection(tier: SubscriptionTier)
      modifies this
      ensures !isPricingOpen
      ensures tier == Free ==> pendingTier == old(pendingTier) && isPaymentOpen == old(isPaymentOpen)
      ensures tier != Free ==> pendingTier == Some(tier) && isPaymentOpen
      ensures isAuthOpen == old(isAuthOpen) && isAdminOpen == old(isAdminOpen) && successMsg == old(successMsg)
      ensures input == old(input) && status == old(status) && statusTrace == old(statusTrace)
      ensures Screen() == old(Screen())
    {
      if tier == Free {
        isPricingOpen := false;
        return;
      }
      pendingTier := Some(tier);
      isPricingOpen := false;
      isPaymentOpen := true;
    }

    /**
     * `handlePaymentSuccess`: with a tier waiting, upgrades the account to exactly that
     * tier, closes payment, clears the waiting tier and shows the success message; with
     * none, does nothing.
     */
    method HandlePaymentSuccess()
      modifies this, auth, auth.store
      ensures old(pendingTier).None? ==>
        && Dialogs() == old(Dialogs())
        && auth.user == old(auth.user) && auth.store.entries == old(auth.store.entries)
      ensures old(pendingTier).Some? ==>
        var t := old(pendingTier).value;
        && pendingTier == None && !isPaymentOpen
        && successMsg == Some("Successfully upgraded to " + TierName(t) + " Plan!")
        && AuthContext.TierChanged(old(auth.user), old(auth.store.entries), t, auth.user, auth.store.entries)
      ensures isAuthOpen == old(isAuthOpen) && isPricingOpen == old(isPricingOpen) && isAdminOpen == old(isAdminOpen)
      ensures input == old(input) && status == old(status) && statusTrace == old(statusTrace)
      ensures Screen() == old(Screen())
    {
      if pendingTier.Some? {
        var t := pendingTier.value;
        auth.UpgradeTier(t);
        isPaymentOpen := false;
        pendingTier := None;
        successMsg := Some("Successfully upgraded to " + TierName(t) + " Plan!");
      }
    }

    /** The admin button, shown only to the admin account, opens the dashboard. */
    method OpenAdminDashboard()
      modifies this
      ensures isAdminOpen == (old(isAdminOpen) || IsAdmin(auth.user))
      ensures isAuthOpen == old(isAuthOpen) && isPricingOpen == old(isPricingOpen)
      ensures isPaymentOpen == old(isPaymentOpen) && pendingTier == old(pendingTier) && successMsg == old(successMsg)
      ensures input == old(input) && status == old(status) && statusTrace == old(statusTrace)
      ensures Screen() == old(Screen())
    {
      if IsAdmin(auth.user) {
        isAdminOpen := true;
      }
    }
  }

  /**
   * Choosing a paid tier and then paying leaves the signed-in account on that tier
   * with its usage kept, and its allowance is the new tier's limit less that usage.
   */
  method UpgradeFlow(app: App, tier: SubscriptionTier)
    requires tier != Free && app.auth.user.Some?
    modifies app, app.auth, app.auth.store
    ensures app.auth.user.Some? && app.auth.user.value.tier == tier
    ensures app.auth.user.value.dailyUsage == old(app.auth.user.value.dailyUsage)
    ensures AuthContext.RemainingGenerations(app.auth.user)
            == AuthContext.Max0(TierLimit(tier) - old(app.auth.user.value.dailyUsage))
    ensures app.pendingTier == None && !app.isPaymentOpen && !app.isPricingOpen
  {
    app.HandleTierSelection(tier);
    app.HandlePaymentSuccess();
  }

  /**
   * A signed-in Free account with no usage today submits a request that yields images:
   * the images are shown and the account is charged exactly one use, under both keys,
   * which is its whole daily allowance. A second request the same day therefore opens
   * the pricing dialog and leaves the images, the status and the account as they were.
   */
  method FreeAccountSecondRequestRejected(app: App, enrich: GeminiService.EnrichOutcome,
                                          attempts: seq<GeminiService.AttemptOutcome>)
    requires |attempts| == GeminiService.DefaultCount
    requires app.auth.user.Some? && app.auth.user.value.tier == Free && app.auth.user.value.dailyUsage == 0
    requires Trim(app.input) != [] && GenerationOutcome(enrich, attempts).Success?
    modifies app, app.auth, app.auth.store
    ensures var u := AuthContext.WithOneMoreUse(old(app.auth.user.value));
      && u.dailyUsage == 1
      && app.auth.user == Some(u)
      && app.auth.store.entries == AuthContext.WrittenUnderBothKeys(old(app.auth.store.entries), u)
    ensures !AuthContext.CanGenerate(app.auth.user)
    ensures app.status == Completed && app.isPricingOpen
    ensures app.Screen() == (Some(GenerationOutcome(enrich, attempts).value.1), 0, None,
                             Some(GenerationOutcome(enrich, attempts).value.0))
  {
    app.TriggerGeneration(enrich, attempts);
    app.TriggerGeneration(enrich, attempts);
  }
}
