/**
 * The state transitions of the main view model of the SkyPutter client.
 *
 * The view model is an immutable record; every public operation is a pure
 * function from the current record and the outcome of the calls it makes to the
 * next record and the trace of those calls. Each body the source launches as a
 * coroutine runs here as one atomic step. The synchronous guard in front of a
 * launched body is kept apart where that matters (`BeginInitialize`,
 * `PostAdmits`), so the effect of two calls arriving before either body has run
 * can be stated.
 */
module MainViewModel {
  import opened Optional
  import opened Domain
  import EmbedList

  /** All mutable state of the view model that its operations read or write. */
  datatype ViewModel = ViewModel(
    ui: UiState,
    profile: Option<ProfileDetail>,
    reply: ReplyContext,
    embeds: seq<Embed>,
    requireLogout: bool,
    initializing: bool)

  /** A freshly constructed view model. */
  const Fresh := ViewModel(DefaultUiState, None, NoReply, [], false, false)

  /** The state after an operation, and the events it produced in order. */
  datatype Step = Step(vm: ViewModel, trace: seq<Effect>)

  // ---------------------------------------------------------------------------
  // initialize
  // ---------------------------------------------------------------------------

  /** The guard of `initialize`: neither finished nor already in flight. */
  predicate InitializeAdmits(vm: ViewModel) {
    !vm.ui.isInitialized && !vm.initializing
  }

  /**
   * The synchronous part of `initialize`: `None` when the guard returns early,
   * otherwise the state in which the body is launched, with the in-flight flag
   * raised before any asynchronous work.
   */
  function BeginInitialize(vm: ViewModel): (r: Option<ViewModel>)
    ensures r.None? <==> vm.ui.isInitialized || vm.initializing
    ensures r.Some? ==> r.value.initializing && r.value.(initializing := false) == vm
  {
    if vm.ui.isInitialized || vm.initializing then None
    else Some(vm.(initializing := true))
  }

  /** The persisted preference, defaulting to enabled when it has never been written. */
  function PollingEnabled(preference: Option<bool>): bool {
    preference.OrElse(true)
  }

  /** The calls made after the profile is loaded, in program order. */
  function ChildPlan(preference: Option<bool>): seq<Stage> {
    if PollingEnabled(preference) then
      [AtReadPreference, AtStartPolling, AtStartWatcher, AtLoadUserPosts, AtLoadNotifications]
    else
      [AtReadPreference, AtStartWatcher, AtLoadUserPosts, AtLoadNotifications]
  }

  /** The event recorded when the call at stage `s` is made. */
  function StageCall(s: Stage): Effect {
    match s
    case AtGetProfile => GetProfile
    case AtReadPreference => ReadPollingPreference
    case AtStartPolling => StartBackgroundPolling
    case AtStartWatcher => StartSettingsWatcher
    case AtLoadUserPosts => LoadUserPostsIfNeeded
    case AtLoadNotifications => LoadNotificationsIfNeeded
  }

  /** Running a list of calls either completes or stops at the call that throws. */
  datatype StagesOutcome =
    | Completed(effects: seq<Effect>)
    | Threw(effects: seq<Effect>, message: Option<string>)

  /**
   * Makes the calls of `plan` in order. The call named by `failure` throws: it
   * is recorded, and nothing after it is made.
   */
  function RunStages(plan: seq<Stage>, failure: Option<Failure>): (r: StagesOutcome)
    ensures r.Threw? <==> failure.Some? && failure.value.at in plan
    ensures r.Completed? ==> |r.effects| == |plan|
    ensures r.Threw? ==>
              && 0 < |r.effects| <= |plan|
              && plan[|r.effects| - 1] == failure.value.at
              && r.message == failure.value.message
    ensures forall i :: 0 <= i < |r.effects| ==> r.effects[i] == StageCall(plan[i])
  {
    if |plan| == 0 then Completed([])
    else if failure.Some? && failure.value.at == plan[0] then
      Threw([StageCall(plan[0])], failure.value.message)
    else
      assert failure.Some? && failure.value.at in plan ==> failure.value.at in plan[1..] by {
        if failure.Some? && failure.value.at in plan {
          var k :| 0 <= k < |plan| && plan[k] == failure.value.at;
          assert plan[1..][k - 1] == plan[k];
        }
      }
      match RunStages(plan[1..], failure)
      case Completed(es) => Completed([StageCall(plan[0])] + es)
      case Threw(es, m) => Threw([StageCall(plan[0])] + es, m)
  }

  /** The fixed prefix of the message shown when initialization throws ("initialization failed: "). */
  const InitFailedPrefix := "初期化に失敗しました: "

  /** How a string template renders a nullable message. */
  function Rendered(message: Option<string>): string {
    match message
    case Some(m) => m
    case None => "null"
  }

  /** The profile fetch returns normally (whether with success or an error result). */
  predicate ProfileCallReturns(input: InitInputs) {
    !(input.failure.Some? && input.failure.value.at == AtGetProfile)
  }

  /** Some call of initialization throws, and it is one that is actually made. */
  predicate InitThrows(input: InitInputs) {
    input.failure.Some?
    && (input.failure.value.at == AtGetProfile
        || (input.profile.ProfileSuccess? && input.failure.value.at in ChildPlan(input.pollingPreference)))
  }

  /** Initialization runs to its end. */
  predicate InitCompletes(input: InitInputs) {
    input.profile.ProfileSuccess? && !InitThrows(input)
  }

  /** The catch handler: clear loading, show the exception, and ask for a new login. */
  function Recover(vm: ViewModel, trace: seq<Effect>, message: Option<string>): (r: Step)
    ensures r.vm.ui == vm.ui.(isLoading := false, errorMessage := Some(InitFailedPrefix + Rendered(message)))
    ensures r.vm.requireLogout && !r.vm.initializing
    ensures r.vm.(ui := vm.ui, requireLogout := vm.requireLogout, initializing := vm.initializing) == vm
    ensures r.trace == trace + [Publish(r.vm.ui), LogoutRequested]
  {
    var ui := vm.ui.(isLoading := false, errorMessage := Some(InitFailedPrefix + Rendered(message)));
    Step(vm.(ui := ui, requireLogout := true, initializing := false), trace + [Publish(ui), LogoutRequested])
  }

  /**
   * The rest of the body once the profile is stored: the later calls' outcome
   * decides between marking the view model initialized and the catch handler.
   */
  function FinishInitialize(loaded: ViewModel, soFar: seq<Effect>, stages: StagesOutcome): Step {
    match stages
    case Threw(es, m) => Recover(loaded, soFar + es, m)
    case Completed(es) =>
      var ui := loaded.ui.(isLoading := false, isInitialized := true, errorMessage := None);
      Step(loaded.(ui := ui, initializing := false), soFar + es + [Publish(ui)])
  }

  /** The body `initialize` launches, run to its end against the given outcomes. */
  function RunInitialize(vm: ViewModel, input: InitInputs): Step {
    var loading := vm.ui.(isLoading := true, errorMessage := None);
    var started := vm.(ui := loading);
    var opening := [Publish(loading), GetProfile];
    if !ProfileCallReturns(input) then
      Recover(started, opening, input.failure.value.message)
    else
      match input.profile
      case ProfileError(m) =>
        var ui := loading.(errorMessage := Some(m), isLoading := false);
        Step(started.(ui := ui, requireLogout := true, initializing := false),
             opening + [Publish(ui), LogoutRequested])
      case ProfileSuccess(p) =>
        FinishInitialize(started.(profile := Some(p)), opening + [ProfileLoaded(p)],
                         RunStages(ChildPlan(input.pollingPreference), input.failure))
  }

  /**
   * `initialize`: the guard, then the launched body. A blocked call changes
   * nothing; an admitted one always ends out of flight and not loading, and
   * touches neither the reply context, the attachments nor the posting and
   * preview flags.
   */
  function Initialize(vm: ViewModel, input: InitInputs): (r: Step)
    ensures !InitializeAdmits(vm) ==> r == Step(vm, [])
    ensures InitializeAdmits(vm) ==>
              && !r.vm.initializing
              && !r.vm.ui.isLoading
              && r.vm.reply == vm.reply
              && r.vm.embeds == vm.embeds
              && r.vm.ui.isPosting == vm.ui.isPosting
              && r.vm.ui.isFetchingOgImage == vm.ui.isFetchingOgImage
              && (r.vm.ui.isInitialized <==> InitCompletes(input))
              && (r.vm.requireLogout <==> vm.requireLogout || !InitCompletes(input))
              && (r.vm.ui.errorMessage.None? <==> InitCompletes(input))
              && 2 <= |r.trace|
              && r.trace[0] == Publish(vm.ui.(isLoading := true, errorMessage := None))
              && r.trace[1] == GetProfile
  {
    match BeginInitialize(vm)
    case None => Step(vm, [])
    case Some(launched) =>
      RunInitialize(launched, input)
  }

  // ---------------------------------------------------------------------------
  // reply context and post
  // ---------------------------------------------------------------------------

  /** The reply reference built from the reply context: none when there is no parent. */
  function CreateReplyRef(c: ReplyContext): (r: Option<ReplyRef>)
    ensures r.None? <==> c.parentPostRecord.None?
    ensures r.Some? ==> r.value.parent == c.parentPostRecord.value && r.value.root == c.rootPostRecord
  {
    match c.parentPostRecord
    case None => None
    case Some(parent) => Some(ReplyRef(c.rootPostRecord, parent))
  }

  /** Replaces all four reply fields; nothing else changes. */
  function SetReplyContext(vm: ViewModel, parentRef: StrongRef, rootRef: StrongRef,
                           parentPost: FeedPost, parentAuthor: ProfileView): (r: ViewModel)
    ensures r.reply.parentPostRecord == Some(parentRef) && r.reply.rootPostRecord == Some(rootRef)
    ensures r.reply.parentPost == Some(parentPost) && r.reply.parentAuthor == Some(parentAuthor)
    ensures r.(reply := vm.reply) == vm
  {
    vm.(reply := ReplyContext(Some(parentRef), Some(rootRef), Some(parentPost), Some(parentAuthor)))
  }

  /** Sets all four reply fields to null; nothing else changes. */
  function ClearReplyContext(vm: ViewModel): (r: ViewModel)
    ensures r.reply.parentPostRecord.None? && r.reply.rootPostRecord.None?
    ensures r.reply.parentPost.None? && r.reply.parentAuthor.None?
    ensures r.(reply := vm.reply) == vm
  {
    vm.(reply := NoReply)
  }

  /**
   * The guard of `post`. It reads a flag that only the launched body raises, so
   * it does not exclude a second call made before the first body has run. On
   * the view model's main-thread dispatcher, a call from the main thread runs
   * the body up to the repository call first, so that window only opens for a
   * caller off the main thread or under a dispatcher that queues the body.
   */
  predicate PostAdmits(vm: ViewModel) {
    !vm.ui.isPosting
  }

  /** The body `post` launches, run to its end against the repository's result. */
  function RunPost(vm: ViewModel, text: string, attachments: Option<seq<Embed>>, outcome: PostResult): Step {
    var posting := vm.ui.(isPosting := true, errorMessage := None);
    var call := PostText(text, attachments, CreateReplyRef(vm.reply));
    match outcome
    case PostSuccess =>
      var ui := posting.(isPosting := false);
      Step(vm.(ui := ui), [Publish(posting), call, Publish(ui), OnSuccessInvoked])
    case PostError(m) =>
      var ui := posting.(isPosting := false, errorMessage := Some(m));
      Step(vm.(ui := ui), [Publish(posting), call, Publish(ui)])
  }

  /**
   * `post`: a no-op while posting; otherwise the posting flag is published,
   * the repository is called once with the current reply reference, the final
   * state is published, and only then, on success, the callback runs. Only the
   * posting flag and the error message change.
   */
  function Post(vm: ViewModel, text: string, attachments: Option<seq<Embed>>, outcome: PostResult): (r: Step)
    ensures !PostAdmits(vm) ==> r == Step(vm, [])
    ensures PostAdmits(vm) ==>
              && !r.vm.ui.isPosting
              && r.vm.(ui := vm.ui) == vm
              && r.vm.ui.(errorMessage := vm.ui.errorMessage) == vm.ui
              && r.vm.ui.errorMessage == (if outcome.PostError? then Some(outcome.message) else None)
              && r.trace == [Publish(vm.ui.(isPosting := true, errorMessage := None)),
                             PostText(text, attachments, CreateReplyRef(vm.reply)),
                             Publish(r.vm.ui)]
                            + (if outcome.PostSuccess? then [OnSuccessInvoked] else [])
  {
    if !PostAdmits(vm) then Step(vm, []) else RunPost(vm, text, attachments, outcome)
  }

  // ---------------------------------------------------------------------------
  // attachments and error
  // ---------------------------------------------------------------------------

  /** The body `fetchOgImage` launches: a found preview is appended, anything else is ignored. */
  function FetchOgImage(vm: ViewModel, url: string, outcome: OgImageResult): (r: Step)
    ensures !r.vm.ui.isFetchingOgImage
    ensures r.vm.ui.(isFetchingOgImage := vm.ui.isFetchingOgImage) == vm.ui
    ensures outcome.OgImageSuccess? ==> r.vm.embeds == vm.embeds + [outcome.embed]
    ensures !outcome.OgImageSuccess? ==> r.vm.embeds == vm.embeds
    ensures r.vm.(ui := vm.ui, embeds := vm.embeds) == vm
    ensures r.trace == [Publish(vm.ui.(isFetchingOgImage := true)), FetchOgImageEmbed(url), Publish(r.vm.ui)]
  {
    var fetching := vm.ui.(isFetchingOgImage := true);
    var embeds := match outcome
      case OgImageSuccess(e) => vm.embeds + [e]
      case OgImageError(_) => vm.embeds
      case OgImageNotFound => vm.embeds;
    var ui := fetching.(isFetchingOgImage := false);
    Step(vm.(ui := ui, embeds := embeds), [Publish(fetching), FetchOgImageEmbed(url), Publish(ui)])
  }

  /** Appends one attachment at the end; nothing else changes. */
  function AddEmbed(vm: ViewModel, e: Embed): (r: ViewModel)
    ensures |r.embeds| == |vm.embeds| + 1 && r.embeds[|vm.embeds|] == e
    ensures r.embeds[..|vm.embeds|] == vm.embeds
    ensures r.(embeds := vm.embeds) == vm
  {
    vm.(embeds := vm.embeds + [e])
  }

  /**
   * `clearEmbed`: with a target, removes its first occurrence (and nothing when
   * it is absent); without one, empties the list. Nothing else changes.
   */
  function ClearEmbed(vm: ViewModel, target: Option<Embed>): (r: ViewModel)
    ensures target.None? ==> r.embeds == []
    ensures target.Some? && target.value !in vm.embeds ==> r == vm
    ensures target.Some? ==> multiset(r.embeds) == multiset(vm.embeds) - multiset{target.value}
    ensures r.(embeds := vm.embeds) == vm
  {
    match target
    case Some(e) =>
      EmbedList.RemoveFirstContents(vm.embeds, e);
      vm.(embeds := EmbedList.RemoveFirst(vm.embeds, e))
    case None => vm.(embeds := [])
  }

  /** Clears the error message and nothing else. */
  function ClearError(vm: ViewModel): (r: ViewModel)
    ensures r.ui.errorMessage.None?
    ensures r.(ui := r.ui.(errorMessage := vm.ui.errorMessage)) == vm
  {
    vm.(ui := vm.ui.(errorMessage := None))
  }
}
