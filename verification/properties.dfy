/**
 * Properties of the main view model: the outcomes and call order of
 * initialization, the guards of initialization and posting, round trips of the
 * reply context and the attachment list, and an invariant that every state
 * reachable from a fresh view model keeps.
 */
module MainViewModelProperties {
  import opened Optional
  import opened Domain
  import opened MainViewModel
  import EmbedList

  // ---------------------------------------------------------------------------
  // initialization order
  // ---------------------------------------------------------------------------

  /**
   * The position of an event in the fixed initialization order, counted from 1:
   * profile fetch, profile stored, preference read, polling started, settings
   * watcher started, user posts loaded, notifications loaded, marked
   * initialized. Other events have position 0, meaning none.
   */
  function InitRank(e: Effect): nat {
    match e
    case GetProfile => 1
    case ProfileLoaded(_) => 2
    case ReadPollingPreference => 3
    case StartBackgroundPolling => 4
    case StartSettingsWatcher => 5
    case LoadUserPostsIfNeeded => 6
    case LoadNotificationsIfNeeded => 7
    case Publish(ui) => if ui.isInitialized then 8 else 0
    case _ => 0
  }

  /** Events of `t` that have a position occur in strictly increasing position. */
  predicate InitOrdered(t: seq<Effect>) {
    forall i, j :: 0 <= i < j < |t| && 0 < InitRank(t[i]) && 0 < InitRank(t[j]) ==>
      InitRank(t[i]) < InitRank(t[j])
  }

  /** Every event of `t` that has a position has one in `lo..hi`. */
  predicate RanksWithin(t: seq<Effect>, lo: nat, hi: nat) {
    forall i :: 0 <= i < |t| && 0 < InitRank(t[i]) ==> lo <= InitRank(t[i]) <= hi
  }

  /** Two ordered traces, the first's positions all below the second's, concatenate to an ordered trace. */
  lemma OrderedConcat(a: seq<Effect>, b: seq<Effect>, k: nat)
    requires InitOrdered(a) && InitOrdered(b)
    requires RanksWithin(a, 1, k) && RanksWithin(b, k + 1, 8)
    ensures InitOrdered(a + b) && RanksWithin(a + b, 1, 8)
  {
    forall i, j | 0 <= i < j < |a + b| && 0 < InitRank((a + b)[i]) && 0 < InitRank((a + b)[j])
      ensures InitRank((a + b)[i]) < InitRank((a + b)[j])
    {
      if j < |a| {
        assert (a + b)[i] == a[i] && (a + b)[j] == a[j];
      } else if i >= |a| {
        assert (a + b)[i] == b[i - |a|] && (a + b)[j] == b[j - |a|];
      } else {
        assert (a + b)[i] == a[i] && (a + b)[j] == b[j - |a|];
      }
    }
  }

  /** The position of the call made at stage `s`. */
  function StageRank(s: Stage): nat {
    match s
    case AtGetProfile => 1
    case AtReadPreference => 3
    case AtStartPolling => 4
    case AtStartWatcher => 5
    case AtLoadUserPosts => 6
    case AtLoadNotifications => 7
  }

  /** A plan whose stages come in increasing position, all after the stored profile. */
  predicate AscendingAfterProfile(plan: seq<Stage>) {
    && (forall i, j :: 0 <= i < j < |plan| ==> StageRank(plan[i]) < StageRank(plan[j]))
    && (forall i :: 0 <= i < |plan| ==> 3 <= StageRank(plan[i]) <= 7)
  }

  lemma ChildPlanAscending(preference: Option<bool>)
    ensures AscendingAfterProfile(ChildPlan(preference))
  {
    if PollingEnabled(preference) {
      assert ChildPlan(preference) == [AtReadPreference, AtStartPolling, AtStartWatcher, AtLoadUserPosts, AtLoadNotifications];
    } else {
      assert ChildPlan(preference) == [AtReadPreference, AtStartWatcher, AtLoadUserPosts, AtLoadNotifications];
    }
  }

  /** The event recorded for a stage has that stage's position in the initialization order. */
  lemma StageCallRank(s: Stage)
    ensures InitRank(StageCall(s)) == StageRank(s)
  {
    match s
    case AtGetProfile =>
    case AtReadPreference =>
    case AtStartPolling =>
    case AtStartWatcher =>
    case AtLoadUserPosts =>
    case AtLoadNotifications =>
  }

  /** The calls recorded by running a plan carry the positions of its stages. */
  lemma StageCallRanks(plan: seq<Stage>, failure: Option<Failure>)
    ensures var es := RunStages(plan, failure).effects;
            && |es| <= |plan|
            && forall i :: 0 <= i < |es| ==> InitRank(es[i]) == StageRank(plan[i])
  {
    var r := RunStages(plan, failure);
    forall i | 0 <= i < |r.effects| ensures InitRank(r.effects[i]) == StageRank(plan[i]) {
      StageCallRank(plan[i]);
    }
  }

  /** Events that follow an ascending plan call for call are ordered, with positions among the later calls. */
  lemma RanksFollowPlan(es: seq<Effect>, plan: seq<Stage>)
    requires AscendingAfterProfile(plan)
    requires |es| <= |plan|
    requires forall i :: 0 <= i < |es| ==> InitRank(es[i]) == StageRank(plan[i])
    ensures InitOrdered(es) && RanksWithin(es, 3, 7)
  {
  }

  /** Running an ascending plan records its calls in that order, whether or not one throws. */
  lemma StageCallsOrdered(plan: seq<Stage>, failure: Option<Failure>)
    requires AscendingAfterProfile(plan)
    ensures var es := RunStages(plan, failure).effects;
            InitOrdered(es) && RanksWithin(es, 3, 7)
  {
    StageCallRanks(plan, failure);
    RanksFollowPlan(RunStages(plan, failure).effects, plan);
  }

  /** The publication that opens every launched initialization body. */
  function Opening(ui: UiState): UiState {
    ui.(isLoading := true, errorMessage := None)
  }

  /**
   * The shape of the trace when the body stops at the profile fetch: the
   * opening publication and fetch, then the closing publication and the logout
   * request.
   */
  lemma EarlyExitTrace(vm: ViewModel, input: InitInputs)
    requires !vm.ui.isInitialized
    requires !ProfileCallReturns(input) || input.profile.ProfileError?
    ensures var r := RunInitialize(vm, input);
            && !r.vm.ui.isInitialized
            && r.trace == [Publish(Opening(vm.ui)), GetProfile, Publish(r.vm.ui), LogoutRequested]
  {
  }

  /**
   * The shape of the trace once the profile has been fetched: the opening
   * publication and fetch, the stored profile, the later calls up to any that
   * throws, then the closing publication and, unless initialization completed,
   * the logout request.
   */
  lemma ProfileLoadedTrace(vm: ViewModel, input: InitInputs)
    requires !vm.ui.isInitialized
    requires ProfileCallReturns(input) && input.profile.ProfileSuccess?
    ensures var r := RunInitialize(vm, input);
            var stages := RunStages(ChildPlan(input.pollingPreference), input.failure);
            && (r.vm.ui.isInitialized <==> stages.Completed?)
            && r.trace == [Publish(Opening(vm.ui)), GetProfile, ProfileLoaded(input.profile.profile)]
                          + stages.effects
                          + [Publish(r.vm.ui)]
                          + (if stages.Completed? then [] else [LogoutRequested])
  {
    var p := input.profile.profile;
    var stages := RunStages(ChildPlan(input.pollingPreference), input.failure);
    var loaded := vm.(ui := Opening(vm.ui), profile := Some(p));
    var soFar := [Publish(Opening(vm.ui)), GetProfile] + [ProfileLoaded(p)];
    assert soFar == [Publish(Opening(vm.ui)), GetProfile, ProfileLoaded(p)];
    assert RunInitialize(vm, input) == FinishInitialize(loaded, soFar, stages);
    FinishShape(loaded, soFar, stages);
  }

  /**
   * The rest of the body marks the view model initialized exactly when the
   * later calls complete; its trace is the calls made, one publication, and a
   * logout request when a call threw.
   */
  lemma FinishShape(loaded: ViewModel, soFar: seq<Effect>, stages: StagesOutcome)
    requires !loaded.ui.isInitialized
    ensures var r := FinishInitialize(loaded, soFar, stages);
            && (r.vm.ui.isInitialized <==> stages.Completed?)
            && r.trace == soFar + stages.effects + [Publish(r.vm.ui)]
                          + (if stages.Completed? then [] else [LogoutRequested])
  {
  }

  /** The calls of a whole plan, in order. */
  function Calls(plan: seq<Stage>): (r: seq<Effect>)
    ensures |r| == |plan|
    ensures forall i :: 0 <= i < |plan| ==> r[i] == StageCall(plan[i])
  {
    if |plan| == 0 then [] else [StageCall(plan[0])] + Calls(plan[1..])
  }

  /** With no call of the plan throwing, every call of the plan is made. */
  lemma CallsOfCompletedRun(plan: seq<Stage>, failure: Option<Failure>)
    requires !(failure.Some? && failure.value.at in plan)
    ensures RunStages(plan, failure) == Completed(Calls(plan))
  {
    if |plan| > 0 {
      assert plan[0] in plan;
      assert forall s :: s in plan[1..] ==> s in plan;
      CallsOfCompletedRun(plan[1..], failure);
    }
  }

  /** The trace of a body that stops at the profile fetch is ordered. */
  lemma EarlyExitOrdered(a: UiState, u: UiState)
    requires !a.isInitialized && !u.isInitialized
    ensures InitOrdered([Publish(a), GetProfile, Publish(u), LogoutRequested])
  {
  }

  /** The trace of a body that got past the profile fetch is ordered, whether or not a later call threw. */
  lemma ProfileLoadedOrdered(a: UiState, p: ProfileDetail, es: seq<Effect>, u: UiState, completed: bool)
    requires !a.isInitialized && u.isInitialized == completed
    requires InitOrdered(es) && RanksWithin(es, 3, 7)
    ensures InitOrdered([Publish(a), GetProfile, ProfileLoaded(p)] + es + [Publish(u)]
                        + (if completed then [] else [LogoutRequested]))
  {
    var head := [Publish(a), GetProfile, ProfileLoaded(p)];
    assert InitOrdered(head) && RanksWithin(head, 1, 2);
    OrderedConcat(head, es, 2);
    var closing := [Publish(u)] + (if completed then [] else [LogoutRequested]);
    assert forall i :: 0 <= i < |closing| && 0 < InitRank(closing[i]) ==> i == 0 && InitRank(closing[i]) == 8;
    OrderedConcat(head + es, closing, 7);
    assert head + es + closing == head + es + [Publish(u)] + (if completed then [] else [LogoutRequested]);
  }

  // ---------------------------------------------------------------------------
  // initialization outcomes
  // ---------------------------------------------------------------------------

  /** The events that only the successful profile path produces. */
  predicate IsChildCall(e: Effect) {
    e.ProfileLoaded? || e.ReadPollingPreference? || e.StartBackgroundPolling?
    || e.StartSettingsWatcher? || e.LoadUserPostsIfNeeded? || e.LoadNotificationsIfNeeded?
  }

  /**
   * A profile fetch that returns an error result shows its message, stops
   * loading, asks for a new login and leaves the view model uninitialized and
   * out of flight, without touching polling, the watcher or the child view models.
   */
  lemma InitializeProfileError(vm: ViewModel, input: InitInputs)
    requires InitializeAdmits(vm)
    requires ProfileCallReturns(input) && input.profile.ProfileError?
    ensures var r := Initialize(vm, input);
            && r.vm.ui.errorMessage == Some(input.profile.message)
            && !r.vm.ui.isLoading
            && r.vm.requireLogout
            && !r.vm.ui.isInitialized
            && !r.vm.initializing
            && r.vm.profile == vm.profile
            && (forall i :: 0 <= i < |r.trace| ==> !IsChildCall(r.trace[i]))
            && r.trace[|r.trace| - 1] == LogoutRequested
  {
    EarlyExitTrace(vm.(initializing := true), input);
  }

  /** The calls of the child plan, written out. */
  lemma ChildCalls(preference: Option<bool>)
    ensures Calls(ChildPlan(preference))
            == [ReadPollingPreference]
               + (if preference != Some(false) then [StartBackgroundPolling] else [])
               + [StartSettingsWatcher, LoadUserPostsIfNeeded, LoadNotificationsIfNeeded]
  {
    var plan := ChildPlan(preference);
    var es := Calls(plan);
    if preference != Some(false) {
      assert es[0] == ReadPollingPreference && es[1] == StartBackgroundPolling;
      assert es[2] == StartSettingsWatcher && es[3] == LoadUserPostsIfNeeded && es[4] == LoadNotificationsIfNeeded;
    } else {
      assert es[0] == ReadPollingPreference;
      assert es[1] == StartSettingsWatcher && es[2] == LoadUserPostsIfNeeded && es[3] == LoadNotificationsIfNeeded;
    }
  }

  /**
   * A completed initialization ends loaded, initialized and without error,
   * stores the profile, and makes exactly these calls in this order: profile
   * fetch, profile stored, preference read, polling start exactly when the
   * preference is absent or true, settings watcher, user posts, notifications,
   * and last the publication that marks the view model initialized.
   */
  lemma InitializeSucceeds(vm: ViewModel, input: InitInputs)
    requires InitializeAdmits(vm) && InitCompletes(input)
    ensures var r := Initialize(vm, input);
            && r.vm.ui == vm.ui.(isLoading := false, isInitialized := true, errorMessage := None)
            && r.vm.profile == Some(input.profile.profile)
            && r.vm.requireLogout == vm.requireLogout
            && r.trace == [Publish(vm.ui.(isLoading := true, errorMessage := None)), GetProfile,
                           ProfileLoaded(input.profile.profile), ReadPollingPreference]
                          + (if input.pollingPreference != Some(false) then [StartBackgroundPolling] else [])
                          + [StartSettingsWatcher, LoadUserPostsIfNeeded, LoadNotificationsIfNeeded,
                             Publish(r.vm.ui)]
  {
    var launched := vm.(initializing := true);
    var r := RunInitialize(launched, input);
    assert Initialize(vm, input) == r;
    var plan := ChildPlan(input.pollingPreference);
    var head := [Publish(Opening(vm.ui)), GetProfile, ProfileLoaded(input.profile.profile)];
    assert r.trace == head + Calls(plan) + [Publish(r.vm.ui)] by {
      ProfileLoadedTrace(launched, input);
      CallsOfCompletedRun(plan, input.failure);
    }
    ChildCalls(input.pollingPreference);
    SuccessTraceShape(head, Calls(plan), input.pollingPreference != Some(false), r.vm.ui);
  }

  /** Regroups a completed body's trace into the opening events, the later calls and the final publication. */
  lemma SuccessTraceShape(head: seq<Effect>, es: seq<Effect>, polling: bool, u: UiState)
    requires |head| == 3
    requires es == [ReadPollingPreference] + (if polling then [StartBackgroundPolling] else [])
                   + [StartSettingsWatcher, LoadUserPostsIfNeeded, LoadNotificationsIfNeeded]
    ensures head + es + [Publish(u)]
            == [head[0], head[1], head[2], ReadPollingPreference]
               + (if polling then [StartBackgroundPolling] else [])
               + [StartSettingsWatcher, LoadUserPostsIfNeeded, LoadNotificationsIfNeeded, Publish(u)]
  {
    assert head == [head[0], head[1], head[2]];
  }

  /**
   * When a call of initialization throws, loading stops, the exception's
   * message is shown behind a fixed prefix, a new login is asked for, and the
   * view model is left uninitialized and out of flight.
   */
  lemma InitializeThrows(vm: ViewModel, input: InitInputs)
    requires InitializeAdmits(vm) && InitThrows(input)
    ensures var r := Initialize(vm, input);
            && !r.vm.ui.isLoading
            && r.vm.ui.errorMessage == Some(InitFailedPrefix + Rendered(input.failure.value.message))
            && r.vm.requireLogout
            && !r.vm.ui.isInitialized
            && !r.vm.initializing
            && r.trace[|r.trace| - 1] == LogoutRequested
  {
  }

  /** On every path, the calls of initialization follow the fixed order. */
  lemma InitializeEffectsInOrder(vm: ViewModel, input: InitInputs)
    ensures InitOrdered(Initialize(vm, input).trace)
  {
    if InitializeAdmits(vm) {
      var launched := vm.(initializing := true);
      var r := RunInitialize(launched, input);
      if !ProfileCallReturns(input) || input.profile.ProfileError? {
        EarlyExitTrace(launched, input);
        EarlyExitOrdered(Opening(vm.ui), r.vm.ui);
      } else {
        var plan := ChildPlan(input.pollingPreference);
        var stages := RunStages(plan, input.failure);
        ChildPlanAscending(input.pollingPreference);
        StageCallsOrdered(plan, input.failure);
        ProfileLoadedTrace(launched, input);
        ProfileLoadedOrdered(Opening(vm.ui), input.profile.profile, stages.effects, r.vm.ui, stages.Completed?);
      }
    }
  }

  /** After an initialization that did not complete, the guard admits a retry. */
  lemma InitializeRetryAfterFailure(vm: ViewModel, input: InitInputs)
    requires InitializeAdmits(vm) && !InitCompletes(input)
    ensures InitializeAdmits(Initialize(vm, input).vm)
    ensures Initialize(vm, input).vm.requireLogout
  {
  }

  /** After a completed initialization, every further call is a no-op. */
  lemma InitializeOnlyOnce(vm: ViewModel, first: InitInputs, later: InitInputs)
    requires InitializeAdmits(vm) && InitCompletes(first)
    ensures var done := Initialize(vm, first).vm;
            Initialize(done, later) == Step(done, [])
  {
  }

  /** A body that stops at the profile fetch fetches the profile once. */
  lemma OneProfileFetchEarly(a: UiState, u: UiState)
    ensures multiset([Publish(a), GetProfile, Publish(u), LogoutRequested])[GetProfile] == 1
  {
  }

  /** A body that got past the profile fetch fetches the profile once, since no later call has the fetch's position. */
  lemma OneProfileFetchLoaded(a: UiState, p: ProfileDetail, es: seq<Effect>, u: UiState, completed: bool)
    requires RanksWithin(es, 3, 7)
    ensures multiset([Publish(a), GetProfile, ProfileLoaded(p)] + es + [Publish(u)]
                     + (if completed then [] else [LogoutRequested]))[GetProfile] == 1
  {
    assert GetProfile !in es by {
      forall i | 0 <= i < |es| ensures es[i] != GetProfile {
        assert InitRank(GetProfile) == 1;
      }
    }
    assert multiset(es)[GetProfile] == 0;
  }

  /**
   * While a launched initialization is in flight a second call returns at its
   * guard, and the one body fetches the profile exactly once.
   */
  lemma InitializeReentryBlocked(vm: ViewModel, input: InitInputs)
    requires InitializeAdmits(vm)
    ensures BeginInitialize(vm).Some?
    ensures BeginInitialize(BeginInitialize(vm).value).None?
    ensures multiset(RunInitialize(BeginInitialize(vm).value, input).trace)[GetProfile] == 1
  {
    var launched := vm.(initializing := true);
    var r := RunInitialize(launched, input);
    if !ProfileCallReturns(input) || input.profile.ProfileError? {
      EarlyExitTrace(launched, input);
      OneProfileFetchEarly(Opening(vm.ui), r.vm.ui);
    } else {
      var plan := ChildPlan(input.pollingPreference);
      var stages := RunStages(plan, input.failure);
      ChildPlanAscending(input.pollingPreference);
      StageCallsOrdered(plan, input.failure);
      ProfileLoadedTrace(launched, input);
      OneProfileFetchLoaded(Opening(vm.ui), input.profile.profile, stages.effects, r.vm.ui, stages.Completed?);
    }
  }

  // ---------------------------------------------------------------------------
  // posting
  // ---------------------------------------------------------------------------

  /**
   * The guard of `post` reads a flag that only the launched body raises, so two
   * calls made before either body runs both pass it, and both bodies call the
   * repository with the same reply reference. Both calls can arrive first only
   * when the caller is off the main thread, or when the dispatcher queues the
   * body. A main-thread call on the immediate main dispatcher has raised the
   * flag by the time it returns.
   */
  lemma TwoRapidPostsBothReachRepository(vm: ViewModel, t1: string, t2: string,
                                          a1: Option<seq<Embed>>, a2: Option<seq<Embed>>,
                                          o1: PostResult, o2: PostResult)
    requires PostAdmits(vm)
    ensures var first := RunPost(vm, t1, a1, o1);
            var second := RunPost(first.vm, t2, a2, o2);
            && first.trace[1] == PostText(t1, a1, CreateReplyRef(vm.reply))
            && second.trace[1] == PostText(t2, a2, CreateReplyRef(vm.reply))
            && !second.vm.ui.isPosting
  {
  }

  /** A post, whatever its outcome, neither clears the reply context nor the attachments. */
  lemma PostKeepsReplyAndAttachments(vm: ViewModel, text: string, attachments: Option<seq<Embed>>, outcome: PostResult)
    ensures Post(vm, text, attachments, outcome).vm.reply == vm.reply
    ensures Post(vm, text, attachments, outcome).vm.embeds == vm.embeds
  {
  }

  /**
   * Dismissing the error after a failed post gives back the state before the
   * post with its error dismissed: the failed post leaves nothing else behind.
   */
  lemma PostErrorThenClearError(vm: ViewModel, text: string, attachments: Option<seq<Embed>>, m: string)
    requires PostAdmits(vm)
    ensures ClearError(Post(vm, text, attachments, PostError(m)).vm) == ClearError(vm)
  {
  }

  // ---------------------------------------------------------------------------
  // reply context
  // ---------------------------------------------------------------------------

  /** A reply context just set yields a reply reference to exactly that parent and root. */
  lemma SetReplyThenCreateRef(vm: ViewModel, parentRef: StrongRef, rootRef: StrongRef,
                              parentPost: FeedPost, parentAuthor: ProfileView)
    ensures CreateReplyRef(SetReplyContext(vm, parentRef, rootRef, parentPost, parentAuthor).reply)
            == Some(ReplyRef(Some(rootRef), parentRef))
  {
  }

  /** Clearing a reply context just set leaves all four fields null, and no reply reference. */
  lemma SetThenClearReply(vm: ViewModel, parentRef: StrongRef, rootRef: StrongRef,
                          parentPost: FeedPost, parentAuthor: ProfileView)
    ensures var c := ClearReplyContext(SetReplyContext(vm, parentRef, rootRef, parentPost, parentAuthor));
            && c.reply == NoReply
            && c == ClearReplyContext(vm)
            && CreateReplyRef(c.reply).None?
  {
  }

  // ---------------------------------------------------------------------------
  // attachments
  // ---------------------------------------------------------------------------

  /** A found preview changes the attachment list exactly as adding that attachment would. */
  lemma FetchOgImageSuccessIsAddEmbed(vm: ViewModel, url: string, e: Embed)
    ensures FetchOgImage(vm, url, OgImageSuccess(e)).vm
            == AddEmbed(vm, e).(ui := vm.ui.(isFetchingOgImage := false))
  {
  }

  /** A missing or failed preview leaves the attachments and the error message as they were. */
  lemma FetchOgImageFailureIsSilent(vm: ViewModel, url: string, outcome: OgImageResult)
    requires !outcome.OgImageSuccess?
    ensures FetchOgImage(vm, url, outcome).vm.embeds == vm.embeds
    ensures FetchOgImage(vm, url, outcome).vm.ui.errorMessage == vm.ui.errorMessage
  {
  }

  /** Removing an attachment that was just added, and was not there before, restores the state. */
  lemma ClearEmbedUndoesAddEmbed(vm: ViewModel, e: Embed)
    requires e !in vm.embeds
    ensures ClearEmbed(AddEmbed(vm, e), Some(e)) == vm
  {
    EmbedList.RemoveFirstUndoesAppend(vm.embeds, e);
  }

  /** Removing an attachment deletes its first occurrence only, keeping the rest in order. */
  lemma ClearEmbedRemovesFirstOccurrence(vm: ViewModel, e: Embed, i: int)
    requires EmbedList.IsFirstIndex(vm.embeds, e, i)
    ensures ClearEmbed(vm, Some(e)).embeds == vm.embeds[..i] + vm.embeds[i + 1..]
  {
    EmbedList.RemoveFirstDeletesFirstOccurrence(vm.embeds, e, i);
  }

  // ---------------------------------------------------------------------------
  // reachable states
  // ---------------------------------------------------------------------------

  /** One public operation with its arguments and the outcomes of the calls it makes. */
  datatype Op =
    | InitializeOp(input: InitInputs)
    | PostOp(text: string, attachments: Option<seq<Embed>>, outcome: PostResult)
    | FetchOgImageOp(url: string, ogOutcome: OgImageResult)
    | SetReplyContextOp(parentRef: StrongRef, rootRef: StrongRef, parentPost: FeedPost, parentAuthor: ProfileView)
    | ClearReplyContextOp
    | AddEmbedOp(embed: Embed)
    | ClearEmbedOp(target: Option<Embed>)
    | ClearErrorOp

  function Apply(vm: ViewModel, op: Op): Step {
    match op
    case InitializeOp(input) => Initialize(vm, input)
    case PostOp(text, attachments, outcome) => Post(vm, text, attachments, outcome)
    case FetchOgImageOp(url, outcome) => FetchOgImage(vm, url, outcome)
    case SetReplyContextOp(p, r, post, author) => Step(SetReplyContext(vm, p, r, post, author), [])
    case ClearReplyContextOp => Step(ClearReplyContext(vm), [])
    case AddEmbedOp(e) => Step(AddEmbed(vm, e), [])
    case ClearEmbedOp(target) => Step(ClearEmbed(vm, target), [])
    case ClearErrorOp => Step(ClearError(vm), [])
  }

  /** Runs the operations one after another, concatenating their traces. */
  function RunAll(vm: ViewModel, ops: seq<Op>): Step
    decreases |ops|
  {
    if |ops| == 0 then Step(vm, [])
    else
      var first := Apply(vm, ops[0]);
      var rest := RunAll(first.vm, ops[1..]);
      Step(rest.vm, first.trace + rest.trace)
  }

  /** The reply fields are all set or all null. */
  predicate ReplyWellFormed(c: ReplyContext) {
    && c.rootPostRecord.Some? == c.parentPostRecord.Some?
    && c.parentPost.Some? == c.parentPostRecord.Some?
    && c.parentAuthor.Some? == c.parentPostRecord.Some?
  }

  /**
   * What holds between operations when each launched body runs to its end:
   * no flag of an in-flight operation is up, the reply fields agree, and an
   * initialized view model has a profile.
   */
  predicate Settled(vm: ViewModel) {
    && ReplyWellFormed(vm.reply)
    && !vm.initializing
    && !vm.ui.isLoading
    && !vm.ui.isPosting
    && !vm.ui.isFetchingOgImage
    && (vm.ui.isInitialized ==> vm.profile.Some?)
  }

  /** Every operation keeps a settled view model settled, and never withdraws a logout request. */
  lemma ApplyPreservesSettled(vm: ViewModel, op: Op)
    requires Settled(vm)
    ensures Settled(Apply(vm, op).vm)
    ensures vm.requireLogout ==> Apply(vm, op).vm.requireLogout
  {
    match op
    case InitializeOp(input) =>
      if InitializeAdmits(vm) && InitCompletes(input) {
        InitializeSucceeds(vm, input);
      }
    case _ =>
  }

  /** Any run of operations from a settled view model ends settled, and never withdraws a logout request. */
  lemma {:induction false} ReachableIsSettled(vm: ViewModel, ops: seq<Op>)
    requires Settled(vm)
    ensures Settled(RunAll(vm, ops).vm)
    ensures vm.requireLogout ==> RunAll(vm, ops).vm.requireLogout
    decreases |ops|
  {
    if |ops| > 0 {
      ApplyPreservesSettled(vm, ops[0]);
      ReachableIsSettled(Apply(vm, ops[0]).vm, ops[1..]);
    }
  }

  /** In a settled view model, a reply reference always carries its root. */
  lemma SettledReplyRefHasRoot(vm: ViewModel)
    requires Settled(vm)
    ensures CreateReplyRef(vm.reply).Some? ==> CreateReplyRef(vm.reply).value.root.Some?
  {
  }

  /** Every state reachable from a fresh view model is settled, and a reply reference built in it carries its root. */
  lemma {:induction false} FreshRunsStaySettled(ops: seq<Op>)
    ensures Settled(RunAll(Fresh, ops).vm)
    ensures var c := RunAll(Fresh, ops).vm.reply;
            CreateReplyRef(c).Some? ==> CreateReplyRef(c).value.root.Some?
  {
    ReachableIsSettled(Fresh, ops);
    SettledReplyRefHasRoot(RunAll(Fresh, ops).vm);
  }
}
