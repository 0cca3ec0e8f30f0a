/**
 * The values the main view model of the SkyPutter client holds and exchanges
 * with its collaborators: the UI state record, the reply context, the pending
 * attachments, the repository's result variants and the trace of calls into the
 * repository, the settings store and the child view models.
 *
 * The network SDK's records are reduced to an identity each; nothing in the view
 * model looks inside them.
 */
module Domain {
  import opened Optional

  /** A strong reference to one version of a record: its URI and content hash. */
  datatype StrongRef = StrongRef(uri: string, cid: string)

  /** A post record of the SDK (`FeedPost`). */
  datatype FeedPost = FeedPost(uri: string)

  /** A short profile view of the SDK (`ActorDefsProfileView`), the author replied to. */
  datatype ProfileView = ProfileView(did: string)

  /** A detailed profile view of the SDK (`ActorDefsProfileViewDetailed`), the signed-in user. */
  datatype ProfileDetail = ProfileDetail(did: string)

  /**
   * A pending attachment (`AttachedEmbed`). Its fields are never read here, and
   * `==` stands for whatever `equals` the attachment class defines, which is
   * what list removal compares by.
   */
  type Embed(==)

  /** The aggregate UI flags, replaced as a whole on every transition. */
  datatype UiState = UiState(
    isLoading: bool,
    isPosting: bool,
    isFetchingOgImage: bool,
    errorMessage: Option<string>,
    isInitialized: bool)

  /** Every flag false and no error message: the constructor defaults. */
  const DefaultUiState := UiState(false, false, false, None, false)

  /** The four fields that anchor a reply, each of which may be null. */
  datatype ReplyContext = ReplyContext(
    parentPostRecord: Option<StrongRef>,
    rootPostRecord: Option<StrongRef>,
    parentPost: Option<FeedPost>,
    parentAuthor: Option<ProfileView>)

  /** The reply context with all four fields null. */
  const NoReply := ReplyContext(None, None, None, None)

  /** The reply reference handed to the repository (`FeedPostReplyRef`); its root is nullable. */
  datatype ReplyRef = ReplyRef(root: Option<StrongRef>, parent: StrongRef)

  /** Outcome of the repository's profile fetch. */
  datatype ProfileResult = ProfileSuccess(profile: ProfileDetail) | ProfileError(message: string)

  /** Outcome of the repository's post creation. */
  datatype PostResult = PostSuccess | PostError(message: string)

  /** Outcome of the repository's link-preview image fetch. */
  datatype OgImageResult = OgImageSuccess(embed: Embed) | OgImageError(message: string) | OgImageNotFound

  /** The calls made inside the guarded part of initialization, any of which may throw. */
  datatype Stage =
    | AtGetProfile
    | AtReadPreference
    | AtStartPolling
    | AtStartWatcher
    | AtLoadUserPosts
    | AtLoadNotifications

  /** An exception thrown by the call at `at`, with its (nullable) message. */
  datatype Failure = Failure(at: Stage, message: Option<string>)

  /**
   * Everything initialization learns from the outside world: the profile fetch's
   * result, the persisted polling preference (absent on first run) and, when one
   * of the calls throws, which one and with what message.
   */
  datatype InitInputs = InitInputs(
    profile: ProfileResult,
    pollingPreference: Option<bool>,
    failure: Option<Failure>)

  /**
   * One observable event: a write of the UI state or of the profile or logout
   * signal, a call into the repository or settings store, a call into a child
   * view model, or the caller's success callback.
   */
  datatype Effect =
    | Publish(ui: UiState)
    | GetProfile
    | ProfileLoaded(profile: ProfileDetail)
    | ReadPollingPreference
    | StartBackgroundPolling
    | StartSettingsWatcher
    | LoadUserPostsIfNeeded
    | LoadNotificationsIfNeeded
    | LogoutRequested
    | PostText(text: string, attachments: Option<seq<Embed>>, replyRef: Option<ReplyRef>)
    | OnSuccessInvoked
    | FetchOgImageEmbed(url: string)
}
