# SkyPutter main view model, modelled in Dafny

The SkyPutter client's main view model holds the screen's UI flags (loading, posting, fetching a link-preview image, initialized, error message). It also holds the reply context, the pending attachments and a "logout required" signal. It coordinates the start-up of the notification and user-post child view models. This project models that view model's state transitions. The model is an immutable `ViewModel` record. Each public operation is a pure function from the current record, and from the outcomes of the calls the operation makes, to the next record and a trace of `Effect`s. The trace records every UI-state publication, every call into the repository or the settings store, every call into a child view model, every stored profile, every logout request and every success callback, in order.

Each body that the source launches as a coroutine runs here as one atomic step. Where a synchronous guard sits in front of a launched body, the guard is modelled on its own:
- `BeginInitialize` sets the in-flight flag before launching.
- `PostAdmits` reads a flag that only the launched body raises.

This lets the model state what happens when two calls arrive before either body has run.

Files:
- `optional.dfy`: Kotlin's nullable types as `Option`.
- `domain.dfy`: the UI state, the reply context, the attachments, the repository's result variants, the initialization inputs and the effect trace.
- `embed_list.dfy`: removal of the first occurrence of an element, as `MutableList.remove` does.
- `main_view_model.dfy`: the view model and its operations.
- `properties.dfy`: the properties that relate several operations or several calls.

Initialization takes an `InitInputs` value with three parts:
- The profile fetch's result.
- The persisted polling preference. `None` means never written; it is then read as enabled.
- Optionally, the one call that throws, with the exception's nullable message.

A throw takes effect only if that call is actually made. The catch handler renders a null message as `null`, as Kotlin's string template does.

## Model

| member | source | states |
|---|---|---|
| MainViewModel.BeginInitialize | app/src/main/java/com/suibari/skyputter/ui/main/MainViewModel.kt:79-81 | returns early exactly when the view model is already initialized or an initialization is in flight; otherwise it raises the in-flight flag before any asynchronous work and changes nothing else |
| MainViewModel.RunStages | app/src/main/java/com/suibari/skyputter/ui/main/MainViewModel.kt:106-118 | the calls after the profile is loaded are made in program order; the body throws exactly when the failing call is among them; when it throws, that call is the last one recorded and it carries the exception's message |
| MainViewModel.Recover | app/src/main/java/com/suibari/skyputter/ui/main/MainViewModel.kt:127-136 | the catch and finally blocks: loading is cleared, the error is the fixed prefix followed by the exception's message, every other UI field is as before, logout is requested, the in-flight flag is cleared and nothing else changes |
| MainViewModel.Initialize | app/src/main/java/com/suibari/skyputter/ui/main/MainViewModel.kt:77-138 | the guard, then the launched body (`RunInitialize`): a blocked call changes nothing and calls nothing; an admitted one first publishes loading with no error and fetches the profile; it always ends out of flight and not loading; it ends initialized, and without an error, exactly when it completes; logout is requested exactly when it does not complete; reply context, attachments, posting and preview flags are untouched |
| MainViewModel.CreateReplyRef | app/src/main/java/com/suibari/skyputter/ui/main/MainViewModel.kt:215-222 | there is no reply reference exactly when the parent record is null; otherwise its parent and root are the stored parent and root records |
| MainViewModel.SetReplyContext | app/src/main/java/com/suibari/skyputter/ui/main/MainViewModel.kt:185-190 | all four reply fields hold the given values and nothing else changes |
| MainViewModel.ClearReplyContext | app/src/main/java/com/suibari/skyputter/ui/main/MainViewModel.kt:192-197 | all four reply fields are null and nothing else changes |
| MainViewModel.Post | app/src/main/java/com/suibari/skyputter/ui/main/MainViewModel.kt:140-162 | the guard, then the launched body (`RunPost`): a no-op while posting; otherwise posting ends false, the trace is exactly: posting published, one repository call with the current reply reference, final state published, then the success callback on success only; the error message is the result's message on error and null on success, and only the posting flag and error message change |
| MainViewModel.FetchOgImage | app/src/main/java/com/suibari/skyputter/ui/main/MainViewModel.kt:164-183 | the preview flag ends false and no other UI field changes; a found preview is appended at the end; an error or not-found result leaves the attachments and the error message unchanged; the trace is exactly: fetching published, one repository call for the URL, final state published |
| MainViewModel.AddEmbed | app/src/main/java/com/suibari/skyputter/ui/main/MainViewModel.kt:199-201 | the list grows by one; the new element is last and the earlier ones are kept in place; nothing else changes |
| MainViewModel.ClearEmbed | app/src/main/java/com/suibari/skyputter/ui/main/MainViewModel.kt:203-209 | without a target the list is emptied; with an absent target nothing changes; with a target, exactly one copy of it leaves the list's contents; nothing else changes |
| MainViewModel.ClearError | app/src/main/java/com/suibari/skyputter/ui/main/MainViewModel.kt:211-213 | the error message is null and every other field is as before |
| EmbedList.RemoveFirst | app/src/main/java/com/suibari/skyputter/ui/main/MainViewModel.kt:205 | an absent element leaves the list unchanged; a present one shortens it by exactly one |
| EmbedList.RemoveFirstContents | app/src/main/java/com/suibari/skyputter/ui/main/MainViewModel.kt:205 | the contents after removal are the contents before, minus one copy of the element |
| EmbedList.RemoveFirstDeletesFirstOccurrence | app/src/main/java/com/suibari/skyputter/ui/main/MainViewModel.kt:203-206 | removal deletes exactly the first occurrence and keeps every other element in order |
| EmbedList.RemoveFirstUndoesAppend | app/src/main/java/com/suibari/skyputter/ui/main/MainViewModel.kt:199-209 | removing an element just appended, when it was not present before, gives back the original list |
| MainViewModelProperties.InitializeProfileError | app/src/main/java/com/suibari/skyputter/ui/main/MainViewModel.kt:89-102 | a profile error result becomes the error message, loading stops, logout is requested, the view model stays uninitialized and out of flight, and no preference read, polling, watcher or child load happens |
| MainViewModelProperties.InitializeSucceeds | app/src/main/java/com/suibari/skyputter/ui/main/MainViewModel.kt:85-125 | a completed initialization ends loaded, initialized, without error and with the profile stored; its trace is exactly: profile fetch, profile stored, preference read, polling start (exactly when the preference is absent or true), settings watcher, user-post load, notification load, then the initialized publication |
| MainViewModelProperties.InitializeThrows | app/src/main/java/com/suibari/skyputter/ui/main/MainViewModel.kt:127-136 | when a call throws: loading stops, the error is the prefix followed by the rendered message, logout is requested, the view model stays uninitialized and out of flight, and the logout request is the last event |
| MainViewModelProperties.InitializeEffectsInOrder | app/src/main/java/com/suibari/skyputter/ui/main/MainViewModel.kt:83-133 | on every path (blocked, profile error, exception at any call, success), the initialization events occur in the fixed order, with the initialized publication last |
| MainViewModelProperties.InitializeRetryAfterFailure | app/src/main/java/com/suibari/skyputter/ui/main/MainViewModel.kt:79-136 | after an initialization that did not complete, the guard admits a retry, and logout stays requested |
| MainViewModelProperties.InitializeOnlyOnce | app/src/main/java/com/suibari/skyputter/ui/main/MainViewModel.kt:79-125 | once an initialization has completed, every further call changes nothing and calls nothing |
| MainViewModelProperties.InitializeReentryBlocked | app/src/main/java/com/suibari/skyputter/ui/main/MainViewModel.kt:76-89 | while a launched initialization is in flight, a second call returns at the guard; the one body fetches the profile exactly once |
| MainViewModelProperties.TwoRapidPostsBothReachRepository | app/src/main/java/com/suibari/skyputter/ui/main/MainViewModel.kt:141-148 | the post guard reads a flag that only the launched body raises, so two calls made before either body runs both call the repository |
| MainViewModelProperties.PostKeepsReplyAndAttachments | app/src/main/java/com/suibari/skyputter/ui/main/MainViewModel.kt:143-161 | a post of either outcome clears neither the reply context nor the attachments |
| MainViewModelProperties.PostErrorThenClearError | app/src/main/java/com/suibari/skyputter/ui/main/MainViewModel.kt:140-213 | dismissing the error after a failed post gives back the state before the post with its error dismissed, so a failed post leaves nothing else behind |
| MainViewModelProperties.SetReplyThenCreateRef | app/src/main/java/com/suibari/skyputter/ui/main/MainViewModel.kt:185-222 | a reply context just set yields a reply reference whose parent and root are exactly the given records |
| MainViewModelProperties.SetThenClearReply | app/src/main/java/com/suibari/skyputter/ui/main/MainViewModel.kt:185-197 | clearing a reply context just set leaves all four fields null, and then there is no reply reference |
| MainViewModelProperties.FetchOgImageSuccessIsAddEmbed | app/src/main/java/com/suibari/skyputter/ui/main/MainViewModel.kt:164-201 | a found preview changes the attachments exactly as adding that attachment would |
| MainViewModelProperties.FetchOgImageFailureIsSilent | app/src/main/java/com/suibari/skyputter/ui/main/MainViewModel.kt:168-181 | an error or not-found preview leaves the attachments and the error message unchanged |
| MainViewModelProperties.ClearEmbedUndoesAddEmbed | app/src/main/java/com/suibari/skyputter/ui/main/MainViewModel.kt:199-209 | removing an attachment that was just added, and was not present before, restores the whole view model |
| MainViewModelProperties.ClearEmbedRemovesFirstOccurrence | app/src/main/java/com/suibari/skyputter/ui/main/MainViewModel.kt:203-206 | removing an attachment deletes its first occurrence only and keeps the rest in order |
| MainViewModelProperties.ApplyPreservesSettled | app/src/main/java/com/suibari/skyputter/ui/main/MainViewModel.kt:47-213 | every operation keeps a settled view model settled, and none of them withdraws a logout request. Settled means: no in-flight flag up, reply fields all set or all null, and a profile present whenever the view model is initialized |
| MainViewModelProperties.ReachableIsSettled | app/src/main/java/com/suibari/skyputter/ui/main/MainViewModel.kt:47-213 | any sequence of operations keeps a settled view model settled and never withdraws a logout request |
| MainViewModelProperties.SettledReplyRefHasRoot | app/src/main/java/com/suibari/skyputter/ui/main/MainViewModel.kt:185-222 | in a settled view model, any reply reference carries a root |
| MainViewModelProperties.FreshRunsStaySettled | app/src/main/java/com/suibari/skyputter/ui/main/MainViewModel.kt:47-222 | every state reachable from a freshly constructed view model is settled, and any reply reference built in it carries a root |

## Behaviour worth knowing

- **Posting is not exclusive for every caller.** The guard at app/src/main/java/com/suibari/skyputter/ui/main/MainViewModel.kt:141 reads `isPosting`, but only the launched body raises that flag (:144). `viewModelScope` dispatches on the immediate main dispatcher, so a call from the main thread runs the body up to the suspending `repo.postText` (:148) before it returns, and the flag is up before any second main-thread call reaches the guard. A caller off the main thread, or a dispatcher that queues the body, opens the window: two calls made before either body runs both reach the repository. `TwoRapidPostsBothReachRepository` states that case. The model runs each body as one atomic step, so it does not model the immediate dispatch.
- **A successful post clears nothing.** `post` clears neither the reply context nor the attachments (:148-160); `PostKeepsReplyAndAttachments` states this.
- **A logout request does not stop a retry.** This view model never resets `requireLogout`. A failed initialization clears its in-flight flag and leaves the view model uninitialized, so the guard admits a retry. That retry can succeed while `requireLogout` stays true; `InitializeRetryAfterFailure` states this.

## Left out

- Coroutine scheduling, `StateFlow`/`SharedFlow` emission and interleavings: each launched body is one atomic step. Only the guard of `initialize` and the guard of `post` are modelled apart from their bodies.
- Cancellation of the view model's scope: it is not modelled.
- The repository, the network SDK and the notification settings store: they are abstract outcomes. The SDK's records are reduced to an identity each (URI and content hash for a strong reference).
- `ProfileResult`, `PostResult` and `OgImageResult`: defined outside MainViewModel.kt; not modelled beyond their variants. Their error messages are taken to be non-null strings, and the exceptions they carry are dropped.
- `AttachedEmbed`: defined outside MainViewModel.kt; not modelled beyond an abstract type whose `==` stands for the class's own `equals`. Its fields are never read by this view model.
- The child view models (`NotificationViewModel`, `UserPostViewModel`): they appear only as trace events.
- The caller's `onSuccess` callback: it is recorded as an event. Any change it makes to the view model is the caller's, not modelled here.
- An exception thrown by `repo.postText` (:148): the source does not catch it. The model has no such outcome.
- An exception thrown by `repo.fetchOgImageEmbed` (:168): the source does not catch it either. If it throws, `isFetchingOgImage` stays true because :181 never runs, and the exception escapes the coroutine. The model has no such outcome, so `MainViewModelProperties.Settled`, which requires the preview flag to be down, holds only for runs in which the fetch returns.
- Logging (`Log.*`), `getDebugLogSnapshot`, `onNavigatedToNotification` and `navigateToNotification`, the deprecated `getProfile`, and the free-form `postText` field: they hold no state-transition logic.
- `app/src/main/java/com/suibari/skyposter/ui/notification/NotificationListScreen.kt`: Compose rendering. It targets a different package's view model.
- `SkyPosterApp.kt` and `SkyPutterApp.kt`: application start-up wiring, with no logic of their own.
