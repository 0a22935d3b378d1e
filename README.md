# blogAppFrontend: the state logic of a blog front end, in Dafny

This project models the logic of a React/Redux blog front end and proves
properties about it. The network, the browser and the rendering are left
out. The modules are:

- **PostsSlice**: the posts store `{posts, currentPost, loading, error}`.
  It covers the fetch transitions and the like/dislike toggles. A toggle
  updates the first matching entry of `posts` and the current post in place.
- **AuthSlice**: the auth store `{user, isAuthenticated, loading, error}`
  and its four reducers.
- **Carousel**: the slide-index updaters, the jump to a slide, the
  auto-advance tick and the empty-items guard.
- **ApiClient**: how a request is prepared and how its failure is reported.
  This covers reading the stored session, building the request
  configuration (bearer header, optional `user` attachment), turning a
  failure into an `Error` with a normalised message, and the `api.*`
  helpers.
- **Media**: `uploadMedia`: its guards, the multipart form it builds, and
  the rewriting of relative media URLs into absolute preview URLs.
- **Reactions**: `reactToPost` and `removeReaction`: their argument checks
  and payloads.
- **EditPost** and **CreatePost**: the two post dialogs. Each is a class
  over its React state cells. Their effects and handlers are methods; the
  button-enable conditions and the change detection are functions.
- **SignUp**: the rules of `signupSchema`, the registration payload, and
  the ordered steps of `onSubmit`.
- Shared modules:
  - **Js**: JavaScript values, truthiness, `?.`, `||`, `String(v)` and
    object spread.
  - **Text**: `trim`, ASCII case mapping, `startsWith` and the
    first-occurrence `replace`.
  - **Wrappers**: `Option` and `Result`.
  - **Ui**: the parent callbacks a dialog can call.

Inputs the code reads from outside are parameters of the model:

- the `localStorage` entry is `raw: Option<string>`;
- `JSON.parse` is `parse: string -> Option<Value>`, where `None` means it
  threw;
- what the transport answers is a `NetResult`;
- how an awaited call settles is a `Result`.

A React state update is modelled as assigning a field. A handler that sets
several cells is one method whose `ensures` describe the state after the
handler has finished.

## Model

| member | source | states |
|---|---|---|
| PostsSlice.PostsStore.constructor | src/features/posts/postsSlice.js:3-8 | The store starts with no posts, no current post, not loading and a `null` error. |
| PostsSlice.PostsStore.FetchPostsStart | src/features/posts/postsSlice.js:14-17 | Sets `loading` and clears `error`. `posts` and `currentPost` are kept. |
| PostsSlice.PostsStore.FetchPostsSuccess | src/features/posts/postsSlice.js:18-22 | `posts` becomes the payload, `loading` is false and `error` is `null`. `currentPost` is kept. |
| PostsSlice.PostsStore.FetchPostsFailure | src/features/posts/postsSlice.js:23-26 | `loading` is false and `error` is the payload. `posts` and `currentPost` are kept. |
| PostsSlice.PostsStore.SetCurrentPost | src/features/posts/postsSlice.js:27-29 | Only `currentPost` changes. |
| PostsSlice.FindPost | src/features/posts/postsSlice.js:32 | `find` returns the first entry whose id matches. An index is returned only when no earlier entry matches, and `None` only when no entry matches at all. |
| PostsSlice.LikeToggled | src/features/posts/postsSlice.js:35-41 | Afterwards the post is never disliked, a previous dislike costs exactly one dislike, `isLiked` flips and `likes` moves by +1 or -1 with it. The id and all other fields are kept. |
| PostsSlice.DislikeToggled | src/features/posts/postsSlice.js:61-67 | The same with the two sides exchanged. |
| PostsSlice.ToggledInList | src/features/posts/postsSlice.js:31-42 | Only the entry that `find` returns is toggled, and every other entry is kept. Without a match the list is unchanged. |
| PostsSlice.ToggledCurrent | src/features/posts/postsSlice.js:43-54 | The current post is toggled exactly when its id matches, and is otherwise kept. |
| PostsSlice.ToggleThrows | src/features/posts/postsSlice.js:43-45 | The dereference can only throw when there is no current post and the payload is `undefined`. |
| PostsSlice.PostsStore.Toggle | src/features/posts/postsSlice.js:30-81 | The body shared by both toggles. The new `posts` and `currentPost` are the toggled list and the toggled current post. When there is no current post and the payload is `undefined`, the dereference throws and the store is left unchanged. `loading` and `error` are never touched. |
| PostsSlice.PostsStore.ToggleLike | src/features/posts/postsSlice.js:30-55 | `toggleLike`, as `Toggle` with `Like`. |
| PostsSlice.PostsStore.ToggleDislike | src/features/posts/postsSlice.js:56-81 | `toggleDislike`, as `Toggle` with `Dislike`. |
| PostsSlice.ToggledIsExclusive | src/features/posts/postsSlice.js:30-81 | From any state, a toggled post is never both liked and disliked. |
| PostsSlice.ToggledInListKeepsExclusive | src/features/posts/postsSlice.js:31-42 | If no entry of the list is both liked and disliked, none is after a toggle. |
| PostsSlice.LikeToggledAgainstReaction | src/features/posts/postsSlice.js:30-42 | Checked against a reference description: liking turns Liked into Neutral and anything else into Liked. The part of the counts owed to the other users never changes. |
| PostsSlice.DislikeToggledAgainstReaction | src/features/posts/postsSlice.js:56-68 | The same for disliking, with Disliked. |
| PostsSlice.DislikeIsMirroredLike | src/features/posts/postsSlice.js:30-81 | `toggleDislike` equals `toggleLike` on the post with its like and dislike sides exchanged. |
| PostsSlice.LikeTwiceRestores | src/features/posts/postsSlice.js:30-42 | Liking twice a post that is not disliked gives back the same post. |
| PostsSlice.DislikeTwiceRestores | src/features/posts/postsSlice.js:56-68 | Disliking twice a post that is not liked gives back the same post. |
| PostsSlice.LikeTwiceFromDisliked | src/features/posts/postsSlice.js:30-42 | Liking a disliked post twice is not a round trip: the post ends neutral with one dislike fewer. |
| PostsSlice.FindPostSameIds | src/features/posts/postsSlice.js:32 | Two lists with the same ids, position by position, give the same `find` result. |
| PostsSlice.LikeTwiceInListRestores | src/features/posts/postsSlice.js:30-42 | Two `toggleLike`s with the same id give back the list, provided the matching entries are not disliked. |
| PostsSlice.LikeExamples | src/features/posts/postsSlice.js:35-41 | Concrete cases: 5 likes become 6 and then 5 again. A disliked post with 3 dislikes ends with 6 likes, 2 dislikes and liked. |
| AuthSlice.AuthStore.constructor | src/features/auth/authSlice.js:3-8 | The store starts as `initialState` and satisfies the invariant. |
| AuthSlice.AuthStore.AuthStart | src/features/auth/authSlice.js:14-17 | Sets `loading` and clears `error`. `user` and `isAuthenticated` are kept. |
| AuthSlice.AuthStore.AuthFailure | src/features/auth/authSlice.js:18-21 | `loading` is false and `error` is the payload. `user` and `isAuthenticated` are kept. |
| AuthSlice.AuthStore.LoginSuccess | src/features/auth/authSlice.js:22-27 | `user` is the payload and `isAuthenticated` is its truthiness, so `loginSuccess(null)` stays unauthenticated. Loading and the error are cleared, and the invariant holds. |
| AuthSlice.AuthStore.Logout | src/features/auth/authSlice.js:28-33 | The store equals `initialState` again. |
| AuthSlice.AuthStore.Dispatch | src/features/auth/authSlice.js:13-34 | Runs the reducer the action names, with that reducer's effect. The invariant "authenticated implies a truthy user" is kept. |
| AuthSlice.AuthStore.DispatchAll | src/features/auth/authSlice.js:3-33 | A sequence of actions keeps the invariant. A sequence that ends in `logout` ends in `initialState`. |
| AuthSlice.ReachableStoresAreValid | src/features/auth/authSlice.js:3-33 | After any sequence of actions from `initialState`, an authenticated store holds a truthy user. |
| Carousel.NextIndex | src/components/ui/Carousel.jsx:31-34 | From the last slide the next index is 0, from any other it is one more. An index in `[0, n)` stays there. |
| Carousel.PrevIndex | src/components/ui/Carousel.jsx:26-29 | From slide 0 the previous index is `n - 1`, from any other it is one less. An index in `[0, n)` stays there. |
| Carousel.ItemCount | src/components/ui/Carousel.jsx:18-24 | `items.length`, with missing `items` counted as none. |
| Carousel.Renders | src/components/ui/Carousel.jsx:22-24 | The component renders something exactly when `items` is present and non-empty. |
| Carousel.AutoAdvances | src/components/ui/Carousel.jsx:6-14 | The interval is scheduled exactly when there are at least two items. |
| Carousel.RunTicks | src/components/ui/Carousel.jsx:6-24 | From the initial state, with `items` missing or empty nothing moves: the index stays 0 and the direction 1. Otherwise after `k` ticks the index is `k mod n`, always a valid slide. |
| Carousel.UpdatersStayInRange | src/components/ui/Carousel.jsx:26-34 | Both index updaters keep the index in `[0, n)`. |
| Carousel.UpdatersAreModular | src/components/ui/Carousel.jsx:26-34 | Checked against a reference definition: next is `(i + 1) mod n` and previous is `(i - 1 + n) mod n`. |
| Carousel.NextPrevRoundTrip | src/components/ui/Carousel.jsx:26-34 | Next then previous, and previous then next, both come back to the same slide. |
| Carousel.AdvanceIsModular | src/components/ui/Carousel.jsx:9-12 | `k` ticks move `k` slides forward modulo `n`. |
| Carousel.FullCycle | src/components/ui/Carousel.jsx:9-12 | `n` ticks come back to the starting slide. |
| Carousel.NextPastEndNeverWraps | src/components/ui/Carousel.jsx:31-34 | From an index at or past the end, which a shrunken `items` leaves behind, next counts up and never wraps. |
| Carousel.CarouselState.constructor | src/components/ui/Carousel.jsx:19-20 | The index starts at 0 and the direction at 1. |
| Carousel.CarouselState.GoToPrevious | src/components/ui/Carousel.jsx:26-29 | The direction becomes -1 and the index is the previous one. An index in range stays in range. |
| Carousel.CarouselState.GoToNext | src/components/ui/Carousel.jsx:31-34 | The direction becomes 1 and the index is the next one. An index in range stays in range. |
| Carousel.CarouselState.GoToIndex | src/components/ui/Carousel.jsx:36-40 | Nothing changes for the current index. Otherwise the direction is 1 for a later slide and -1 for an earlier one, and the index becomes the target. |
| Carousel.CarouselState.Tick | src/components/ui/Carousel.jsx:6-14 | With more than one item, a tick has the effect of `goToNext`. With one item or none it does nothing. |
| Carousel.CarouselState.ItemsChanged | src/components/ui/Carousel.jsx:18-19 | A new `items` array keeps the index and the direction. |
| Js.OrChainIsFirstTruthy | src/api/client.js:35-40 | A chain of logical-or operators evaluates to its first truthy operand, or to its last operand when none is truthy. |
| Js.SpreadFields | src/api/client.js:64-67 | `{...data}` copies an object's properties. An array gives its elements and a string its characters, under their decimal indices. `undefined`, `null`, booleans and numbers give no properties. |
| Js.StringOf | src/api/client.js:61 | `String(v)`: strings are kept, and `undefined` and `null` give their names. |
| ApiClient.GetToken | src/api/client.js:12-21 | The token when the entry is present and non-empty, it parses and its `token` is truthy; `null` otherwise. |
| ApiClient.GetUserId | src/api/client.js:23-32 | The same for the stored `id`. |
| ApiClient.SessionField | src/api/client.js:12-21 | The result is `null` or truthy. It is non-null exactly when the session entry is present and non-empty, it parses, and the field is truthy; it is then that field. |
| ApiClient.NoSessionNoCredentials | src/api/client.js:12-32 | A missing, empty or unparseable session entry gives neither a token nor a user id. |
| ApiClient.NormalizeError | src/api/client.js:34-41 | The message is the first truthy value among `response.data.error`, `response.data.message`, `err.message` and the fallback. With a non-empty fallback it is always truthy. |
| ApiClient.NormalizeErrorFallsBack | src/api/client.js:34-41 | The fallback is used when none of the other three is truthy. A truthy server `error` always wins. |
| ApiClient.WithUser | src/api/client.js:67 | `{...data, user: {id}}`: the `user` property is `{id}`, and every other property of an object is kept. |
| ApiClient.ConfigFor | src/api/client.js:48-70 | With `auth` and no token, the result is `'User not authenticated'`. Without `auth`, headers and data go out as given. With `auth`, a copy of the headers gains `Authorization: Bearer <token>`. `data` becomes `{...data, user: {id}}` exactly when `attachUser` is set, `data` is a truthy object without a truthy `user`, and a user id is stored. |
| ApiClient.BuildConfig | src/api/client.js:48-70 | The step-by-step construction (copy, set the header, replace the data) yields `ConfigFor`. |
| ApiClient.Settle | src/api/client.js:72-87 | A response yields its `data`. A failure yields an `Error` whose message is `normalizeError(err, fallbackMessage)`, with `'Request failed'` when no message is given. |
| ApiClient.Request | src/api/client.js:43-88 | Without a token under `auth`, it fails before any network call. Otherwise it sends `ConfigFor`'s configuration and settles the transport's answer. |
| ApiClient.ApiWithOptions | src/api/client.js:91-94 | `api.get` and `api.delete` pass the options as given, or `{}` when none are given. A body can only come through `options.data`. |
| ApiClient.ApiWithData | src/api/client.js:91-94 | `api.post` and `api.put`: the `data` argument replaces the options' `data`, and everything else is kept. |
| ApiClient.NoAuthSendsAsGiven | src/api/client.js:56-70 | Without `auth`, no `Authorization` header is added and no user is attached. |
| Media.OriginalUrls | src/api/media.js:45 | `data.mediaUrls` when it is an array, and `[]` otherwise. |
| Media.BaseWithoutApi | src/api/media.js:49 | `replace('/api', '')` removes at most one `/api`: the result is as long as the base or four characters shorter, and a base that does not start with `/api` keeps its first character. |
| Media.PreviewUrl | src/api/media.js:47-53 | A falsy URL and an `http…` URL are kept. Any other URL gets the base address, without its first `/api`, in front. |
| Media.PreviewUrls | src/api/media.js:47-53 | The mapping fails exactly when some URL is truthy but not a string, since `startsWith` throws there. Otherwise the result has the same length and order, mapped one URL at a time. |
| Media.BuildForm | src/api/media.js:30-35 | Every file is appended under `'file'`, in order. |
| Media.UploadMedia | src/api/media.js:20-68 | The guards come in order: missing or empty `files` throws `'No files provided for upload'`, then a missing token throws `'User not authenticated'`, and neither toasts nor sends a request. Otherwise it sends the form to `<base>/media/upload` with the multipart and bearer headers. It returns the original and the preview URLs. A failure is turned into the fallback chain ending in `'Failed to upload media'`, shown as a toast and thrown, including the `TypeError` of the mapping. |
| Media.PreviewOfRelativeUrl | src/api/media.js:48-50 | A relative URL becomes the base up to its first `/api`, then the rest of the base, then the URL. |
| Media.PreviewWithPlainBase | src/api/media.js:48-50 | With a base that contains no `/api`, a relative URL becomes the base followed by the URL. |
| Media.PreviewEndsWithOriginal | src/api/media.js:47-53 | The preview of a string URL is a string that ends with that URL. |
| Media.PreviewsLineUp | src/api/media.js:47-53 | For a list of string URLs the mapping never throws, and every preview URL ends with its original URL. |
| Text.TrimEmptyIffAllSpace | src/components/EditPostModal.jsx:199 | `s.trim()` is empty exactly when `s` is all white space. |
| Text.TrimIdempotent | src/components/EditPostModal.jsx:60-61 | Trimming twice is trimming once. |
| Text.RemoveFirst | src/api/media.js:49 | The string-pattern `replace` removes nothing or exactly one copy of the pattern. A match at the start is cut off there. |
| Text.RemoveFirstCutsLeftmost | src/api/media.js:49 | `replace('/api', '')` cuts out exactly the leftmost occurrence. |
| Text.RemoveFirstWithoutOccurrence | src/api/media.js:49 | Without an occurrence, `replace` leaves the string unchanged. |
| Text.ToUpperIdempotent | src/api/reactions.js:14 | Upper-casing leaves no lower-case letter, and upper-casing twice is upper-casing once. |
| Reactions.ReactPayload | src/api/reactions.js:11-15 | The payload has exactly `postId`, `userId` and `reactionType`. The ids are sent as given, and the type is `String(reactionType).toUpperCase()`: a string of the same length with no lower-case letter. |
| Reactions.ReactToPost | src/api/reactions.js:5-22 | It throws `'postId, userId and reactionType are required'` exactly when one of the three is falsy. Otherwise it is an authenticated POST to `/postReactions/reactPost` with payload `{postId, userId, reactionType}`, the type upper-cased. No user is attached, and the fallback message is its own. |
| Reactions.RemoveReaction | src/api/reactions.js:26-39 | It throws `'postId and userId are required'` exactly when one of the two is falsy. Otherwise it is an authenticated DELETE to `/postReactions/removeReactPost` with body `{postId, userId}`, no user attached and its own fallback message. |
| Reactions.ZeroAndEmptyAreMissing | src/api/reactions.js:6-8 | The id `0` and `''` count as missing in both functions. |
| Reactions.ReactionGoesOutAsBuilt | src/api/reactions.js:9-21 | Through `request` the reaction either fails for want of a token, or goes out with exactly its payload and only the bearer header. |
| Reactions.RemovalGoesOutAsBuilt | src/api/reactions.js:30-38 | Through `request` the removal either fails for want of a token, or goes out as a DELETE whose body is exactly `{postId, userId}`. |
| Reactions.ReactionTypeCaseInsensitive | src/api/reactions.js:14 | `'like'` and `'LIKE'` produce the same request. |
| EditPost.OrDefault | src/components/EditPostModal.jsx:29-35 | The or-default the effect applies to each stored field: the stored value when it is present and non-empty, and the default otherwise. |
| EditPost.Capitalised | src/components/EditPostModal.jsx:45 | The result has the same length, an upper-cased first letter and a lower-cased rest. |
| EditPost.CapitalisedIgnoresCase | src/components/EditPostModal.jsx:45 | The normalisation gives the same result whatever the letter case of its input. |
| EditPost.CapitalisedFixesWord | src/components/EditPostModal.jsx:45 | A capitalised word is its own normal form. |
| EditPost.CapitalisedRecoversLabels | src/components/EditPostModal.jsx:44-46 | Every button label, in upper, lower or its own case, normalises to the label. |
| EditPost.Submitted | src/components/EditPostModal.jsx:58-64 | What a save would compare and send: the text fields trimmed, the media type as selected. |
| EditPost.HasChanges | src/components/EditPostModal.jsx:58-64 | There are changes exactly when the trimmed form differs from `originalValues`. |
| EditPost.SaveEnabled | src/components/EditPostModal.jsx:199 | Save can only be enabled when there are changes, neither trimmed text field is empty and no save is in flight. |
| EditPost.SaveEnabledMeans | src/components/EditPostModal.jsx:199 | Save is enabled exactly when neither text field is all white space, `hasChanges` holds and nothing is in flight. |
| EditPost.OpenedValues | src/components/EditPostModal.jsx:27-39 | A stored title or content is taken as it is, and `''` when missing. A non-empty stored media type is taken as it is, and `'Text'` otherwise, so it is never empty. |
| EditPost.OpenedHasChangesIffUntrimmed | src/components/EditPostModal.jsx:58-64 | Right after loading a post, `hasChanges` holds exactly when a stored title or content has white space at one end. |
| EditPost.OpenedAsWritten | src/components/EditPostModal.jsx:27-48 | After both effects the original holds the opened values, and the form holds the same text with the media type capitalised. The two differ exactly when the stored media type is not already capitalised. |
| EditPost.EditPostModal.OpenOn | src/components/EditPostModal.jsx:27-48 | Running the two effects in order leaves the form and `originalValues` as `OpenedAsWritten` says, with the error cleared. |
| EditPost.UpperCaseMediaTypeReportsChanges | src/components/EditPostModal.jsx:27-48 | A post stored with media type `IMAGE` reports changes as soon as both effects have run, so Save is enabled before any edit (see Findings). |
| EditPost.OpenedNormalised | src/components/EditPostModal.jsx:41-64 | The corrected opening: the form is the same as written, and the original equals it, with the media type capitalised on both sides. |
| EditPost.NormalisedOpeningIsClean | src/components/EditPostModal.jsx:41-64 | With the media type normalised on both sides, an untouched form with trimmed stored fields reports no change and leaves Save disabled. |
| EditPost.EditPostModal.constructor | src/components/EditPostModal.jsx:11-24 | The initial state cells: empty text, `'Text'`, the same original values, no dialogs, no error. |
| EditPost.EditPostModal.OnOpenOrPostChange | src/components/EditPostModal.jsx:27-39 | When the dialog is open with a post, the form and `originalValues` both get the post's title and content (or `''`) and its media type (or `'Text'`), and the error is cleared. Otherwise nothing changes. |
| EditPost.EditPostModal.OnPostMediaTypeChange | src/components/EditPostModal.jsx:42-48 | A present media type is normalised into the form only. `originalValues` is untouched. |
| EditPost.EditPostModal.SetTitle | src/components/EditPostModal.jsx:134 | Only the title changes. |
| EditPost.EditPostModal.SetContent | src/components/EditPostModal.jsx:148 | Only the content changes. |
| EditPost.EditPostModal.SelectMediaType | src/components/EditPostModal.jsx:165 | Only the media type changes. |
| EditPost.EditPostModal.HandleSave | src/components/EditPostModal.jsx:66-69 | Clears the error and opens the Save confirmation. |
| EditPost.EditPostModal.ConfirmSave | src/components/EditPostModal.jsx:71-99 | It sends the post id, the trimmed title and content, the media type and a `null` media URL. On success the confirmation closes, then `onClose` runs, then `onPostUpdated` if given. On failure the error is the message and the confirmation closes. Without a post, reading its id throws first. `isSubmitting` ends false, and the form is kept in every case. |
| EditPost.EditPostModal.CancelSaveConfirm | src/components/EditPostModal.jsx:211 | Only the Save confirmation closes. |
| EditPost.EditPostModal.HandleDiscard | src/components/EditPostModal.jsx:101-104 | Clears the error and opens the discard confirmation. |
| EditPost.EditPostModal.ConfirmDiscard | src/components/EditPostModal.jsx:106-109 | Closes the confirmation and calls `onClose`, and the form is left as it is. |
| EditPost.EditPostModal.CancelDiscardConfirm | src/components/EditPostModal.jsx:222 | Only the discard confirmation closes. |
| EditPost.EditPostModal.HandleCancel | src/components/EditPostModal.jsx:111-118 | `onClose` is called exactly once, whether or not there are changes. |
| CreatePost.PostEnabled | src/components/CreatePostModal.jsx:166 | Post can only be enabled when neither trimmed field is empty, and never while a post is in flight. |
| CreatePost.PostEnabledMeans | src/components/CreatePostModal.jsx:166 | Post is enabled exactly when neither field is all white space and nothing is in flight. The title and content it then sends are non-empty and trimmed. |
| CreatePost.CreatePostModal.constructor | src/components/CreatePostModal.jsx:10-17 | Empty fields, the media type from `initialMediaType`, no dialogs, no error. |
| CreatePost.CreatePostModal.OnPropsChange | src/components/CreatePostModal.jsx:22-26 | When the effect runs on an open dialog, the media type becomes `initialMediaType`. On a closed dialog it is kept. |
| CreatePost.CreatePostModal.SetTitle | src/components/CreatePostModal.jsx:101 | Only the title changes. |
| CreatePost.CreatePostModal.SetContent | src/components/CreatePostModal.jsx:115 | Only the content changes. |
| CreatePost.CreatePostModal.SelectMediaType | src/components/CreatePostModal.jsx:132 | Only the media type changes. |
| CreatePost.CreatePostModal.ResetForm | src/components/CreatePostModal.jsx:79-85 | Title and content become `''`, the media type becomes `initialMediaType`, the error is cleared and `isSubmitting` is false. |
| CreatePost.CreatePostModal.HandlePost | src/components/CreatePostModal.jsx:34-37 | Clears the error and opens the Post confirmation. |
| CreatePost.CreatePostModal.ConfirmPost | src/components/CreatePostModal.jsx:39-67 | It sends the trimmed title and content, the media type and a `null` media URL. On success the confirmation closes and the form is reset, then `onClose` runs, then `onPostCreated` if given. On failure the error is the message, the confirmation closes, and the typed title, content and media type are kept. `isSubmitting` ends false. |
| CreatePost.CreatePostModal.CancelPostConfirm | src/components/CreatePostModal.jsx:178 | Only the Post confirmation closes. |
| CreatePost.CreatePostModal.HandleDiscard | src/components/CreatePostModal.jsx:69-71 | Only the discard confirmation opens; the error is not cleared. |
| CreatePost.CreatePostModal.ConfirmDiscard | src/components/CreatePostModal.jsx:73-77 | Closes the confirmation, resets the form and calls `onClose`. |
| CreatePost.CreatePostModal.CancelDiscardConfirm | src/components/CreatePostModal.jsx:189 | Only the discard confirmation closes. |
| SignUp.Validate | src/pages/SignUp.jsx:18-28 | At most three issues, each one of the three rule messages. They appear in field order, user name then password then confirmation, and none twice. |
| SignUp.ValidateMeans | src/pages/SignUp.jsx:18-28 | A form passes exactly when the user name has at least 2 characters, the password at least 6, and the confirmation equals the password. Each failed rule reports its own message on its own field, "Passwords don't match" on `confirmPassword`. |
| SignUp.Payload | src/pages/SignUp.jsx:64-68 | The payload has exactly `username`, `email` and `password`; `confirmPassword` is dropped. |
| SignUp.RegisterCall | src/api/auth.js:3-7 | An unauthenticated POST of the payload to `/users/registerUser` with fallback `'Registration failed'`. |
| SignUp.FailureMessage | src/pages/SignUp.jsx:74 | `err.response.data.error` when truthy, else `err.message`. |
| SignUp.ClientError | src/api/client.js:86 | The `Error` the API client throws has a `message` and no `response`. |
| SignUp.ClientFailureReportsItsMessage | src/pages/SignUp.jsx:74 | For an error thrown by the API client, the page reports the client's message as it is. |
| SignUp.OnSubmit | src/pages/SignUp.jsx:61-77 | It makes the registration call. On success the steps are `authStart`, `loginSuccess(null)`, then navigation to `/registration-success`, and the store ends unauthenticated with no user. On failure they are `authStart` then `authFailure(message)`, and the store keeps its user with the message as its error. The auth invariant is kept. |

## Left out

- The network, `localStorage`, `JSON.parse`, `FormData` and the `sonner` toast are not modelled. They are parameters: the stored entry, a parser, the transport's answer, and the toast message returned as a value. The toast message is recorded after `String(...)`, while the source hands `errorMessage` to `toast.error` unconverted; the two differ only when the server's `error` or `message` is not a string.
- The HTTP transport's own behaviour and the `baseURL` and `Content-Type` defaults of the axios instance are not modelled. `API_BASE_URL` is a string parameter, and an undefined base address is not modelled.
- The `console.log`/`console.error` calls are not modelled, nor is the development-only error logging in `request`.
- Timers are not modelled. A firing of the carousel's interval is one call of `Tick`. Crossfade animation, `renderItem` and all JSX rendering are also not modelled.
- React's rendering between state updates is collapsed into single steps. The `isSubmitting = true` render during an awaited save or post is not a separate state. A handler's `ensures` describe the state after the handler ends, and they capture the state values the handler saw when it started.
- JavaScript numbers are integers in the model. There is no NaN, no fractions and no `-0`.
- `trim` uses the exact ECMAScript white-space set. `toUpperCase` and `toLowerCase` map only ASCII letters, because full Unicode case mapping, where one character can become several (`ß` → `SS`), is not modelled.
- `===` on post ids is structural equality on the model's values. Objects used as ids would compare by identity in JavaScript; the application's ids are numbers or strings.
- Object identity between `currentPost` and an entry of `posts` is not modelled. The two are separate values in the model. Under Immer each is reached through its own path in the draft and toggled once, which is what the model does.
- PostsSlice.PostsStore.Toggle: the thrown `TypeError` is reported as a flag and not as a message.
- Reactions.ReactToPost: `String(reactionType)` of an object or array follows the model's `StringOf`, which does not call a custom `toString`.
- The `auth`/`attachUser` options are booleans in the model, while the source tests any truthy value.
- The `TypeError` messages the model uses are those given by V8: `url.startsWith is not a function` and reading `id` of `null`. Other engines word them differently.
- EditPost.EditPostModal.ConfirmSave: a missing post is one case in the model, reported with the `null` wording. V8 says "of undefined" when the `post` prop is left out altogether.
- SignUp.Validate: lengths are counted in Unicode code points (Dafny's `|s|`), not in the UTF-16 code units that zod's `.min` counts. A user name made of one emoji passes the source's rule but is too short in the model.
- SignUp.ValidateMeans: the same code-point count applies to its length conditions.
- PostsSlice.LikeToggled: posts are assumed to carry numeric `likes` and `dislikes` and boolean `isLiked` and `isDisliked`. A post without `dislikes` or `isDisliked`, such as the mock post `src/pages/PostDetail.jsx` stores, would give `NaN` dislikes in JavaScript if `toggleDislike` were dispatched on it. That case is not modelled.
- SignUp.Validate: zod's e-mail check is not modelled, and the model assumes every field is a string, as the form supplies. The zod issue for the e-mail field would come between the user-name issue and the password issue.
- The `registerUser` response body is not modelled, since the page only logs it.
- `src/api/posts.js`, `src/api/auth.js` and `src/api/health.js` are thin calls to `api.*`. Only `registerUser` is modelled.
- `src/pages/Login.jsx` is not modelled. It fakes a login and imports action creators the auth slice does not export.
- The unauthenticated redirect in `src/pages/PostDetail.jsx` is not modelled, nor is the mock data of `src/pages/Home.jsx` and `src/pages/PostDetail.jsx`.
- `src/components/MediaUploadModal.jsx` is UI glue around `uploadMedia` and is not modelled. Its file-size display is floating point.
- There is no health-polling readiness gate, optimistic reaction update, rollback or retry countdown in the code, so none is modelled.
- The `getToken` copy in `src/api/media.js:7-16` is the same code as the one in `src/api/client.js:12-21`. The model uses `ApiClient.GetToken` for both.

## Findings

| source | as written | input that shows it | evidently intended | confidence | as-written member | corrected member |
|---|---|---|---|---|---|---|
| src/components/EditPostModal.jsx:27-48 | The `[isOpen, post]` effect stores `post.mediaType` raw in both the form and `originalValues`. The `[post?.mediaType]` effect then normalises only the form's copy. | A post with trimmed title and content and `mediaType: 'IMAGE'`, the upper-case form that `src/api/posts.js:30` sends, shown while the dialog is open. The form holds `Image`, the original holds `IMAGE`, so `hasChanges()` is true and Save is enabled before any edit. | Normalise the original's media type too, so that an untouched form reports no change. | medium, not executed (the dialog must receive the post while open or be mounted open) | EditPost.OpenedAsWritten, EditPost.EditPostModal.OpenOn, EditPost.UpperCaseMediaTypeReportsChanges | EditPost.OpenedNormalised, EditPost.NormalisedOpeningIsClean |
