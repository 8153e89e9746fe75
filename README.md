# Vloggo client: a Dafny model of its session state and screen logic

Vloggo is a small React Native video-sharing demo. Its only shared state is
a session-scoped, append-only list of video records held by `VideoProvider`.
Five screens use it:

- the login screen accepts any non-blank username and password;
- the feed lists every record under a header that counts them;
- the upload form validates four fields and appends a record built from them;
- the profile lists the demo user's own records;
- the detail screen has a like button with its own counter and a fixed list of mock comments.

This project models that logic in Dafny, one module per source file:

| module | file | form |
|---|---|---|
| `Types` | `types.dfy` | the `Video` record and the demo identity `"Luca Rossi"` |
| `JsText` | `js_text.dfy` | JavaScript `trim` and decimal `toString`, as functions |
| `VideoContext` | `video_context.dfy` | class `VideoStore` (state cell + `AddVideo`), with the append function and its lemmas |
| `UploadScreen` | `upload_screen.dfy` | class `UploadForm` over the four state cells, with the `IsFormValid` function |
| `ProfileScreen` | `profile_screen.dfy` | the `UserVideos` filter and the rendered view, as functions and lemmas |
| `HomeScreen` | `home_screen.dfy` | the rendered feed, as functions and lemmas |
| `VideoDetailScreen` | `video_detail_screen.dfy` | class `LikeButton` over `isLiked`/`likeCount`, plus the mock comments |
| `LoginScreen` | `login_screen.dfy` | `HandleLogin` as a function returning the outcome |

Modelling choices:

- **Event handlers.** Each handler is one atomic step, because the app is single-threaded. The time
  readings inside `upload` become parameters. So do the answers of the permission request and the
  media picker in `pickVideo`.
- **Absent provider.** `VideoStore.provided` says whether there is a `VideoProvider` above the screen.
  Without one, a screen gets the context's default value: an empty list and an `addVideo` that
  does nothing.
- **Snapshots.** A list a screen has read is a Dafny sequence value. `AddVideo` assigns a new
  sequence, so a snapshot read before an append keeps its old contents.
- **Whitespace.** `trim` strips the ECMAScript WhiteSpace and LineTerminator characters listed in
  `JsText.IsWhitespace`. No property depends on that exact set; they only use "`Trim(s)` is empty
  iff every character of `s` is whitespace".
- **Truthiness.** The upload guard tests `!videoUri` and `!selectedGroup`. In JavaScript these are
  true for `null` and also for the empty string, so the model also refuses an empty `videoUri`
  (`UploadScreen.Truthy`). A selected group is never empty, because it always comes from the five
  group buttons (`UploadForm.Valid`).

## Model

| member | source | states |
|---|---|---|
| `JsText.Trim` | src/screens/UploadScreen.tsx:58 | `s.trim()` is a slice of `s` with only whitespace before and after it, and it neither starts nor ends with whitespace. It is empty iff every character of `s` is whitespace. |
| `JsText.TrimIdempotent` | src/screens/UploadScreen.tsx:65-66 | Trimming an already trimmed title or description changes nothing. |
| `JsText.DecimalString` | src/screens/UploadScreen.tsx:64 | `Date.now().toString()` is a non-empty string of decimal digits with no leading zero, except for 0 itself. |
| `JsText.DecimalRoundTrip` | src/screens/UploadScreen.tsx:64 | Reading the digits of the rendered number back gives the number. |
| `JsText.DecimalInjective` | src/screens/UploadScreen.tsx:64 | Two ids built from clock readings are equal iff the readings are equal. |
| `VideoContext.Append` | src/context/VideoContext.tsx:20-22 | `[...prev, video]` is one longer than `prev`. It keeps every earlier record at its position and has `video` last. |
| `VideoContext.ReplayIsConcat` | src/context/VideoContext.tsx:18-22 | Appending r1..rn one call at a time yields the old records followed by r1..rn in call order. From the empty initial state that is exactly [r1, ..., rn]. |
| `VideoContext.CountIdZeroIff` | src/context/VideoContext.tsx:20-22 | No record carries an id iff the id count is zero. |
| `VideoContext.CountIdAppend` | src/context/VideoContext.tsx:20-22 | An append adds exactly one record with the new record's id. No other id's count changes. |
| `VideoContext.DuplicateIdAppended` | src/context/VideoContext.tsx:20-22 | A record whose id is already in the store is still appended, so that id then occurs at least twice. There is no duplicate-id guard. |
| `VideoContext.VideoStore.Provider` | src/context/VideoContext.tsx:18 | The provider's store starts empty. |
| `VideoContext.VideoStore.ContextDefault` | src/context/VideoContext.tsx:4-7 | Without a provider, the context value has an empty list. |
| `VideoContext.VideoStore.AddVideo` | src/context/VideoContext.tsx:20-22 | Under a provider the new list is the old one followed by `v`, as a fresh sequence. The default context's `addVideo` leaves the list unchanged. |
| `UploadScreen.UploadForm.constructor` | src/screens/UploadScreen.tsx:22-25 | The form starts with no video, an empty title and description, and no group. |
| `UploadScreen.UploadForm.PickVideo` | src/screens/UploadScreen.tsx:30-47 | `videoUri` becomes the picked asset's uri only when permission is granted and the pick is not cancelled. Otherwise it is unchanged. No other cell changes. |
| `UploadScreen.UploadForm.SetTitle` | src/screens/UploadScreen.tsx:119 | Typing in the title input replaces `title` and nothing else. |
| `UploadScreen.UploadForm.SetDescription` | src/screens/UploadScreen.tsx:129 | Typing in the description input replaces `description` and nothing else. |
| `UploadScreen.UploadForm.SelectGroup` | src/screens/UploadScreen.tsx:135-138 | Pressing a group button selects that group, always one of the five `GROUPS`. Nothing else changes. |
| `UploadScreen.UploadForm.ResetForm` | src/screens/UploadScreen.tsx:50-55 | The form returns to its initial values. |
| `UploadScreen.UploadForm.IsFormValid` | src/screens/UploadScreen.tsx:92 | The button is enabled iff all four hold: there is a non-empty video uri, the title and the description each contain a non-whitespace character, and a group is selected. |
| `UploadScreen.UploadForm.Upload` | src/screens/UploadScreen.tsx:57-75 | It accepts iff `IsFormValid` held. On a rejection the four cells and the store are unchanged: no uri, a blank title, a blank description or no group. On an acceptance exactly one record is appended. Its title and description are the trimmed fields, its uri and group are the form's, its uploader is "Luca Rossi", and its id and thumbnail come from the clock readings. The form is then reset, so an immediate second upload is rejected. |
| `ProfileScreen.UserVideos` | src/screens/ProfileScreen.tsx:23 | Every listed record has uploader "Luca Rossi", and every store record with that uploader is listed. The list is no longer than the store. |
| `ProfileScreen.UserVideosDistributes` | src/screens/ProfileScreen.tsx:23 | Filtering a concatenation gives the concatenation of the filters, so the filter keeps store order. |
| `ProfileScreen.UploadedVideoListed` | src/screens/ProfileScreen.tsx:23 | After a record by "Luca Rossi" is appended, as every upload does, the profile list is the old list followed by that record. |
| `ProfileScreen.Render` | src/screens/ProfileScreen.tsx:69-104 | The list is `UserVideos`, and the "Video" stat is its length. The "N video caricati" subtitle is shown iff the user has a record, and its number is that length. The empty state and the full-height layout are used iff the user has none. |
| `HomeScreen.Render` | src/screens/HomeScreen.tsx:58-64 | The feed lists exactly the store's records in store order. The empty state and the full-height layout are used iff the store is empty. |
| `HomeScreen.HeaderCount` | src/screens/HomeScreen.tsx:54 | The header starts with a number equal to the store's length. |
| `HomeScreen.HeaderPlural` | src/screens/HomeScreen.tsx:54 | After the number comes " video", and the next character is "s" iff the store's length is not 1. |
| `VideoDetailScreen.CommentsCount` | src/screens/VideoDetailScreen.tsx:17-39 | The comment count shown is the number of mock comments, which is 3. |
| `VideoDetailScreen.LikeButton.constructor` | src/screens/VideoDetailScreen.tsx:43-44 | The button starts not liked with 123 likes, which satisfies the invariant `likeCount == 123 + (isLiked ? 1 : 0)`. |
| `VideoDetailScreen.LikeButton.HandleLike` | src/screens/VideoDetailScreen.tsx:46-49 | `isLiked` is negated. `likeCount` goes down by one if it was liked and up by one otherwise. The invariant is preserved, so the count stays 123 or 124. |
| `VideoDetailScreen.LikeButton.Label` | src/screens/VideoDetailScreen.tsx:111 | In every reachable state the label reads "124 Mi piace" while liked and "123 Mi piace" otherwise. |
| `VideoDetailScreen.LikeTwice` | src/screens/VideoDetailScreen.tsx:46-49 | Two presses in a row restore both the flag and the count. |
| `LoginScreen.HandleLogin` | src/screens/LoginScreen.tsx:20-26 | Login navigates to Main iff both the username and the password contain a non-whitespace character. A blank username is refused whatever the password, and so is a blank password. The outcome depends only on the two fields, so a refusal cannot change them. |

## Left out

- Rendering: JSX, styles, images, icons and the `Alert` dialogs. Only the outcomes are modelled: accept or reject, navigate or alert.
- Navigation wiring and app shells: `AppNavigator`, `App.tsx` and `_layout.tsx` hold no logic of their own. Both shells put every screen under a `VideoProvider`.
- The asynchronous permission and picker calls in `pickVideo`. `PickVideo` takes their answers as parameters.
- `Date.now()`. `Upload` takes its two readings as parameters, one for the id and one for the thumbnail, because the source reads the clock twice.
- JsText.DecimalString: does not model the exponent notation that JavaScript uses for numbers of 10^21 and above. Clock readings never reach that.
- The `maxLength` of 100 and 500 on the title and description. The text-input widget enforces it, and no checked logic does.
- The subscription and re-render mechanics of React state. Each handler is one atomic step, and a screen reads the store's current value.
- The error thrown by `useVideoContext` when no context exists. It cannot happen, because the default context value is always present.
- The exact Unicode version behind JavaScript's whitespace set. `IsWhitespace` lists the current ECMAScript set.
- Display-only constants on the profile (156 views, 42 likes, the bio). They are fixed text.
- Setting `username` and `password` on the login screen. These are plain input setters, and `HandleLogin` takes both values as parameters.
