# Authentication store model

A Dafny model of the session/profile store of a venue-booking web application
(`app/stores/auth.ts`). The store holds five fields: `modal`, `hydrated`, `user`,
`profile` and `loading`. Six operations change them: `init`, `fetchUserProfile`,
`updateProfile`, `uploadAvatar`, `signOut` and `toggleModal`. The first five may call an
identity and storage provider, and what they do depends on whether those calls succeed;
`toggleModal` makes no call.

The model has three modules:

- `AvatarPaths` (`avatar_paths.dfy`) builds the storage key of an uploaded avatar. The
  file extension is `name.split(".").pop()`, modelled by a faithful `Split`. The key is
  `avatars/<user id>-<timestamp>.<extension>`, with the timestamp written in decimal.
- `AuthModel` (`auth_model.dfy`) holds the store's state as a value and one pure step
  function per operation. A step gives the new state, the returned result and the
  requests sent to the provider. Each provider call is an input of type
  `Call<T> = Ok(value) | Fails(failure)`: a returned error and a thrown one are handled
  alike by the source, so they are one case here (except the session request, see
  "## Left out"). Lemmas over any sequence of
  operations (`Run`) give the global invariants.
- `AuthStore` (`auth_store.dfy`) is the store as a class with the five fields. It has one
  method per operation, written as the source writes it: assignments to fields, and
  `init` and `updateProfile` calling `fetchUserProfile`, `uploadAvatar` calling
  `updateProfile` and dropping its result. Each method is proved to produce exactly the
  state, result and requests of its step function. A ghost field `calls` records the
  requests sent. This is what lets the model say "returns without any remote call".

`state.user?.id` is a JavaScript truthiness test. It is modelled as `HasUserId`: a user
is present and its id is not the empty string.

Two behaviours of the code are modelled as written:

- `init` sets `hydrated` inside the `try` (auth.ts:48), so a session request that
  throws leaves `hydrated` unchanged (`Initialized`).
- `signOut` clears `user` and `profile` only when the provider reports success
  (auth.ts:127-130); a failed sign-out leaves every field unchanged (`SignedOut`).

The invariant `Consistent` says only that a profile is never held without some user.
It does not say the profile belongs to that user, and the code does not guarantee it:
when `init` finds a session for a new user and the profile fetch fails, the previous
user's profile is kept beside the new user (auth.ts:42-46, 67-70).

## Model

| member | source | states |
|---|---|---|
| `AvatarPaths.Split` | app/stores/auth.ts:101 | `split(".")` always yields at least one piece, and no piece contains the separator |
| `AvatarPaths.JoinSplit` | app/stores/auth.ts:101 | joining the pieces of a split with the separator gives back the original text |
| `AvatarPaths.LastPieceFollowsLastSeparator` | app/stores/auth.ts:101 | the last piece is a suffix of the text. It is the whole text exactly when there is one piece; otherwise a separator precedes it |
| `AvatarPaths.FileExtension` | app/stores/auth.ts:101 | `split(".").pop()` is the text after the last dot: it holds no dot, it is a suffix of the name, and a dot precedes it unless it is the whole name (the name without a dot is its own extension) |
| `AvatarPaths.ExtensionAfterLastDot` | app/stores/auth.ts:101-103 | whatever precedes the last dot, the extension of `prefix + "." + ext` is `ext` when `ext` has no dot |
| `AvatarPaths.DecimalString` | app/stores/auth.ts:102 | the timestamp's text is a non-empty string of decimal digits with no leading zero (so it has no dot) |
| `AvatarPaths.DecimalRoundTrip` | app/stores/auth.ts:102 | reading the timestamp's text back as a decimal number gives the timestamp |
| `AvatarPaths.DecimalStringInjective` | app/stores/auth.ts:102 | two timestamps with the same text are equal |
| `AvatarPaths.AvatarPath` | app/stores/auth.ts:101-103 | the key starts with `avatars/<user id>-`, and its extension equals the uploaded file's extension |
| `AvatarPaths.AvatarPathsDistinct` | app/stores/auth.ts:100-103 | two uploads by one user at different timestamps get different keys, whatever the file names |
| `AuthModel.AvatarPatch` | app/stores/auth.ts:116 | the update built from the public URL sets `avatar_url` to that URL and no other field |
| `AuthModel.HasUserId` | app/stores/auth.ts:58 | the guard `state.user?.id` of `fetchUserProfile`, `updateProfile` and `uploadAvatar` (also at lines 76 and 97): it holds only when a user is present, and a user whose id is the empty string fails it |
| `AuthModel.ProfileFetched` | app/stores/auth.ts:57-72 | without a user id it changes nothing and sends nothing. Otherwise it requests the user's row once. On success the row replaces `profile` wholesale; on error `profile` is kept, not cleared. Only `profile` ever changes, and a profile is held only with a user |
| `AuthModel.Initialized` | app/stores/auth.ts:33-54 | `loading` ends false whatever happens. `hydrated` becomes true when the session request does not throw; otherwise it keeps its value. A found session stores its user and is followed by a profile fetch. No session, or a throw, leaves `user` and `profile` unchanged. `modal` is untouched, and the invariant is kept |
| `AuthModel.ProfileUpdated` | app/stores/auth.ts:75-93 | without a user id it returns "Not authenticated", sends nothing and changes nothing. A failed update returns `{error}` with the provider's error and leaves the state alone. A successful update re-fetches the profile and returns success even if that re-fetch fails. Only `profile` changes |
| `AuthModel.AvatarUploaded` | app/stores/auth.ts:96-122 | without a user id it returns "Not authenticated" and sends nothing. Otherwise it first uploads to the `avatars` bucket under `AvatarPath`. If the upload fails it returns `{error}`, attempts no profile update and changes nothing. If the upload succeeds it returns the URL resolved for that key, whatever the outcome of the following `updateProfile`. The requests are exactly the upload, the update with that URL as `avatar_url`, and the profile re-fetch only if the update succeeded |
| `AuthModel.SignedOut` | app/stores/auth.ts:125-134 | it always sends one sign-out request. On success `user` and `profile` become absent; on failure nothing changes. `modal`, `hydrated` and `loading` are never touched |
| `AuthModel.ModalToggled` | app/stores/auth.ts:137-139 | given a value, `modal` becomes it; given none, `modal` is negated. No other field changes |
| `AuthModel.ToggleModalIdempotent` | app/stores/auth.ts:137-139 | `toggleModal(v)` twice is the same as once |
| `AuthModel.ToggleModalTwiceRestores` | app/stores/auth.ts:137-139 | `toggleModal()` twice gives the original state back |
| `AuthModel.ApplyKeepsAtRest` | app/stores/auth.ts:33-139 | every operation, with any provider outcomes, keeps `profile != null ⇒ user != null` and ends with `loading` false |
| `AuthModel.RunKeepsAtRest` | app/stores/auth.ts:33-139 | the same holds after any sequence of operations |
| `AuthModel.ReachableStatesAtRest` | app/stores/auth.ts:24-30 | from the initial state, after any sequence of operations and provider answers, a profile is held only with a user, and `loading` is false |
| `AuthModel.RunKeepsHydrated` | app/stores/auth.ts:48 | once `hydrated` is true no operation sets it back to false |
| `AuthModel.SignInUpdateSignOut` | app/stores/auth.ts:33-134 | user "u1" signs in, has the profile fetched, sets a bio, sees the re-fetched bio, and signs out to an empty session; the requests are as listed |
| `AuthStore.Store.constructor` | app/stores/auth.ts:24-30 | the store starts with every flag false, no user and no profile, and no request sent |
| `AuthStore.Store.Init` | app/stores/auth.ts:33-54 | the fields and the requests sent after `init` are those of `Initialized`, and the invariant is kept |
| `AuthStore.Store.FetchUserProfile` | app/stores/auth.ts:57-72 | the fields and the requests sent are those of `ProfileFetched` |
| `AuthStore.Store.UpdateProfile` | app/stores/auth.ts:75-93 | the fields, the returned result and the requests sent are those of `ProfileUpdated` |
| `AuthStore.Store.UploadAvatar` | app/stores/auth.ts:96-122 | the fields, the returned result and the requests sent are those of `AvatarUploaded`; the result of the inner `updateProfile` is discarded |
| `AuthStore.Store.SignOut` | app/stores/auth.ts:125-134 | the fields and the requests sent are those of `SignedOut` |
| `AuthStore.Store.ToggleModal` | app/stores/auth.ts:137-139 | the fields are those of `ModalToggled`, and no request is sent |

## Left out

- Provider internals: how sessions are found, how the `profiles` row is selected (its
  column list included), how the update and the storage upload work, and how a public
  URL is formed. Their outcomes are inputs. The public URL is a function
  `publicUrlOf` of the key, since resolving it is a local computation that does not fail.
- The error field of the session request: the source reads only `data.session`. A
  provider error with no session is therefore `Ok(None)`, and only a throw is `Fails`.
- A malformed provider response (for instance a successful profile query with no row)
  is not modelled; a successful query always carries a row.
- The user record: only its `id` is used by the store, so the other attributes of the
  provider's user are not modelled.
- The uploaded file's contents: only its name is used for the key.
- `Date.now()`: the timestamp is an input natural number. JavaScript writes numbers of
  10^21 or more (22 digits or more) in exponent form; `DecimalString` covers only plain decimal text,
  which is exact for any millisecond clock value.
- Logging through `console.error`: output only.
- Pinia's `defineStore`, `reactive` and `toRefs`: wiring. Because `toRefs` exposes the
  fields as writable, the class methods do not require the invariant. Instead they
  promise to keep it.
- Asynchrony: each operation is one sequential step with its awaited sub-calls inlined.
  Interleaving of two operations, and a request that never answers (which would leave
  `loading` true), are not modelled.
- `app/types/venue.d.ts` is not part of this model: it declares types only.
