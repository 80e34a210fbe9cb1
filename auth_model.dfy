/** The session/profile state of the authentication store and what each of its
    operations does to it, as pure step functions. Every call to the identity and
    storage provider is an input (`Call`): the outcome the provider gives. Every
    request the store sends is an output (`Step.calls`), so that "no remote call"
    can be stated. */
module AuthModel {
  import opened AvatarPaths

  datatype Option<+T> = None | Some(value: T)

  /** The authenticated identity; only its id is used by the store. */
  datatype User = User(id: string)

  /** A session as returned by the identity provider. */
  datatype Session = Session(user: User)

  /** A row of the `profiles` table, every column optional. It is also the shape of
      a partial update: an absent field is left unchanged by the provider. */
  datatype Profile = Profile(
    id: Option<string>,
    name: Option<string>,
    email: Option<string>,
    username: Option<string>,
    avatarUrl: Option<string>,
    bio: Option<string>)

  /** The update that sets only the avatar URL. */
  function AvatarPatch(url: string): (patch: Profile)
    ensures patch.avatarUrl == Some(url)
    ensures patch.id == patch.name == patch.email == patch.username == patch.bio == None
  {
    Profile(None, None, None, None, Some(url), None)
  }

  /** The error value a provider call returned or threw. */
  datatype Failure = Failure(detail: string)

  /** The outcome of one provider call: its data, or an error (returned or thrown;
      the store handles both alike, except for the session request, whose returned
      error it ignores: that case is `Ok(None)`). */
  datatype Call<+T> = Ok(value: T) | Fails(failure: Failure)

  /** The `error` member of a failed result. */
  datatype Problem = Message(text: string) | Remote(failure: Failure)

  const NotAuthenticated: Problem := Message("Not authenticated")

  /** `{ success: true }` or `{ error }`. */
  datatype UpdateResult = Updated | UpdateFailed(error: Problem)

  /** `{ publicUrl }` or `{ error }`. */
  datatype UploadResult = Uploaded(publicUrl: string) | UploadFailed(error: Problem)

  /** The storage bucket that receives avatars. */
  const AvatarBucket: string := "avatars"

  /** A request sent to the provider. */
  datatype Request =
    | GetSession
    | SelectProfile(userId: string)
    | UpdateProfileRow(userId: string, patch: Profile)
    | UploadObject(bucket: string, path: string)
    | SignOutSession

  /** The store's five fields. */
  datatype AuthState = AuthState(
    modal: bool,
    hydrated: bool,
    user: Option<User>,
    profile: Option<Profile>,
    loading: bool)

  /** The state the store is created with. */
  const Initial: AuthState := AuthState(false, false, None, None, false)

  /** A profile is only held for a signed-in user. */
  predicate Consistent(s: AuthState) {
    s.profile.Some? ==> s.user.Some?
  }

  /** The guard `state.user?.id`: a user is present and its id is a non-empty string. */
  predicate HasUserId(s: AuthState)
    ensures HasUserId(s) ==> s.user.Some?
    ensures s.user.Some? && s.user.value.id == "" ==> !HasUserId(s)
  {
    s.user.Some? && s.user.value.id != ""
  }

  /** The store after an operation, what the operation returned, and the requests it
      sent, in order. */
  datatype Step<+R> = Step(state: AuthState, result: R, calls: seq<Request>)

  /** `fetchUserProfile()`: without a user id nothing happens; otherwise the profile
      row is requested and, if it arrives, replaces `profile` wholesale; an error
      leaves `profile` as it was. */
  function ProfileFetched(s: AuthState, query: Call<Profile>): (r: Step<()>)
    ensures r.state == s.(profile := r.state.profile)
    ensures !HasUserId(s) ==> r.state == s && r.calls == []
    ensures HasUserId(s) ==> r.calls == [SelectProfile(s.user.value.id)]
    ensures HasUserId(s) && query.Ok? ==> r.state.profile == Some(query.value)
    ensures query.Fails? ==> r.state == s
    ensures Consistent(s) ==> Consistent(r.state)
  {
    if !HasUserId(s) then Step(s, (), [])
    else
      var calls := [SelectProfile(s.user.value.id)];
      match query
      case Ok(data) => Step(s.(profile := Some(data)), (), calls)
      case Fails(_) => Step(s, (), calls)
  }

  /** `init()`: `loading` is raised, the session is requested and, if one is found,
      its user is stored and the profile fetched. `hydrated` is raised only when the
      session request does not throw; `loading` is lowered whatever happens. */
  function Initialized(s: AuthState, session: Call<Option<Session>>, query: Call<Profile>)
    : (r: Step<()>)
    ensures !r.state.loading && r.state.modal == s.modal
    ensures r.state.hydrated == (session.Ok? || s.hydrated)
    ensures |r.calls| >= 1 && r.calls[0] == GetSession
    ensures session.Ok? && session.value.Some? ==>
              var u := session.value.value.user;
              && r.state.user == Some(u)
              && r.state.profile == (if u.id != "" && query.Ok? then Some(query.value) else s.profile)
              && r.calls == [GetSession] + (if u.id != "" then [SelectProfile(u.id)] else [])
    ensures !(session.Ok? && session.value.Some?) ==>
              r.state.user == s.user && r.state.profile == s.profile && r.calls == [GetSession]
    ensures Consistent(s) ==> Consistent(r.state)
  {
    var busy := s.(loading := true);
    match session
    case Fails(_) => Step(busy.(loading := false), (), [GetSession])
    case Ok(None) => Step(busy.(hydrated := true, loading := false), (), [GetSession])
    case Ok(Some(found)) =>
      var fetched := ProfileFetched(busy.(user := Some(found.user)), query);
      Step(fetched.state.(hydrated := true, loading := false), (), [GetSession] + fetched.calls)
  }

  /** `updateProfile(patch)`: without a user id it returns "Not authenticated" and
      sends nothing. Otherwise it sends the update; if that fails it returns the error
      and leaves the state alone; if it succeeds it re-fetches the profile and
      returns success, whether or not the re-fetch succeeds. */
  function ProfileUpdated(s: AuthState, patch: Profile, update: Call<()>, query: Call<Profile>)
    : (r: Step<UpdateResult>)
    ensures r.state == s.(profile := r.state.profile)
    ensures !HasUserId(s) ==> r == Step(s, UpdateFailed(NotAuthenticated), [])
    ensures HasUserId(s) ==> |r.calls| >= 1 && r.calls[0] == UpdateProfileRow(s.user.value.id, patch)
    ensures r.result.Updated? <==> HasUserId(s) && update.Ok?
    ensures HasUserId(s) && update.Fails? ==>
              r == Step(s, UpdateFailed(Remote(update.failure)), [UpdateProfileRow(s.user.value.id, patch)])
    ensures r.result.Updated? ==>
              && r.state.profile == (if query.Ok? then Some(query.value) else s.profile)
              && r.calls[1..] == [SelectProfile(s.user.value.id)]
    ensures Consistent(s) ==> Consistent(r.state)
  {
    if !HasUserId(s) then Step(s, UpdateFailed(NotAuthenticated), [])
    else
      var sent := [UpdateProfileRow(s.user.value.id, patch)];
      match update
      case Fails(e) => Step(s, UpdateFailed(Remote(e)), sent)
      case Ok(_) =>
        var fetched := ProfileFetched(s, query);
        Step(fetched.state, Updated, sent + fetched.calls)
  }

  /** `uploadAvatar(file)`: without a user id it returns "Not authenticated" and sends
      nothing. Otherwise it uploads the file under `AvatarPath` in the avatars bucket;
      if that fails it returns the error and updates nothing. If it succeeds it
      resolves the public URL, sends it through `updateProfile` and returns the URL,
      whatever that update's outcome. */
  function AvatarUploaded(
    s: AuthState, fileName: string, timestamp: nat, upload: Call<()>,
    publicUrlOf: string -> string, update: Call<()>, query: Call<Profile>)
    : (r: Step<UploadResult>)
    ensures r.state == s.(profile := r.state.profile)
    ensures !HasUserId(s) ==> r == Step(s, UploadFailed(NotAuthenticated), [])
    ensures HasUserId(s) ==>
              && |r.calls| >= 1
              && r.calls[0] == UploadObject(AvatarBucket, AvatarPath(s.user.value.id, timestamp, fileName))
    ensures r.result.Uploaded? <==> HasUserId(s) && upload.Ok?
    ensures HasUserId(s) && upload.Fails? ==>
              r.state == s && r.result == UploadFailed(Remote(upload.failure)) && |r.calls| == 1
    ensures r.result.Uploaded? ==>
              var url := publicUrlOf(AvatarPath(s.user.value.id, timestamp, fileName));
              && r.result.publicUrl == url
              && r.calls == [ UploadObject(AvatarBucket, AvatarPath(s.user.value.id, timestamp, fileName)),
                              UpdateProfileRow(s.user.value.id, AvatarPatch(url)) ]
                           + (if update.Ok? then [SelectProfile(s.user.value.id)] else [])
              && r.state.profile == (if update.Ok? && query.Ok? then Some(query.value) else s.profile)
    ensures Consistent(s) ==> Consistent(r.state)
  {
    if !HasUserId(s) then Step(s, UploadFailed(NotAuthenticated), [])
    else
      var path := AvatarPath(s.user.value.id, timestamp, fileName);
      var sent := [UploadObject(AvatarBucket, path)];
      match upload
      case Fails(e) => Step(s, UploadFailed(Remote(e)), sent)
      case Ok(_) =>
        var url := publicUrlOf(path);
        var updated := ProfileUpdated(s, AvatarPatch(url), update, query);
        Step(updated.state, Uploaded(url), sent + updated.calls)
  }

  /** `signOut()`: asks the provider to end the session; only if that succeeds are
      `user` and `profile` cleared. `modal`, `hydrated` and `loading` are never
      touched. */
  function SignedOut(s: AuthState, outcome: Call<()>): (r: Step<()>)
    ensures r.calls == [SignOutSession]
    ensures r.state.modal == s.modal && r.state.hydrated == s.hydrated && r.state.loading == s.loading
    ensures outcome.Ok? ==> r.state.user == None && r.state.profile == None
    ensures outcome.Fails? ==> r.state == s
    ensures Consistent(s) ==> Consistent(r.state)
  {
    match outcome
    case Ok(_) => Step(s.(user := None, profile := None), (), [SignOutSession])
    case Fails(_) => Step(s, (), [SignOutSession])
  }

  /** `toggleModal(value?)`: sets `modal` to the value given, or negates it when none
      is given; nothing else changes. */
  function ModalToggled(s: AuthState, value: Option<bool>): (r: AuthState)
    ensures r == s.(modal := r.modal)
    ensures value.Some? ==> r.modal == value.value
    ensures value.None? ==> r.modal == !s.modal
  {
    s.(modal := if value.Some? then value.value else !s.modal)
  }

  /** Setting the modal to a fixed value twice is the same as setting it once. */
  lemma ToggleModalIdempotent(s: AuthState, v: bool)
    ensures ModalToggled(ModalToggled(s, Some(v)), Some(v)) == ModalToggled(s, Some(v))
  {
  }

  /** Flipping the modal twice gives the state back. */
  lemma ToggleModalTwiceRestores(s: AuthState)
    ensures ModalToggled(ModalToggled(s, None), None) == s
  {
  }

  /** One call of one of the store's operations, with the outcomes of the provider
      calls it makes. */
  datatype Operation =
    | InitOp(session: Call<Option<Session>>, query: Call<Profile>)
    | FetchUserProfileOp(query: Call<Profile>)
    | UpdateProfileOp(patch: Profile, update: Call<()>, query: Call<Profile>)
    | UploadAvatarOp(
        fileName: string, timestamp: nat, upload: Call<()>,
        publicUrlOf: string -> string, update: Call<()>, query: Call<Profile>)
    | SignOutOp(outcome: Call<()>)
    | ToggleModalOp(value: Option<bool>)

  /** The state after one operation. */
  function Apply(s: AuthState, op: Operation): AuthState {
    match op
    case InitOp(session, query) => Initialized(s, session, query).state
    case FetchUserProfileOp(query) => ProfileFetched(s, query).state
    case UpdateProfileOp(patch, update, query) => ProfileUpdated(s, patch, update, query).state
    case UploadAvatarOp(fileName, timestamp, upload, publicUrlOf, update, query) =>
      AvatarUploaded(s, fileName, timestamp, upload, publicUrlOf, update, query).state
    case SignOutOp(outcome) => SignedOut(s, outcome).state
    case ToggleModalOp(value) => ModalToggled(s, value)
  }

  /** The state after the operations, one after the other. */
  function Run(s: AuthState, ops: seq<Operation>): AuthState
    decreases |ops|
  {
    if ops == [] then s else Run(Apply(s, ops[0]), ops[1..])
  }

  /** Between operations the store is at rest: consistent and not loading. */
  predicate AtRest(s: AuthState) {
    Consistent(s) && !s.loading
  }

  /** Every operation keeps the store at rest. */
  lemma ApplyKeepsAtRest(s: AuthState, op: Operation)
    requires AtRest(s)
    ensures AtRest(Apply(s, op))
  {
  }

  /** Any sequence of operations keeps the store at rest. */
  lemma {:induction false} RunKeepsAtRest(s: AuthState, ops: seq<Operation>)
    requires AtRest(s)
    ensures AtRest(Run(s, ops))
    decreases |ops|
  {
    if ops != [] {
      ApplyKeepsAtRest(s, ops[0]);
      RunKeepsAtRest(Apply(s, ops[0]), ops[1..]);
    }
  }

  /** From the initial state, whatever the operations and the provider's answers, a
      profile is only ever held together with a user, and no operation is left
      loading. */
  lemma ReachableStatesAtRest(ops: seq<Operation>)
    ensures Consistent(Run(Initial, ops))
    ensures !Run(Initial, ops).loading
  {
    RunKeepsAtRest(Initial, ops);
  }

  /** Once hydrated, the store stays hydrated: no operation lowers the flag. */
  lemma {:induction false} RunKeepsHydrated(s: AuthState, ops: seq<Operation>)
    requires s.hydrated
    ensures Run(s, ops).hydrated
    decreases |ops|
  {
    if ops != [] {
      RunKeepsHydrated(Apply(s, ops[0]), ops[1..]);
    }
  }

  /** A user "u1" signs in, sets a bio, and signs out, every provider call
      succeeding: the store follows the server's rows and ends signed out. */
  lemma SignInUpdateSignOut(first: Profile, refreshed: Profile)
    requires refreshed.bio == Some("hi")
    ensures var bio := Profile(None, None, None, None, None, Some("hi"));
            var signedIn := Initialized(Initial, Ok(Some(Session(User("u1")))), Ok(first));
            var updated := ProfileUpdated(signedIn.state, bio, Ok(()), Ok(refreshed));
            var signedOut := SignedOut(updated.state, Ok(()));
            && signedIn.state.user == Some(User("u1"))
            && signedIn.state.profile == Some(first)
            && signedIn.state.hydrated
            && signedIn.calls == [GetSession, SelectProfile("u1")]
            && updated.result == Updated
            && updated.state.profile.Some? && updated.state.profile.value.bio == Some("hi")
            && updated.calls == [UpdateProfileRow("u1", bio), SelectProfile("u1")]
            && signedOut.state.user == None && signedOut.state.profile == None
  {
  }
}
