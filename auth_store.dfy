/** The authentication store itself: one object holding the five fields, updated in
    place by its operations. Each operation is proved to do exactly what its step
    function in `AuthModel` describes, to the fields and to the requests sent. */
module AuthStore {
  import opened AvatarPaths
  import opened AuthModel

  class Store {
    var modal: bool
    var hydrated: bool
    var user: Option<User>
    var profile: Option<Profile>
    var loading: bool

    /** The requests sent to the provider so far, oldest first. */
    ghost var calls: seq<Request>

    /** The five fields as one value. */
    function State(): AuthState
      reads this
    {
      AuthState(modal, hydrated, user, profile, loading)
    }

    ghost predicate Valid()
      reads this
    {
      Consistent(State())
    }

    /** A new store: modal closed, not hydrated, nobody signed in, not loading. */
    constructor ()
      ensures State() == Initial && calls == []
      ensures Valid()
    {
      modal := false;
      hydrated := false;
      user := None;
      profile := None;
      loading := false;
      calls := [];
    }

    method FetchUserProfile(query: Call<Profile>)
      modifies this
      ensures State() == ProfileFetched(old(State()), query).state
      ensures calls == old(calls) + ProfileFetched(old(State()), query).calls
      ensures old(Valid()) ==> Valid()
    {
      if user.None? || user.value.id == "" {
        return;
      }
      calls := calls + [SelectProfile(user.value.id)];
      match query {
        case Ok(data) =>
          profile := Some(data);
        case Fails(_) =>
      }
    }

    method Init(session: Call<Option<Session>>, query: Call<Profile>)
      modifies this
      ensures State() == Initialized(old(State()), session, query).state
      ensures calls == old(calls) + Initialized(old(State()), session, query).calls
      ensures old(Valid()) ==> Valid()
    {
      loading := true;
      calls := calls + [GetSession];
      match session {
        case Fails(_) =>
        case Ok(found) =>
          if found.Some? {
            user := Some(found.value.user);
            FetchUserProfile(query);
          }
          hydrated := true;
      }
      loading := false;
    }

    method UpdateProfile(patch: Profile, update: Call<()>, query: Call<Profile>)
      returns (result: UpdateResult)
      modifies this
      ensures State() == ProfileUpdated(old(State()), patch, update, query).state
      ensures result == ProfileUpdated(old(State()), patch, update, query).result
      ensures calls == old(calls) + ProfileUpdated(old(State()), patch, update, query).calls
      ensures old(Valid()) ==> Valid()
    {
      if user.None? || user.value.id == "" {
        return UpdateFailed(NotAuthenticated);
      }
      calls := calls + [UpdateProfileRow(user.value.id, patch)];
      match update {
        case Fails(e) =>
          result := UpdateFailed(Remote(e));
        case Ok(_) =>
          FetchUserProfile(query);
          result := Updated;
      }
    }

    method UploadAvatar(
      fileName: string, timestamp: nat, upload: Call<()>,
      publicUrlOf: string -> string, update: Call<()>, query: Call<Profile>)
      returns (result: UploadResult)
      modifies this
      ensures State()
           == AvatarUploaded(old(State()), fileName, timestamp, upload, publicUrlOf, update, query).state
      ensures result
           == AvatarUploaded(old(State()), fileName, timestamp, upload, publicUrlOf, update, query).result
      ensures calls == old(calls)
           + AvatarUploaded(old(State()), fileName, timestamp, upload, publicUrlOf, update, query).calls
      ensures old(Valid()) ==> Valid()
    {
      if user.None? || user.value.id == "" {
        return UploadFailed(NotAuthenticated);
      }
      var path := AvatarPath(user.value.id, timestamp, fileName);
      calls := calls + [UploadObject(AvatarBucket, path)];
      match upload {
        case Fails(e) =>
          result := UploadFailed(Remote(e));
        case Ok(_) =>
          var url := publicUrlOf(path);
          var ignored := UpdateProfile(AvatarPatch(url), update, query);
          result := Uploaded(url);
      }
    }

    method SignOut(outcome: Call<()>)
      modifies this
      ensures State() == SignedOut(old(State()), outcome).state
      ensures calls == old(calls) + SignedOut(old(State()), outcome).calls
      ensures old(Valid()) ==> Valid()
    {
      calls := calls + [SignOutSession];
      match outcome {
        case Ok(_) =>
          user := None;
          profile := None;
        case Fails(_) =>
      }
    }

    method ToggleModal(value: Option<bool>)
      modifies this
      ensures State() == ModalToggled(old(State()), value)
      ensures calls == old(calls)
      ensures old(Valid()) ==> Valid()
    {
      modal := if value.Some? then value.value else !modal;
    }
  }
}
