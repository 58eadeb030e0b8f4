/** The profile context of src/context/ProfileContext.tsx: the signed-in patient's
    profile as loaded from the server, the loading flag, and the local change of the
    profile picture after an upload. */
module Profile {
  import opened Common
  import Api

  /** The profile with its picture set to `uri`; every other field is kept. */
  function WithImage(p: Api.Profile, uri: string): (q: Api.Profile)
    ensures q.extras.profileImage == Some(uri)
    ensures q.extras.(profileImage := p.extras.profileImage) == p.extras
    ensures q.(extras := p.extras) == p
  {
    p.(extras := p.extras.(profileImage := Some(uri)))
  }

  /** Setting the same picture again changes nothing. */
  lemma WithImageIdempotent(p: Api.Profile, uri: string)
    ensures WithImage(WithImage(p, uri), uri) == WithImage(p, uri)
  {
  }

  /** Only the last picture set counts. */
  lemma WithImageLastWins(p: Api.Profile, first: string, second: string)
    ensures WithImage(WithImage(p, first), second) == WithImage(p, second)
  {
  }

  /** `updateProfileImage` on the state: nothing happens while no profile is loaded. */
  function UpdatedProfile(profile: Option<Api.Profile>, uri: string): (r: Option<Api.Profile>)
    ensures profile.None? ==> r.None?
    ensures profile.Some? ==> r == Some(WithImage(profile.value, uri))
  {
    if profile.Some? then Some(WithImage(profile.value, uri)) else None
  }

  /** What `loadProfile` leaves as the profile: the fetched one on success, the one
      already held on any failure. */
  function AfterLoad(held: Option<Api.Profile>, fetched: Result<Api.ProfileResponse, string>): (r: Option<Api.Profile>)
    ensures fetched.Success? ==> r == Some(fetched.value.profile)
    ensures fetched.Failure? ==> r == held
  {
    if fetched.Success? then Some(fetched.value.profile) else held
  }

  /** A failed load never loses a loaded profile, and a successful one always leaves one. */
  lemma LoadKeepsProfile(held: Option<Api.Profile>, fetched: Result<Api.ProfileResponse, string>)
    ensures held.Some? ==> AfterLoad(held, fetched).Some?
    ensures fetched.Success? ==> AfterLoad(held, fetched).Some?
    ensures AfterLoad(held, fetched).None? <==> held.None? && fetched.Failure?
  {
  }

  class ProfileProvider {
    var profile: Option<Api.Profile>
    var loading: bool

    /** The state before the first load: no profile, loading. */
    constructor ()
      ensures profile.None? && loading
    {
      profile := None;
      loading := true;
    }

    /** `loadProfile`: fetch through the API service; keep the old profile on error;
        the loading flag ends false either way. */
    method LoadProfile(api: Api.ApiService, reply: Api.Reply<Api.ProfileResponse>)
      modifies this`profile, this`loading
      ensures !loading
      ensures !Truthy(api.Token()) ==> profile == old(profile)
      ensures Truthy(api.Token()) ==> profile == AfterLoad(old(profile), Api.Outcome(reply))
    {
      loading := true;
      var response, _ := api.GetProfile(reply);
      profile := AfterLoad(profile, response);
      loading := false;
    }

    /** `refreshProfile`. */
    method RefreshProfile(api: Api.ApiService, reply: Api.Reply<Api.ProfileResponse>)
      modifies this`profile, this`loading
      ensures !loading
      ensures !Truthy(api.Token()) ==> profile == old(profile)
      ensures Truthy(api.Token()) ==> profile == AfterLoad(old(profile), Api.Outcome(reply))
    {
      LoadProfile(api, reply);
    }

    /** `updateProfileImage`. */
    method UpdateProfileImage(uri: string)
      modifies this`profile
      ensures profile == UpdatedProfile(old(profile), uri)
    {
      if profile.Some? {
        profile := Some(WithImage(profile.value, uri));
      }
    }
  }
}
