/** The profiles store: one state cell holding the profile list, a loading
    flag and an error. Every async operation sets the loading flag, awaits
    one remote call (an outcome parameter here) and applies a pure update to
    the cell. */
module ProfilesStore {
  import opened Remote
  import opened Lists

  datatype Cv = Cv(id: string, fileName: string, url: string, contentType: string, size: int, uploadedAt: string)

  datatype Profile = Profile(
    id: string,
    title: string,
    summary: string,
    skills: seq<string>,
    cv: Option<Cv>,
    createdAt: string,
    updatedAt: Option<string>)

  datatype ProfilesState = ProfilesState(profiles: seq<Profile>, isLoading: bool, error: Option<string>)

  /** The request body of profile creation without a CV. */
  datatype ProfileCreateRequest = ProfileCreateRequest(title: string, summary: string, skills: seq<string>)

  /** The remote call `createProfile` makes; the file is opaque. */
  datatype CreateCall<F> =
    | CreateWithCv(title: string, summary: string, skills: seq<string>, file: F)
    | CreateWithoutCv(request: ProfileCreateRequest)

  /** `Partial<ProfileCreateRequest>` as `updateProfile` forwards it. */
  datatype ProfilePatch = ProfilePatch(title: Option<string>, summary: Option<string>, skills: Option<seq<string>>)

  const INITIAL: ProfilesState := ProfilesState([], false, None)

  function ProfileId(p: Profile): string { p.id }

  /** `{ ...state, isLoading: true, error: null }`. */
  function Loading(s: ProfilesState): ProfilesState {
    s.(isLoading := true, error := None)
  }

  /** The catch branches: `error instanceof Error ? error.message : fallback`
      and the loading flag cleared. */
  function Failed(s: ProfilesState, e: Thrown, fallback: string): ProfilesState {
    s.(error := Some(ErrorMessageOr(e, fallback)), isLoading := false)
  }

  function WithoutCv(p: Profile): Profile { p.(cv := None) }

  function CvSetter(cv: Cv): Profile -> Profile {
    (p: Profile) => p.(cv := Some(cv))
  }

  /** The endpoint choice of `createProfile`: with a CV exactly when a file
      is given, forwarding the fields unchanged. */
  function CreateCallFor<F>(title: string, summary: string, skills: seq<string>, cvFile: Option<F>): (c: CreateCall<F>)
    ensures c.CreateWithCv? <==> cvFile.Some?
    ensures c.CreateWithCv? ==> c == CreateWithCv(title, summary, skills, cvFile.value)
    ensures c.CreateWithoutCv? ==> c.request == ProfileCreateRequest(title, summary, skills)
  {
    match cvFile
    case Some(f) => CreateWithCv(title, summary, skills, f)
    case None => CreateWithoutCv(ProfileCreateRequest(title, summary, skills))
  }

  /** Replacing by id puts the response at every position holding the id,
      and doing it again changes nothing more. */
  lemma ReplaceProfileLaws(ps: seq<Profile>, id: string, updated: Profile)
    requires updated.id == id
    ensures var r := ReplaceWithId(ps, ProfileId, id, updated);
      && (forall k :: 0 <= k < |r| ==> (r[k].id == id <==> ps[k].id == id))
      && ReplaceWithId(r, ProfileId, id, updated) == r
  {
  }

  /** Removing by id leaves no profile with the id, and removing again
      changes nothing. */
  lemma RemoveProfileLaws(ps: seq<Profile>, id: string)
    ensures var r := RemoveWithId(ps, ProfileId, id);
      && (forall k :: 0 <= k < |r| ==> r[k].id != id)
      && RemoveWithId(r, ProfileId, id) == r
  {
    RemoveWithIdMeaning(ps, ProfileId, id);
    RemoveAbsentId(RemoveWithId(ps, ProfileId, id), ProfileId, id);
  }

  /** Changing the CV of one profile keeps every profile's id, and touches
      only the CV of the profiles with that id. */
  lemma CvUpdateLaws(ps: seq<Profile>, id: string, cv: Cv)
    ensures var cleared, withCv := UpdateWithId(ps, ProfileId, id, WithoutCv), UpdateWithId(ps, ProfileId, id, CvSetter(cv));
      forall k :: 0 <= k < |ps| ==>
        && cleared[k].(cv := ps[k].cv) == ps[k] && withCv[k].(cv := ps[k].cv) == ps[k]
        && (ps[k].id == id ==> cleared[k].cv == None && withCv[k].cv == Some(cv))
        && (ps[k].id != id ==> cleared[k] == ps[k] && withCv[k] == ps[k])
  {
  }

  class Store {
    var state: ProfilesState

    constructor ()
      ensures state == INITIAL
    {
      state := INITIAL;
    }

    /** `loadProfiles()`. */
    method LoadProfiles(outcome: Outcome<seq<Profile>>)
      modifies this
      ensures outcome.Success? ==> state == old(state).(profiles := outcome.value, isLoading := false, error := None)
      ensures outcome.Failure? ==> state == Failed(old(state), outcome.error, "Failed to load profiles")
    {
      state := Loading(state);
      match outcome
      case Success(ps) =>
        state := state.(profiles := ps, isLoading := false);
      case Failure(e) =>
        state := Failed(state, e, "Failed to load profiles");
    }

    /** `createProfile(data)`: the call it makes, and what it returns or
        rethrows. */
    method CreateProfile<F>(title: string, summary: string, skills: seq<string>, cvFile: Option<F>, outcome: Outcome<Profile>)
      returns (call: CreateCall<F>, result: Outcome<Profile>)
      modifies this
      ensures call == CreateCallFor(title, summary, skills, cvFile)
      ensures result == outcome
      ensures outcome.Success? ==>
        state == old(state).(profiles := old(state).profiles + [outcome.value], isLoading := false, error := None)
      ensures outcome.Failure? ==> state == Failed(old(state), outcome.error, "Failed to create profile")
    {
      state := Loading(state);
      if cvFile.Some? {
        call := CreateWithCv(title, summary, skills, cvFile.value);
      } else {
        call := CreateWithoutCv(ProfileCreateRequest(title, summary, skills));
      }
      match outcome
      case Success(created) =>
        state := state.(profiles := state.profiles + [created], isLoading := false);
        result := Success(created);
      case Failure(e) =>
        state := Failed(state, e, "Failed to create profile");
        result := Failure(e);
    }

    /** `updateProfile(id, data)`; the patch goes to the server unchanged. */
    method UpdateProfile(profileId: string, patch: ProfilePatch, outcome: Outcome<Profile>) returns (result: Outcome<Profile>)
      modifies this
      ensures result == outcome
      ensures outcome.Success? ==>
        state == old(state).(profiles := ReplaceWithId(old(state).profiles, ProfileId, profileId, outcome.value),
                             isLoading := false, error := None)
      ensures outcome.Failure? ==> state == Failed(old(state), outcome.error, "Failed to update profile")
    {
      state := Loading(state);
      match outcome
      case Success(updated) =>
        state := state.(profiles := ReplaceWithId(state.profiles, ProfileId, profileId, updated), isLoading := false);
        result := Success(updated);
      case Failure(e) =>
        state := Failed(state, e, "Failed to update profile");
        result := Failure(e);
    }

    /** `deleteProfile(id)`; the result is the error it rethrows. */
    method DeleteProfile(profileId: string, outcome: Outcome<()>) returns (rethrown: Option<Thrown>)
      modifies this
      ensures outcome.Success? ==>
        rethrown == None &&
        state == old(state).(profiles := RemoveWithId(old(state).profiles, ProfileId, profileId), isLoading := false, error := None)
      ensures outcome.Failure? ==>
        rethrown == Some(outcome.error) && state == Failed(old(state), outcome.error, "Failed to delete profile")
    {
      state := Loading(state);
      match outcome
      case Success(_) =>
        state := state.(profiles := RemoveWithId(state.profiles, ProfileId, profileId), isLoading := false);
        rethrown := None;
      case Failure(e) =>
        state := Failed(state, e, "Failed to delete profile");
        rethrown := Some(e);
    }

    /** `downloadCV(cvId, fileName)`: the download link is left out; a
        failure sets the error, leaves the loading flag alone and rethrows. */
    method DownloadCv(cvId: string, fileName: string, outcome: Outcome<()>) returns (rethrown: Option<Thrown>)
      modifies this
      ensures outcome.Success? ==> rethrown == None && state == old(state)
      ensures outcome.Failure? ==>
        rethrown == Some(outcome.error)
        && state == old(state).(error := Some(ErrorMessageOr(outcome.error, "Failed to download CV")))
    {
      match outcome
      case Success(_) =>
        rethrown := None;
      case Failure(e) =>
        state := state.(error := Some(ErrorMessageOr(e, "Failed to download CV")));
        rethrown := Some(e);
    }

    /** `deleteCV(cvId, profileId)`. */
    method DeleteCv(cvId: string, profileId: string, outcome: Outcome<()>) returns (rethrown: Option<Thrown>)
      modifies this
      ensures outcome.Success? ==>
        rethrown == None &&
        state == old(state).(profiles := UpdateWithId(old(state).profiles, ProfileId, profileId, WithoutCv), isLoading := false, error := None)
      ensures outcome.Failure? ==>
        rethrown == Some(outcome.error) && state == Failed(old(state), outcome.error, "Failed to delete CV")
    {
      state := Loading(state);
      match outcome
      case Success(_) =>
        state := state.(profiles := UpdateWithId(state.profiles, ProfileId, profileId, WithoutCv), isLoading := false);
        rethrown := None;
      case Failure(e) =>
        state := Failed(state, e, "Failed to delete CV");
        rethrown := Some(e);
    }

    /** `replaceCVForProfile(profileId, file)`: never touches the loading
        flag or the error. */
    method ReplaceCvForProfile(profileId: string, outcome: Outcome<Cv>) returns (result: Outcome<Cv>)
      modifies this
      ensures result == outcome
      ensures outcome.Success? ==>
        state == old(state).(profiles := UpdateWithId(old(state).profiles, ProfileId, profileId, CvSetter(outcome.value)))
      ensures outcome.Failure? ==> state == old(state)
    {
      match outcome
      case Success(cv) =>
        state := state.(profiles := UpdateWithId(state.profiles, ProfileId, profileId, CvSetter(cv)));
        result := Success(cv);
      case Failure(e) =>
        result := Failure(e);
    }

    /** `clearError()`. */
    method ClearError()
      modifies this
      ensures state == old(state).(error := None)
    {
      state := state.(error := None);
    }

    /** `reset()`. */
    method Reset()
      modifies this
      ensures state == INITIAL
    {
      state := INITIAL;
    }
  }
}
