/** The profile page (src/pages/ProfilePage.tsx): loading the signed-in
    user's profile into an edit form, and saving the form back. */
module Profile {
  import opened Wrappers
  import opened Strings

  /** A row of the profiles table; every field but the id may be null. */
  datatype Profile = Profile(
    id: string, nome: Option<string>, tipo: Option<string>,
    avatarUrl: Option<string>, bio: Option<string>)

  /** The signed-in user as the auth service reports it. */
  datatype AuthUser = AuthUser(id: string, email: Option<string>)

  datatype PostgrestError = PostgrestError(code: string, message: string)

  /** The answer to the single-row profile lookup. */
  datatype ProfileResponse = ProfileResponse(data: Option<Profile>, error: Option<PostgrestError>)

  /** The error code the lookup returns when there is no row. */
  const NoRowsCode := "PGRST116"

  /** An error counts as a failure unless it only says "no row". */
  predicate IsFailure(error: Option<PostgrestError>) {
    error.Some? && error.value.code != NoRowsCode
  }

  /** The four editable text fields. */
  datatype ProfileForm = ProfileForm(nome: string, tipo: string, bio: string, avatarUrl: string)

  /** The form a loaded profile fills in: each null field becomes ''. */
  function FormOf(p: Profile): (f: ProfileForm)
    ensures f.nome == (if p.nome.Some? then p.nome.value else "")
    ensures f.tipo == (if p.tipo.Some? then p.tipo.value else "")
    ensures f.bio == (if p.bio.Some? then p.bio.value else "")
    ensures f.avatarUrl == (if p.avatarUrl.Some? then p.avatarUrl.value else "")
  {
    ProfileForm(p.nome.GetOr(""), p.tipo.GetOr(""), p.bio.GetOr(""), p.avatarUrl.GetOr(""))
  }

  /** The record `handleUpdateProfile` upserts; `updatedAt` is the clock
      reading taken at that moment. */
  datatype ProfileUpdate = ProfileUpdate(
    id: string, nome: string, tipo: string, bio: string, avatarUrl: string, updatedAt: string)

  /** The avatar's fallback letter: from the email, else from the name, else
      'U'. It is always one character that upper-casing leaves alone. */
  function UserInitial(email: string, nome: string): (r: string)
    ensures |r| == 1 && UpperChar(r[0]) == r[0]
    ensures email != "" ==> r == [UpperChar(email[0])]
    ensures email == "" && nome != "" ==> r == [UpperChar(nome[0])]
    ensures email == "" && nome == "" ==> r == "U"
  {
    UpperCharIdempotent(if email != "" then email[0] else if nome != "" then nome[0] else 'U');
    if email != "" then [UpperChar(email[0])]
    else if nome != "" then [UpperChar(nome[0])]
    else "U"
  }

  /** The account type as the profile view shows it: never blank; an unset
      type reads 'Não informado', a set one is shown with its first character
      upper-cased and the rest as stored. */
  function TipoLabel(tipo: string): (r: string)
    ensures r != ""
    ensures tipo == "" ==> r == "Não informado"
    ensures tipo != "" ==> |r| == |tipo| && r[0] == UpperChar(tipo[0]) && r[1..] == tipo[1..]
  {
    if tipo == "" then "Não informado" else Capitalize(tipo)
  }

  /** The profile page's state cells. */
  class ProfilePage {
    var profile: Option<Profile>
    var loading: bool
    var editing: bool
    var nome: string
    var tipo: string
    var bio: string
    var avatarUrl: string
    var email: string

    constructor ()
      ensures profile.None? && loading && !editing && email == ""
      ensures Form() == ProfileForm("", "", "", "")
    {
      profile, loading, editing := None, true, false;
      nome, tipo, bio, avatarUrl, email := "", "", "", "", "";
    }

    function Form(): ProfileForm
      reads this
    {
      ProfileForm(nome, tipo, bio, avatarUrl)
    }

    /** The fallback letter shown in the avatar: a single character that
        upper-casing leaves alone. */
    function Initial(): (r: string)
      reads this
      ensures |r| == 1 && UpperChar(r[0]) == r[0]
    {
      UserInitial(email, nome)
    }

    /** fetchProfile up to its first await. */
    method BeginFetchProfile()
      modifies this`loading
      ensures loading
    {
      loading := true;
    }

    /** fetchProfile after the user and profile lookups answer (the profile
        lookup is only consulted when there is a user). A "no row" error is
        not reported; any other error is reported and leaves the form as it
        was. The loading flag drops either way. */
    method FinishFetchProfile(user: Option<AuthUser>, response: ProfileResponse) returns (reported: bool)
      modifies this`email, this`profile, this`nome, this`tipo, this`bio, this`avatarUrl, this`loading
      ensures !loading
      ensures reported <==> user.Some? && IsFailure(response.error)
      ensures email == if user.Some? then user.value.email.GetOr("") else old(email)
      ensures user.Some? && !IsFailure(response.error) && response.data.Some? ==>
                profile == response.data && Form() == FormOf(response.data.value)
      ensures user.None? || IsFailure(response.error) || response.data.None? ==>
                profile == old(profile) && Form() == old(Form())
    {
      reported := false;
      if user.Some? {
        email := user.value.email.GetOr("");
        if response.error.Some? && response.error.value.code != NoRowsCode {
          reported := true;
        } else if response.data.Some? {
          var data := response.data.value;
          profile := Some(data);
          nome := data.nome.GetOr("");
          tipo := data.tipo.GetOr("");
          bio := data.bio.GetOr("");
          avatarUrl := data.avatarUrl.GetOr("");
        }
      }
      loading := false;
    }

    /** The Edit button. */
    method StartEditing()
      modifies this`editing
      ensures editing
    {
      editing := true;
    }

    /** The Cancel button: leave edit mode and ask for a reload of the
        profile (`refresh`), which throws the edits away. */
    method CancelEditing() returns (refresh: bool)
      modifies this`editing
      ensures !editing
      ensures refresh
    {
      editing := false;
      refresh := true;
    }

    /** handleUpdateProfile up to its first await. */
    method BeginUpdateProfile()
      modifies this`loading
      ensures loading
    {
      loading := true;
    }

    /** handleUpdateProfile after the user lookup and the upsert answer. With a
        user, the upserted record carries the user's id and the current form.
        A successful upsert leaves edit mode and asks for a reload (`refresh`);
        a failed one leaves edit mode as it was. The loading flag drops. */
    method FinishUpdateProfile(user: Option<AuthUser>, now: string, upsertError: Option<PostgrestError>)
      returns (update: Option<ProfileUpdate>, refresh: bool)
      modifies this`editing, this`loading
      ensures !loading
      ensures update == if user.Some? then Some(ProfileUpdate(user.value.id, nome, tipo, bio, avatarUrl, now)) else None
      ensures refresh <==> user.Some? && upsertError.None?
      ensures editing == if refresh then false else old(editing)
    {
      update, refresh := None, false;
      if user.Some? {
        update := Some(ProfileUpdate(user.value.id, nome, tipo, bio, avatarUrl, now));
        if upsertError.None? {
          editing := false;
          refresh := true;
        }
      }
      loading := false;
    }
  }
}
