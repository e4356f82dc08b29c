/** The profile edit form: the fields it starts from, and the merge of the
    server's answer into the profile after a successful save. */
module ProfileEditForm {
  import opened Base
  import opened UiTypes

  datatype FormFields = FormFields(name: string, username: string, email: string, bio: string)

  /** The user fields `updateUserProfile` answers with; each may be null. */
  datatype UpdatedUser = UpdatedUser(name: Option<string>, username: Option<string>, email: Option<string>,
                                     biography: Option<string>)

  /** The initial form: the profile's values, with a missing username or
      bio as "". */
  function InitialForm(value: UserProfile): (r: FormFields)
    ensures r.name == value.name && r.email == value.email
    ensures r.username == value.username.GetOr("") && r.bio == value.bio.GetOr("")
  {
    FormFields(value.name, value.username.GetOr(""), value.email, value.bio.GetOr(""))
  }

  /** The profile handed to `onChange`: each of the four fields takes the
      server's value when it is not null, else the form's; every other field
      of the profile is carried over. */
  function Merged(value: UserProfile, form: FormFields, updated: UpdatedUser): (r: UserProfile)
    ensures r.name == updated.name.GetOr(form.name) && r.email == updated.email.GetOr(form.email)
    ensures r.username == Some(updated.username.GetOr(form.username))
    ensures r.bio == Some(updated.biography.GetOr(form.bio))
    ensures r == value.(name := r.name, username := r.username, email := r.email, bio := r.bio)
  {
    value.(name := updated.name.GetOr(form.name), username := Some(updated.username.GetOr(form.username)),
           email := updated.email.GetOr(form.email), bio := Some(updated.biography.GetOr(form.bio)))
  }

  /** When the server echoes nothing, saving the untouched form gives the
      profile back, up to a missing username or bio becoming "". */
  lemma UntouchedSaveKeepsProfile(value: UserProfile)
    requires value.username.Some? && value.bio.Some?
    ensures Merged(value, InitialForm(value), UpdatedUser(None, None, None, None)) == value
  {
  }

  class EditForm {
    const value: UserProfile
    const form: FormFields
    var saving: bool
    /** the patches sent to `updateUserProfile`, in order */
    var requests: seq<FormFields>
    /** the profiles handed to `onChange`, in order */
    var changes: seq<UserProfile>
    /** how many times `onSaved` was called */
    var savedCalls: nat

    constructor (v: UserProfile)
      ensures value == v && form == InitialForm(v)
      ensures !saving && requests == [] && changes == [] && savedCalls == 0
    {
      value := v;
      form := InitialForm(v);
      saving := false;
      requests := [];
      changes := [];
      savedCalls := 0;
    }

    /** `save`: the form is sent as the patch; a successful update hands the merged profile to `onChange`
        and then calls `onSaved`; a failure calls neither. `saving` is false
        afterwards either way. */
    method Save(updated: Net<UpdatedUser>)
      modifies this
      ensures !saving && requests == old(requests) + [form]
      ensures updated.Ok? ==> changes == old(changes) + [Merged(value, form, updated.value)] &&
                              savedCalls == old(savedCalls) + 1
      ensures updated.Fail? ==> changes == old(changes) && savedCalls == old(savedCalls)
    {
      saving := true;
      requests := requests + [form];
      if updated.Ok? {
        changes := changes + [Merged(value, form, updated.value)];
        savedCalls := savedCalls + 1;
      }
      saving := false;
    }
  }
}
