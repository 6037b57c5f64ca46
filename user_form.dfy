/** The user form dialog: a form record with a nested name and an error
    record with one entry per input. The password is required only when no
    user is being edited; the submitted record always carries an `id` key. */
module UserForm {
  import opened Wrappers
  import opened UserSlice
  import opened UserActions

  const FIRSTNAME_REQUIRED: string := "First name is required"
  const LASTNAME_REQUIRED: string := "Last name is required"
  const EMAIL_REQUIRED: string := "Email is required"
  const USERNAME_REQUIRED: string := "Username is required"
  const PASSWORD_REQUIRED: string := "Password is required"

  /** The form record; `id` is `None` for `undefined`. */
  datatype FormData = FormData(id: Option<int>, name: Name, email: string, username: string, password: string)

  datatype Errors = Errors(firstname: string, lastname: string, email: string, username: string, password: string)

  /** The `name` attribute of the input that changed. */
  datatype Field = FirstName | LastName | Email | Username | Password

  const BLANK: FormData := FormData(None, Name("", ""), "", "", "")

  const NO_ERRORS: Errors := Errors("", "", "", "", "")

  /** No error string is truthy. */
  predicate NoErrors(e: Errors)
  {
    e.firstname == "" && e.lastname == "" && e.email == "" && e.username == "" && e.password == ""
  }

  /** `validateForm`'s error record; `editing` is whether a user was passed
      in. Every required field that is empty yields its own message, and the
      form is valid exactly when the four identity fields are filled and,
      when adding, the password too. */
  function Validate(d: FormData, editing: bool): (e: Errors)
    ensures NoErrors(e) <==>
      d.name.firstname != "" && d.name.lastname != "" && d.email != "" && d.username != "" &&
      (editing || d.password != "")
    ensures e.firstname != "" <==> d.name.firstname == ""
    ensures e.lastname != "" <==> d.name.lastname == ""
    ensures e.email != "" <==> d.email == ""
    ensures e.username != "" <==> d.username == ""
    ensures e.password != "" <==> !editing && d.password == ""
    ensures e.firstname in {"", FIRSTNAME_REQUIRED} && e.lastname in {"", LASTNAME_REQUIRED}
    ensures e.email in {"", EMAIL_REQUIRED} && e.username in {"", USERNAME_REQUIRED}
    ensures e.password in {"", PASSWORD_REQUIRED}
  {
    Errors(if d.name.firstname != "" then "" else FIRSTNAME_REQUIRED,
           if d.name.lastname != "" then "" else LASTNAME_REQUIRED,
           if d.email != "" then "" else EMAIL_REQUIRED,
           if d.username != "" then "" else USERNAME_REQUIRED,
           if !editing && d.password == "" then PASSWORD_REQUIRED else "")
  }

  /** The form record as the submit handler passes it on: every key is
      present, `id` included even when it is undefined. */
  function AsUserFormData(d: FormData): (u: UserFormData)
    ensures u.id == Present(d.id) && u.password == Some(d.password)
    ensures u.name == d.name && u.email == d.email && u.username == d.username
    ensures u.address == None && u.phone == None
  {
    UserFormData(Present(d.id), d.name, d.email, d.username, Some(d.password), None, None)
  }

  class UserFormModal {
    var formData: FormData
    var errors: Errors

    /** The initial state of both records. */
    constructor ()
      ensures formData == BLANK && errors == NO_ERRORS
    {
      formData := BLANK;
      errors := NO_ERRORS;
    }

    /** The reset effect: id, name, email and username copied from the user
      and an empty password; without a user, the blank form with an
      undefined id. The errors are left as they were. */
    method Reset(user: Option<User>)
      modifies this
      ensures user.Some? ==>
        formData == FormData(user.value.id, user.value.name, user.value.email, user.value.username, "")
      ensures user.None? ==> formData == BLANK
      ensures errors == old(errors)
    {
      if user.Some? {
        var u := user.value;
        formData := FormData(u.id, Name(u.name.firstname, u.name.lastname), u.email, u.username, "");
      } else {
        formData := BLANK;
      }
    }

    /** `handleChange`: a first or last name goes into the nested name
      record, anything else into its top-level field; that field's error is
      emptied when it was set. */
    method HandleChange(name: Field, value: string)
      modifies this
      ensures name == FirstName ==> formData == old(formData).(name := old(formData.name).(firstname := value))
      ensures name == LastName ==> formData == old(formData).(name := old(formData.name).(lastname := value))
      ensures name == Email ==> formData == old(formData).(email := value)
      ensures name == Username ==> formData == old(formData).(username := value)
      ensures name == Password ==> formData == old(formData).(password := value)
      ensures errors.firstname == (if name == FirstName then "" else old(errors.firstname))
      ensures errors.lastname == (if name == LastName then "" else old(errors.lastname))
      ensures errors.email == (if name == Email then "" else old(errors.email))
      ensures errors.username == (if name == Username then "" else old(errors.username))
      ensures errors.password == (if name == Password then "" else old(errors.password))
    {
      match name {
        case FirstName =>
          formData := formData.(name := formData.name.(firstname := value));
          if errors.firstname != "" { errors := errors.(firstname := ""); }
        case LastName =>
          formData := formData.(name := formData.name.(lastname := value));
          if errors.lastname != "" { errors := errors.(lastname := ""); }
        case Email =>
          formData := formData.(email := value);
          if errors.email != "" { errors := errors.(email := ""); }
        case Username =>
          formData := formData.(username := value);
          if errors.username != "" { errors := errors.(username := ""); }
        case Password =>
          formData := formData.(password := value);
          if errors.password != "" { errors := errors.(password := ""); }
      }
    }

    /** `handleSubmit`: the errors are recomputed and the whole form record
      is submitted only when none is set. */
    method HandleSubmit(user: Option<User>) returns (submitted: Option<UserFormData>)
      modifies this
      ensures errors == Validate(formData, user.Some?) && formData == old(formData)
      ensures submitted.Some? <==> NoErrors(errors)
      ensures submitted.Some? ==> submitted.value == AsUserFormData(formData)
    {
      errors := Validate(formData, user.Some?);
      if NoErrors(errors) {
        submitted := Some(AsUserFormData(formData));
      } else {
        submitted := None;
      }
    }
  }

  /** The add form always submits `id: undefined`, which the create payload's
      spread keeps over the generated id: the new user has no id, whatever
      the clock says. */
  method AddFormCreatesUserWithoutId(first: string, last: string, email: string, username: string,
                                     password: string, now: int)
    returns (submitted: Option<UserFormData>, payload: Option<User>)
    ensures submitted.Some? <==> first != "" && last != "" && email != "" && username != "" && password != ""
    ensures submitted.Some? ==>
      payload.Some? && payload.value.id == None &&
      payload.value.name == Name(first, last) && payload.value.password == Some(password)
  {
    var modal := new UserFormModal();
    modal.Reset(None);
    modal.HandleChange(FirstName, first);
    modal.HandleChange(LastName, last);
    modal.HandleChange(Email, email);
    modal.HandleChange(Username, username);
    modal.HandleChange(Password, password);
    submitted := modal.HandleSubmit(None);
    payload := if submitted.Some? then Some(CreateUserPayload(now, submitted.value)) else None;
  }

  /** Editing a user and saving with the password left empty is accepted,
      and the update payload then carries the empty password, replacing the
      stored one; the id comes from the form, i.e. from the edited user. */
  method EditWithEmptyPassword(u: User, argumentId: Option<int>)
    returns (submitted: Option<UserFormData>, payload: Option<User>)
    ensures submitted.Some? <==>
      u.name.firstname != "" && u.name.lastname != "" && u.email != "" && u.username != ""
    ensures submitted.Some? ==>
      payload.Some? && payload.value.id == u.id &&
      payload.value.password == Some("")
  {
    var modal := new UserFormModal();
    modal.Reset(Some(u));
    submitted := modal.HandleSubmit(Some(u));
    payload := if submitted.Some? then Some(UpdateUserPayload(argumentId, submitted.value)) else None;
  }
}
