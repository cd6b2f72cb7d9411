/** The user edit form. */
module UserForm {
  import opened Common
  import opened Entities

  datatype UserPayload = UserPayload(email: string, role: Role)

  /** `handleSubmit`'s one check: the email must be non-empty. */
  function Validate(email: string, role: Role): (r: Checked<UserPayload>)
    ensures r.Rejected? <==> email == ""
    ensures r.Rejected? ==> r.message == "Email is required"
    ensures r.Accepted? ==> r.payload.email == email && r.payload.role == role
  {
    if email == "" then Rejected("Email is required") else Accepted(UserPayload(email, role))
  }

  class Form {
    var email: string
    var role: Role
    var error: string

    /** The blank form: no email, role 'user'. */
    constructor ()
      ensures email == "" && role == UserRole && error == ""
    {
      email, role, error := "", UserRole, "";
    }

    /** The prefill effect: email and role from the user being edited. */
    method Prefill(user: Option<User>)
      modifies this`email, this`role
      ensures user.None? ==> email == old(email) && role == old(role)
      ensures user.Some? ==> email == user.value.email && role == user.value.role
    {
      if user.Some? {
        email := user.value.email;
        role := user.value.role;
      }
    }

    /** `handleSubmit`: an empty email shows 'Email is required' and submits nothing;
        otherwise exactly email and role are submitted, and a failed submit shows the
        error, falling back to 'Failed to save user'. */
    method HandleSubmit(outcome: Outcome) returns (submitted: Option<UserPayload>)
      modifies this`error
      ensures email == "" ==> submitted == None && error == "Email is required"
      ensures email != "" ==> submitted == Some(UserPayload(email, role))
      ensures email != "" && outcome.Succeeded? ==> error == ""
      ensures email != "" && outcome.Failed? ==> error == MessageOr(outcome.message, "Failed to save user")
    {
      error := "";
      var v := Validate(email, role);
      if v.Rejected? {
        error := v.message;
        return None;
      }
      submitted := Some(v.payload);
      if outcome.Failed? {
        error := MessageOr(outcome.message, "Failed to save user");
      }
    }
  }
}
