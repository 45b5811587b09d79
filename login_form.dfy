/** The username/password form and its forgot-password dialog. */
module LoginForm {
  const UsernameRequired := "Username is required"
  const PasswordRequired := "Password is required"

  /**
   * The form's state: the field values by input name, the error messages by
   * field, the forgot-password username, and what it has handed to its
   * parent: login submissions and password-reset requests.
   */
  class LoginFormState {
    var fields: map<string, string>
    var errors: map<string, string>
    var forgotUsername: string
    var submitted: seq<map<string, string>>
    var resetRequests: seq<string>

    constructor()
      ensures fields == map["username" := "", "password" := ""] && errors == map[]
      ensures forgotUsername == "" && submitted == [] && resetRequests == []
    {
      fields := map["username" := "", "password" := ""];
      errors := map[];
      forgotUsername := "";
      submitted := [];
      resetRequests := [];
    }

    function Field(name: string): string
      reads this
    {
      if name in fields then fields[name] else ""
    }

    /**
     * `handleInputChange`: set the named field, and clear that field's error
     * when it has one; no other field or error changes.
     */
    method HandleInputChange(name: string, value: string)
      modifies this
      ensures fields == old(fields)[name := value]
      ensures errors == if name in old(errors) && old(errors)[name] != "" then old(errors)[name := ""] else old(errors)
      ensures forgotUsername == old(forgotUsername) && submitted == old(submitted) && resetRequests == old(resetRequests)
    {
      fields := fields[name := value];
      if name in errors && errors[name] != "" {
        errors := errors[name := ""];
      }
    }

    /**
     * `validateForm`: build the errors one check at a time, store them, and
     * report whether there are none.
     */
    method ValidateForm() returns (ok: bool)
      modifies this
      ensures "username" in errors <==> old(Field("username")) == ""
      ensures "password" in errors <==> old(Field("password")) == ""
      ensures forall k :: k in errors ==> (k == "username" && errors[k] == UsernameRequired) || (k == "password" && errors[k] == PasswordRequired)
      ensures ok <==> errors == map[]
      ensures ok <==> old(Field("username")) != "" && old(Field("password")) != ""
      ensures fields == old(fields) && forgotUsername == old(forgotUsername)
      ensures submitted == old(submitted) && resetRequests == old(resetRequests)
    {
      var newErrors: map<string, string> := map[];
      if Field("username") == "" {
        newErrors := newErrors["username" := UsernameRequired];
      }
      if Field("password") == "" {
        newErrors := newErrors["password" := PasswordRequired];
      }
      errors := newErrors;
      ok := |newErrors| == 0;
      if !ok {
        assert newErrors.Keys != {} by {
          assert |newErrors.Keys| == |newErrors|;
        }
      }
    }

    /**
     * `handleSubmit`: validate, and pass the fields on only when valid; the
     * submit button is disabled while a login is in progress.
     */
    method HandleSubmit(isSubmitting: bool)
      modifies this
      ensures isSubmitting ==> fields == old(fields) && errors == old(errors) && submitted == old(submitted)
      ensures !isSubmitting ==>
        (submitted == old(submitted) + (if old(Field("username")) != "" && old(Field("password")) != "" then [old(fields)] else []))
      ensures !isSubmitting ==> ("username" in errors <==> old(Field("username")) == "")
      ensures !isSubmitting ==> ("password" in errors <==> old(Field("password")) == "")
      ensures !isSubmitting ==>
        forall k :: k in errors ==> (k == "username" && errors[k] == UsernameRequired) || (k == "password" && errors[k] == PasswordRequired)
      ensures fields == old(fields) && forgotUsername == old(forgotUsername) && resetRequests == old(resetRequests)
    {
      if !isSubmitting {
        var ok := ValidateForm();
        if ok {
          submitted := submitted + [fields];
        }
      }
    }

    method SetForgotUsername(value: string)
      modifies this
      ensures forgotUsername == value
      ensures fields == old(fields) && errors == old(errors) && submitted == old(submitted) && resetRequests == old(resetRequests)
    {
      forgotUsername := value;
    }

    /** `handleForgotPasswordSubmit`: a reset is requested only for a non-empty username. */
    method HandleForgotPasswordSubmit()
      modifies this
      ensures resetRequests == old(resetRequests) + (if forgotUsername != "" then [forgotUsername] else [])
      ensures fields == old(fields) && errors == old(errors) && submitted == old(submitted) && forgotUsername == old(forgotUsername)
    {
      if forgotUsername != "" {
        resetRequests := resetRequests + [forgotUsername];
      }
    }

    /**
     * One submit of the reset form. The dialog's form is rendered in a portal
     * but sits inside the login form in the component tree, and
     * `handleForgotPasswordSubmit` does not stop propagation, so the login
     * form's `handleSubmit` runs right after it. That second handler is not
     * behind the Login button, so a login in progress does not hold it back.
     */
    method ResetFormSubmitted()
      modifies this
      ensures resetRequests == old(resetRequests) + (if old(forgotUsername) != "" then [old(forgotUsername)] else [])
      ensures submitted == old(submitted) + (if old(Field("username")) != "" && old(Field("password")) != "" then [old(fields)] else [])
      ensures "username" in errors <==> old(Field("username")) == ""
      ensures "password" in errors <==> old(Field("password")) == ""
      ensures forall k :: k in errors ==> (k == "username" && errors[k] == UsernameRequired) || (k == "password" && errors[k] == PasswordRequired)
      ensures fields == old(fields) && forgotUsername == old(forgotUsername)
    {
      HandleForgotPasswordSubmit();
      HandleSubmit(false);
    }
  }
}
