/**
 * The sign-in page: input validation with its four error-state fields, the
 * conversion of the submitted form into an object, and the decision to call
 * the login endpoint.
 */
module Login {
  import opened Wrappers
  import Text

  const USERNAME_ERROR: string := "Por favor, introduce un nombre de usuario válido"
  const PASSWORD_ERROR: string := "La contraseña debe tener al menos 6 caracteres."
  const MIN_PASSWORD_LENGTH: nat := 6

  /** The user name check: empty, or nothing left after `trim`; that is, made only of white space. */
  predicate UsernameInvalid(value: string)
    ensures UsernameInvalid(value) <==> Text.AllWhitespace(value)
  {
    Text.TrimEmptyIff(value);
    value == "" || Text.Trim(value) == ""
  }

  /**
   * The password check: empty, or shorter than 6 in JavaScript's UTF-16
   * `length`. Six characters always pass and two never do, whatever they are.
   */
  predicate PasswordInvalid(value: string)
    ensures |value| >= MIN_PASSWORD_LENGTH ==> !PasswordInvalid(value)
    ensures |value| <= 2 ==> PasswordInvalid(value)
  {
    value == "" || Text.Utf16Length(value) < MIN_PASSWORD_LENGTH
  }

  /** The body the login endpoint receives; `None` is a field left undefined. */
  datatype Credentials = Credentials(nombre_usuario: Option<string>, contrasena: Option<string>)

  /** The form's named controls in document order; the "remember me" checkbox has no name and is not submitted. */
  function FormEntries(username: string, password: string): seq<(string, string)> {
    [("nombre_usuario", username), ("password", password)]
  }

  /** The object the `forEach` loop builds: each entry assigned in order, so a later key overwrites an earlier one. */
  function FormObject(entries: seq<(string, string)>): (obj: map<string, string>)
    ensures obj.Keys == set i | 0 <= i < |entries| :: entries[i].0
  {
    if entries == [] then map[]
    else FormObject(entries[..|entries| - 1])[entries[|entries| - 1].0 := entries[|entries| - 1].1]
  }

  function Lookup(obj: map<string, string>, key: string): Option<string> {
    if key in obj then Some(obj[key]) else None
  }

  /** The destructuring in handleSubmit as written: it reads the key `contrasena`. */
  function SubmittedCredentials(obj: map<string, string>): Credentials {
    Credentials(Lookup(obj, "nombre_usuario"), Lookup(obj, "contrasena"))
  }

  /** The destructuring corrected to read the key the password input is submitted under. */
  function IntendedCredentials(obj: map<string, string>): Credentials {
    Credentials(Lookup(obj, "nombre_usuario"), Lookup(obj, "password"))
  }

  /** `data.forEach((value, key) => { formDataObject[key] = value; })`. */
  method CollectFormData(entries: seq<(string, string)>) returns (obj: map<string, string>)
    ensures obj == FormObject(entries)
  {
    obj := map[];
    var i := 0;
    while i < |entries|
      invariant 0 <= i <= |entries|
      invariant obj == FormObject(entries[..i])
    {
      assert entries[..i + 1][..i] == entries[..i];
      obj := obj[entries[i].0 := entries[i].1];
      i := i + 1;
    }
    assert entries[..|entries|] == entries;
  }

  /** The message shown under a field: the error text when its check failed, nothing otherwise. */
  function ErrorMessage(invalid: bool, text: string): string {
    if invalid then text else ""
  }

  class SignInPage {
    var emailError: bool
    var emailErrorMessage: string
    var passwordError: bool
    var passwordErrorMessage: string

    /** No error is shown before the first submit. */
    constructor ()
      ensures !emailError && emailErrorMessage == "" && !passwordError && passwordErrorMessage == ""
    {
      emailError, emailErrorMessage := false, "";
      passwordError, passwordErrorMessage := false, "";
    }

    /** validateInputs' first block: the user name check sets the name field's flag and message. */
    method CheckUsername(username: string) returns (ok: bool)
      modifies this`emailError, this`emailErrorMessage
      ensures ok <==> !UsernameInvalid(username)
      ensures emailError == UsernameInvalid(username)
      ensures emailErrorMessage == ErrorMessage(emailError, USERNAME_ERROR)
    {
      var bad := UsernameInvalid(username);
      emailError, emailErrorMessage := bad, ErrorMessage(bad, USERNAME_ERROR);
      ok := !bad;
    }

    /** validateInputs' second block: the password check sets the password field's flag and message. */
    method CheckPassword(password: string) returns (ok: bool)
      modifies this`passwordError, this`passwordErrorMessage
      ensures ok <==> !PasswordInvalid(password)
      ensures passwordError == PasswordInvalid(password)
      ensures passwordErrorMessage == ErrorMessage(passwordError, PASSWORD_ERROR)
    {
      var bad := PasswordInvalid(password);
      passwordError, passwordErrorMessage := bad, ErrorMessage(bad, PASSWORD_ERROR);
      ok := !bad;
    }

    /**
     * validateInputs: both checks always run, each one sets only its own
     * field's flag and message, and the result is true when both pass.
     */
    method ValidateInputs(username: string, password: string) returns (isValid: bool)
      modifies this
      ensures isValid <==> !UsernameInvalid(username) && !PasswordInvalid(password)
      ensures emailError == UsernameInvalid(username)
      ensures emailErrorMessage == ErrorMessage(emailError, USERNAME_ERROR)
      ensures passwordError == PasswordInvalid(password)
      ensures passwordErrorMessage == ErrorMessage(passwordError, PASSWORD_ERROR)
    {
      var userOk := CheckUsername(username);
      var passwordOk := CheckPassword(password);
      isValid := userOk && passwordOk;
    }

    /**
     * handleSubmit up to the login call: `None` when validation fails and the
     * endpoint is not called, otherwise the body sent to it.
     */
    method HandleSubmit(username: string, password: string) returns (sent: Option<Credentials>)
      modifies this
      ensures sent.Some? <==> !UsernameInvalid(username) && !PasswordInvalid(password)
      ensures sent.Some? ==> sent.value == Credentials(Some(username), Some(password))
      ensures emailError == UsernameInvalid(username) && passwordError == PasswordInvalid(password)
      ensures emailErrorMessage == ErrorMessage(emailError, USERNAME_ERROR)
      ensures passwordErrorMessage == ErrorMessage(passwordError, PASSWORD_ERROR)
    {
      var ok := ValidateInputs(username, password);
      if !ok {
        return None;
      }
      var obj := CollectFormData(FormEntries(username, password));
      IntendedCredentialsComplete(username, password);
      sent := Some(IntendedCredentials(obj));
    }
  }

  // ---------------------------------------------------------------------------
  // Properties

  /** For text without astral characters the password check is exactly `|value| < 6`. */
  lemma PasswordCheckOnBmp(value: string)
    ensures (forall i :: 0 <= i < |value| ==> value[i] as int <= 0xFFFF) ==>
              (PasswordInvalid(value) <==> |value| < 6)
  {
    if forall i :: 0 <= i < |value| ==> value[i] as int <= 0xFFFF {
      Text.Utf16LengthBmp(value);
    }
  }

  /** A key of the built object holds the value of its last entry, and absent keys had no entry. */
  lemma {:induction false} FormObjectLastWins(entries: seq<(string, string)>, key: string)
    ensures key in FormObject(entries) <==> exists i :: 0 <= i < |entries| && entries[i].0 == key
    ensures forall i :: 0 <= i < |entries| && entries[i].0 == key &&
                        (forall j :: i < j < |entries| ==> entries[j].0 != key) ==>
                        key in FormObject(entries) && FormObject(entries)[key] == entries[i].1
  {
    if entries != [] {
      var n := |entries| - 1;
      var init := entries[..n];
      FormObjectLastWins(init, key);
      forall i | 0 <= i < n ensures init[i] == entries[i] { }
      if key in FormObject(entries) && entries[n].0 != key {
        assert key in FormObject(init);
      }
    }
  }

  /** The defect: the page's form has no `contrasena` field, so the password is never sent. */
  lemma PasswordNeverSent(username: string, password: string)
    ensures SubmittedCredentials(FormObject(FormEntries(username, password))).contrasena == None
  {
    var e := FormEntries(username, password);
    assert e[..1] == [e[0]] && [e[0]][..0] == [];
    assert FormObject(e[..1]) == map["nombre_usuario" := username];
    assert FormObject(e) == map["nombre_usuario" := username, "password" := password];
    assert "contrasena"[0] != "nombre_usuario"[0] && "contrasena"[0] != "password"[0];
  }

  /** The corrected lookup sends both inputs exactly as typed. */
  lemma IntendedCredentialsComplete(username: string, password: string)
    ensures IntendedCredentials(FormObject(FormEntries(username, password))) ==
            Credentials(Some(username), Some(password))
  {
    var e := FormEntries(username, password);
    assert e[..1] == [e[0]] && [e[0]][..0] == [];
  }
}
