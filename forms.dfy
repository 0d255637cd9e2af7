/** Form state shared by the sign-up and product pages: a record of string
    fields that `handleChange` updates one named field at a time
    (`{ ...prev, [name]: value }`), the password-confirmation check, and the
    payload that leaves the confirmation out (`const { confirmPassword,
    ...rest } = formData`). */
module Forms {
  import opened Common
  import opened Http

  const ConfirmField: string := "confirmPassword"

  /** The fields of both sign-up forms, all starting empty. */
  const SignupFields: set<string> :=
    {"fullName", "agentName", "matricNumber", "roomNumber", "residence", "email", "phoneNumber", "password", ConfirmField}

  const BlankSignup: map<string, string> := map k | k in SignupFields :: ""

  /** `handleChange`: the named field takes the value, every other field keeps
      its value, and no field disappears. */
  function UpdateField(form: map<string, string>, name: string, value: string): (r: map<string, string>)
    ensures name in r && r[name] == value
    ensures r.Keys == form.Keys + {name}
    ensures forall k :: k in form && k != name ==> r[k] == form[k]
  {
    form[name := value]
  }

  /** `formData.password === formData.confirmPassword`. */
  predicate PasswordsMatch(form: map<string, string>) {
    GetItem(form, "password") == GetItem(form, ConfirmField)
  }

  /** The payload: every field but the confirmation, unchanged. */
  function StripConfirm(form: map<string, string>): (r: map<string, string>)
    ensures ConfirmField !in r
    ensures r.Keys == form.Keys - {ConfirmField}
    ensures forall k :: k in r ==> r[k] == form[k]
  {
    form - {ConfirmField}
  }

  /** Stripping keeps the password itself, and on a fresh form yields the
      eight remaining empty fields. */
  lemma StripKeepsPassword(form: map<string, string>)
    requires "password" in form
    ensures "password" in StripConfirm(form) && StripConfirm(form)["password"] == form["password"]
    ensures StripConfirm(BlankSignup).Keys == SignupFields - {ConfirmField}
  {
  }

  /** Editing the confirmation never changes the payload. */
  lemma ConfirmEditsDoNotReachPayload(form: map<string, string>, value: string)
    ensures StripConfirm(UpdateField(form, ConfirmField, value)) == StripConfirm(form)
  {
  }
}
