/** The sign-up form: nine fields, of which only the full name, the e-mail
    and the password are sent, after the two passwords have been compared.
    Nothing is stored and the anonymous client is used. */
module RegisterForm {
  import opened Wrappers
  import opened Text
  import opened Wire

  const RegisterPath := "/register"
  const MismatchMessage := "Password dan konfirmasi password tidak cocok."
  const RegisteredMessage := "Pendaftaran berhasil! Silakan login."
  const RegisterFallbackMessage := "Terjadi kesalahan saat pendaftaran."

  /** The keys of `formData`, all initially empty. */
  const FieldNames: set<string> :=
    {"fullName", "firstName", "lastName", "email", "password", "confirmPassword", "phone", "country", "about"}

  function InitialForm(): (form: map<string, string>)
    ensures form.Keys == FieldNames
    ensures forall k :: k in form ==> form[k] == ""
  {
    map k | k in FieldNames :: ""
  }

  predicate HasFields(form: map<string, string>)
  {
    && "fullName" in form && "firstName" in form && "lastName" in form
    && "email" in form && "password" in form && "confirmPassword" in form
    && "phone" in form && "country" in form && "about" in form
  }

  /** The joined first and last name, `${firstName} ${lastName}`. */
  function JoinedName(form: map<string, string>): string
    requires HasFields(form)
  {
    form["firstName"] + " " + form["lastName"]
  }

  /** `fullName || formData.fullName` for the trimmed joined name. */
  function FullNameToSend(form: map<string, string>): (name: string)
    requires HasFields(form)
    ensures !AllWhitespace(JoinedName(form)) ==> name == Trim(JoinedName(form))
    ensures AllWhitespace(JoinedName(form)) ==> name == form["fullName"]
  {
    var joined := Trim(JoinedName(form));
    TrimEmptyIff(JoinedName(form));
    if joined != [] then joined else form["fullName"]
  }

  /** `dataToSend`: the trimmed joined name, or the `fullName` field when the
      joined name is only whitespace; the e-mail and the password as typed;
      the confirmation, phone, country and "about" are never sent. */
  function RegisterPayload(form: map<string, string>): (r: map<string, string>)
    requires HasFields(form)
    ensures r.Keys == {"fullName", "email", "password"}
    ensures r["email"] == form["email"] && r["password"] == form["password"]
    ensures !AllWhitespace(JoinedName(form)) ==> r["fullName"] == Trim(JoinedName(form))
    ensures AllWhitespace(JoinedName(form)) ==> r["fullName"] == form["fullName"]
    ensures "confirmPassword" !in r && "phone" !in r && "country" !in r && "about" !in r
  {
    var name := FullNameToSend(form);
    PayloadFields(name, form["email"], form["password"]);
    map["fullName" := name, "email" := form["email"], "password" := form["password"]]
  }

  /** The three-key body holds exactly those keys, each with its value. */
  lemma PayloadFields(name: string, email: string, password: string)
    ensures var r := map["fullName" := name, "email" := email, "password" := password];
      && r.Keys == {"fullName", "email", "password"}
      && r["fullName"] == name && r["email"] == email && r["password"] == password
      && "confirmPassword" !in r && "phone" !in r && "country" !in r && "about" !in r
  {
  }

  /** A name typed in the first or last name field always wins over the
      `fullName` field, and it is sent without surrounding whitespace. */
  lemma TypedNameWins(form: map<string, string>)
    requires HasFields(form)
    requires !AllWhitespace(form["firstName"]) || !AllWhitespace(form["lastName"])
    ensures RegisterPayload(form)["fullName"] == Trim(JoinedName(form))
    ensures RegisterPayload(form)["fullName"] != []
  {
    var j := JoinedName(form);
    if !AllWhitespace(form["firstName"]) {
      var k :| 0 <= k < |form["firstName"]| && !IsWhitespace(form["firstName"][k]);
      assert j[k] == form["firstName"][k];
    } else {
      var k :| 0 <= k < |form["lastName"]| && !IsWhitespace(form["lastName"][k]);
      assert j[|form["firstName"]| + 1 + k] == form["lastName"][k];
    }
    TrimEmptyIff(j);
  }

  /** The message of a failed registration, chosen like the login's but with
      its own fallback. */
  function RegisterErrorMessage(e: RequestError): (m: string)
    ensures e.HttpError? && e.serverMessage.Some? && e.serverMessage.value != [] ==> m == e.serverMessage.value
    ensures e.HttpError? && (e.serverMessage.None? || e.serverMessage.value == []) ==> m == "Terjadi kesalahan saat pendaftaran."
    ensures e.UnexpectedError? ==> m == "Terjadi kesalahan yang tidak terduga."
  {
    ErrorMessage(e, RegisterFallbackMessage)
  }

  /** `apiClient.post('/register', dataToSend)` through the client that
      carries no token: a JSON body with the name, the e-mail and the
      password only. */
  function RegisterRequest(form: map<string, string>): (r: Effect)
    requires HasFields(form)
    ensures r.Request? && r.client == Anonymous && r.verb == Post && r.path == "/register"
    ensures r.payload.Body? && r.payload.fields.Keys == {"fullName", "email", "password"}
    ensures r.payload.fields["email"] == form["email"] && r.payload.fields["password"] == form["password"]
    ensures r.payload == Body(RegisterPayload(form))
  {
    Request(Anonymous, Post, RegisterPath, Body(RegisterPayload(form)))
  }

  /** How `apiClient.post('/register', …)` settles. */
  datatype RegisterResponse = Registered | RegisterFailed(error: RequestError)

  class RegisterView {
    var form: map<string, string>
    var loading: bool
    var effects: seq<Effect>

    ghost predicate Valid()
      reads this
    {
      HasFields(form)
    }

    constructor ()
      ensures Valid()
      ensures form == InitialForm() && !loading && effects == []
    {
      form, loading, effects := InitialForm(), false, [];
    }

    /** The submit button is disabled while a registration is in flight. */
    function SubmitDisabled(): (r: bool)
      reads this
      ensures r <==> loading
    {
      loading
    }

    /** `handleChange`: the field named by the input's id takes the value. */
    method HandleChange(id: string, value: string)
      requires Valid()
      modifies this
      ensures Valid()
      ensures form == old(form)[id := value]
      ensures forall k :: k in old(form) && k != id ==> k in form && form[k] == old(form)[k]
      ensures id in FieldNames ==> form.Keys == old(form.Keys)
      ensures loading == old(loading) && effects == old(effects)
    {
      form := form[id := value];
    }

    /** `handleCountryChange`: the country select sets the country field. */
    method HandleCountryChange(value: string)
      requires Valid()
      modifies this
      ensures Valid()
      ensures form == old(form)["country" := value] && form.Keys == old(form.Keys)
      ensures loading == old(loading) && effects == old(effects)
    {
      form := form["country" := value];
    }

    /** The first half of `handleSubmit`, up to the `await`. Different
        passwords are reported and nothing is sent, with `loading` left as it
        was; equal ones set `loading` and send the registration payload. */
    method BeginSubmit() returns (sent: bool)
      requires Valid()
      modifies this
      ensures Valid() && form == old(form)
      ensures sent <==> form["password"] == form["confirmPassword"]
      ensures !sent ==> loading == old(loading) && effects == old(effects) + [Toast(Failure, MismatchMessage)]
      ensures sent ==> loading && SubmitDisabled() && effects == old(effects) + [RegisterRequest(form)]
    {
      if form["password"] != form["confirmPassword"] {
        effects := effects + [Toast(Failure, MismatchMessage)];
        return false;
      }
      loading := true;
      effects := effects + [RegisterRequest(form)];
      sent := true;
    }

    /** The second half of `handleSubmit`: success is reported and leads to
        the login page, a failure is reported; `loading` ends false either way
        and the form keeps what was typed. */
    method CompleteSubmit(response: RegisterResponse)
      modifies this
      ensures !loading && !SubmitDisabled() && form == old(form)
      ensures response.Registered? ==>
        effects == old(effects) + [Toast(Success, RegisteredMessage), Navigate("/login")]
      ensures response.RegisterFailed? ==>
        effects == old(effects) + [Toast(Failure, RegisterErrorMessage(response.error))]
    {
      match response {
      case Registered =>
        effects := effects + [Toast(Success, RegisteredMessage)];
        effects := effects + [Navigate("/login")];
      case RegisterFailed(error) =>
        effects := effects + [Toast(Failure, RegisterErrorMessage(error))];
      }
      loading := false;
    }
  }
}
