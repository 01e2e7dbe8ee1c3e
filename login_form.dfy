/** The sign-in form: e-mail and password, sent through the anonymous
    client; on success the session is written to storage and to the store and
    the user is sent to the page for their role. */
module LoginForm {
  import opened Wrappers
  import opened Wire
  import opened BrowserStorage
  import opened AuthStore

  const LoginPath := "/login"
  const LoggedInMessage := "Login berhasil!"
  const LoginFallbackMessage := "Email atau password salah."

  /** The page a signed-in user is sent to. */
  function RouteForRole(role: string): (route: string)
    ensures route == "/admin" <==> role == "ADMIN"
    ensures route == "/todo" <==> role != "ADMIN"
  {
    if role == "ADMIN" then "/admin" else "/todo"
  }

  /** The message of a failed login: the server's message when it sent a
      non-empty one, the wrong-credentials message for any other HTTP failure,
      the generic message for anything else. */
  function LoginErrorMessage(e: RequestError): (m: string)
    ensures e.HttpError? && e.serverMessage.Some? && e.serverMessage.value != [] ==> m == e.serverMessage.value
    ensures e.HttpError? && (e.serverMessage.None? || e.serverMessage.value == []) ==> m == "Email atau password salah."
    ensures e.UnexpectedError? ==> m == "Terjadi kesalahan yang tidak terduga."
  {
    ErrorMessage(e, LoginFallbackMessage)
  }

  /** What `apiClient.post('/login', …)` settles with. */
  datatype LoginResponse = LoggedIn(token: string, user: User) | LoginFailed(error: RequestError)

  /** `apiClient.post('/login', formData)`: the whole form data, sent as a
      JSON body through the client that carries no token. */
  function LoginRequest(form: map<string, string>): (r: Effect)
    ensures r.Request? && r.client == Anonymous && r.verb == Post && r.path == "/login"
    ensures r.payload == Body(form)
  {
    Request(Anonymous, Post, LoginPath, Body(form))
  }

  class LoginView {
    /** `formData`: an object whose keys are the ids of the inputs. */
    var form: map<string, string>
    var loading: bool
    var effects: seq<Effect>

    ghost predicate Valid()
      reads this
    {
      "email" in form && "password" in form
    }

    constructor ()
      ensures Valid()
      ensures form == map["email" := "", "password" := ""] && !loading && effects == []
    {
      form, loading, effects := map["email" := "", "password" := ""], false, [];
    }

    /** The submit button is disabled while a login is in flight. */
    function SubmitDisabled(): (r: bool)
      reads this
      ensures r <==> loading
    {
      loading
    }

    /** `handleChange`: the field named by the input's id takes the value;
        every other field keeps its value. */
    method HandleChange(id: string, value: string)
      requires Valid()
      modifies this
      ensures Valid()
      ensures form == old(form)[id := value]
      ensures forall k :: k in old(form) && k != id ==> k in form && form[k] == old(form)[k]
      ensures id in {"email", "password"} ==> form.Keys == old(form.Keys)
      ensures loading == old(loading) && effects == old(effects)
    {
      form := form[id := value];
    }

    /** The first half of `handleSubmit`, up to the `await`: `loading` is set,
        which disables the button, and the form data goes out as it is. */
    method BeginSubmit()
      modifies this
      ensures loading && SubmitDisabled()
      ensures effects == old(effects) + [LoginRequest(form)]
      ensures form == old(form)
    {
      loading := true;
      effects := effects + [LoginRequest(form)];
    }

    /** The second half of `handleSubmit`, once the call has settled. On
        success the token and the serialized user are stored, the store is
        updated with the same values, and the user is sent on by role. On
        failure storage and store are left alone and the error is reported.
        Either way `loading` ends false. */
    method CompleteSubmit(response: LoginResponse, storage: LocalStorage, store: SessionStore)
      modifies this, storage, store
      ensures !loading && !SubmitDisabled() && form == old(form)
      ensures response.LoggedIn? ==>
        && storage.items == old(storage.items)[TokenKey := response.token][UserKey := EncodeUser(response.user)]
        && store.token == Some(response.token) && store.user == Some(response.user)
        && effects == old(effects) + [Toast(Success, LoggedInMessage), Navigate(RouteForRole(response.user.role))]
      ensures response.LoginFailed? ==>
        && storage.items == old(storage.items)
        && store.token == old(store.token) && store.user == old(store.user)
        && effects == old(effects) + [Toast(Failure, LoginErrorMessage(response.error))]
    {
      match response {
      case LoggedIn(token, user) =>
        storage.SetItem(TokenKey, token);
        storage.SetItem(UserKey, EncodeUser(user));
        store.SetToken(token);
        store.SetUser(user);
        effects := effects + [Toast(Success, LoggedInMessage)];
        effects := effects + [Navigate(RouteForRole(user.role))];
      case LoginFailed(error) =>
        effects := effects + [Toast(Failure, LoginErrorMessage(error))];
      }
      loading := false;
    }
  }
}
