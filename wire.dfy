/** What the client's views do to the outside world, as data. Every network
    call, route change, notification and confirmation dialog a handler causes
    is appended to an effect log; what the server and the user answer comes
    back to the handlers as inputs. */
module Wire {
  import opened Wrappers

  datatype HttpMethod = Get | Post | Put | Delete

  /** The two axios clients: `apiClient` (no token) and `authApiClient`
      (bearer token from storage). */
  datatype Client = Anonymous | Authenticated

  /** What travels with a request: nothing, URLSearchParams in order of
      `append`, or a JSON object whose values are all strings. */
  datatype Payload =
    | NoPayload
    | Query(params: seq<(string, string)>)
    | Body(fields: map<string, string>)

  datatype ToastKind = Success | Failure

  datatype Effect =
    | Request(client: Client, verb: HttpMethod, path: string, payload: Payload)
    | Navigate(route: string)
    | Toast(kind: ToastKind, message: string)
    | Confirm(message: string)

  /** The failure an axios call rejects with: an `AxiosError`, which may carry
      the server's `response.data.message`, or anything else. */
  datatype RequestError = HttpError(serverMessage: Option<string>) | UnexpectedError

  /** The message a form shows for a failed call:
      `error.response?.data?.message || fallback` for an `AxiosError`, the generic
      message for anything else. An empty server message is falsy and gives way
      to the fallback. */
  function ErrorMessage(e: RequestError, fallback: string): (r: string)
    ensures e.HttpError? && e.serverMessage.Some? && e.serverMessage.value != [] ==> r == e.serverMessage.value
    ensures e.HttpError? && (e.serverMessage.None? || e.serverMessage.value == []) ==> r == fallback
    ensures e.UnexpectedError? ==> r == UnexpectedMessage
  {
    match e
    case HttpError(Some(m)) => if m != [] then m else fallback
    case HttpError(None) => fallback
    case UnexpectedError => UnexpectedMessage
  }

  const UnexpectedMessage := "Terjadi kesalahan yang tidak terduga."

  /** All values given for `key` in a parameter list, in order. */
  function ParamValues(params: seq<(string, string)>, key: string): (r: seq<string>)
    ensures |r| <= |params|
  {
    if params == [] then []
    else (if params[0].0 == key then [params[0].1] else []) + ParamValues(params[1..], key)
  }

  lemma {:induction false} ParamValuesAppend(a: seq<(string, string)>, b: seq<(string, string)>, key: string)
    ensures ParamValues(a + b, key) == ParamValues(a, key) + ParamValues(b, key)
  {
    if a != [] {
      assert (a + b)[1..] == a[1..] + b;
      ParamValuesAppend(a[1..], b, key);
    } else {
      assert a + b == b;
    }
  }

  lemma ParamValuesSingle(name: string, value: string, key: string)
    ensures ParamValues([(name, value)], key) == if name == key then [value] else []
  {
    assert [(name, value)][1..] == [];
  }

  /** The values of a key in two fixed parameters followed by two lists. */
  lemma ParamValuesSplit(a: (string, string), b: (string, string), c: seq<(string, string)>, d: seq<(string, string)>, key: string)
    ensures ParamValues([a, b] + c + d, key)
      == ParamValues([a], key) + ParamValues([b], key) + ParamValues(c, key) + ParamValues(d, key)
  {
    assert [a, b] == [a] + [b];
    ParamValuesAppend([a], [b], key);
    ParamValuesAppend([a, b], c, key);
    ParamValuesAppend([a, b] + c, d, key);
  }

  /** The values of a key in a list holding at most one parameter. */
  lemma ParamValuesOptional(opt: seq<(string, string)>, name: string, key: string)
    requires |opt| <= 1 && (opt != [] ==> opt[0].0 == name)
    ensures ParamValues(opt, key) == if opt != [] && name == key then [opt[0].1] else []
  {
    if opt != [] {
      assert opt[1..] == [];
    }
  }
}
