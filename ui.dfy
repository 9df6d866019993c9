/** Values shared by the pages: optional values, the JSON-like objects that the
    pages send to and receive from the backend, the outcome of a backend call,
    and the observable effects a handler produces (toasts, requests,
    navigation, storage, callbacks to the parent component). */
module Ui {

  datatype Option<T> = None | Some(value: T)

  /** A field value of a JavaScript object sent to or received from the backend:
      a string, a number (kept as `Int` or `Real`), a boolean, null, an array or
      a nested object such as a search result's `driver`. */
  datatype Value =
    | Str(s: string)
    | Int(i: int)
    | Real(r: real)
    | Bool(b: bool)
    | Null
    | Arr(items: seq<Value>)
    | Obj(fields: map<string, Value>)

  /** A JavaScript object: its own keys and their values. */
  type Payload = map<string, Value>

  /** A string is falsy in JavaScript exactly when it is empty. */
  predicate Filled(s: string) { s != "" }

  /** The severity argument of `showToast`. */
  datatype Level = Success | Error | Warning | Info

  /** The backend routes the core calls (`/account/register`, `/account/login`,
      `/rides/search`, `/emergency/sos`). */
  datatype Endpoint = Register | Login | SearchRides | TriggerSos

  /** How an awaited backend call ended: with a response body, with an error
      response (carrying `response.data.message`, if any), or with no response
      at all. */
  datatype Outcome<T> = Ok(data: T) | ServerError(message: Option<string>) | NetworkError

  /** What a handler does to the world outside its own component state. */
  datatype Effect =
    | Toast(text: string, level: Level)
    | Request(endpoint: Endpoint, body: Payload)
    | Navigate(route: string)
    | NavigateAfter(route: string, delayMs: nat)
    | StoreItem(key: string, item: string)
    | LoginCallback(role: string, userName: string)
    | PushRide(ride: Payload)

  const NetworkErrorText := "Network error. Please try again."

  /** The text of the error toast after a failed call: the server's message when
      a response carries a non-empty one, the page's fallback when a response
      carries none, and the network text when there was no response. */
  function ErrorText<T>(o: Outcome<T>, fallback: string): (text: string)
    requires !o.Ok?
    ensures o.NetworkError? ==> text == NetworkErrorText
    ensures o.ServerError? && o.message.Some? && Filled(o.message.value) ==> text == o.message.value
    ensures o.ServerError? && (o.message.None? || !Filled(o.message.value)) ==> text == fallback
  {
    match o
    case ServerError(Some(m)) => if Filled(m) then m else fallback
    case ServerError(None) => fallback
    case NetworkError => NetworkErrorText
  }
}
