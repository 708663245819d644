/** The Telegram client library (connect, authorise, sign in, send) and the
    HTTP fetch seen from the application: every call is an oracle that
    either answers or raises a typed error. */
module Protocol {
  import opened Wrappers
  import opened Text

  /** The exceptions the login code tells apart; `Other` is every other
      exception, with its `str(e)`. */
  datatype ProtoError =
    | FloodWait(seconds: nat)
    | CodeExpired
    | CodeInvalid
    | Other(text: string)

  /** A call whose only answer is "done" or an exception. */
  datatype Step = Done | Raised(error: ProtoError)

  /** A call that returns a value or raises. */
  datatype Reply<T> = Returns(value: T) | Throws(error: ProtoError)

  /** What `get_me()` yields; `None` fields of the library object are "". */
  datatype Me = Me(phone: string, firstName: string, lastName: string, username: string, id: nat)

  /** Which client class a session is opened with. */
  datatype ClientKind = StandardClient | DesktopClient

  /** A client handle, bound to one session file. */
  datatype Client = Client(session: string, kind: ClientKind)

  /** The answers one `get_client` call receives: whether the cached handle
      (if any) reports itself connected, how `connect()` and
      `is_user_authorized()` of a new handle go. */
  datatype ClientProbe = ClientProbe(cachedConnected: bool, connect: Step, authorized: bool)

  /** What `get_client` produces: a handle, `None`, or the exception raised
      by `connect()` or `is_user_authorized()`, which it does not catch. */
  datatype Lookup = Hit(client: Client) | Miss | LookupRaised(error: ProtoError)

  /** `requests.get(url)`: a response, or the text of the exception. */
  datatype Fetch = Response(status: nat, body: string) | FetchFailed(reason: string)
}
