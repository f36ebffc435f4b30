/** What the SDK acts on outside itself: the web view it posts messages into, the
    console, the host's callbacks and the promises it settles. Each is recorded as
    an append-only log in a `Journal`. */
module Runtime {
  import opened Values
  import opened Messages

  /** A promise handed back to the host, by number. */
  type Ticket = nat

  datatype Diagnostic =
    | WaitingForShell           // console.info "Waiting for Vercel shell to load..."
    | WebViewNotReady           // console.warn "webview is not ready for host event"
    | UnknownMessageType(t: string)  // console.log "Type of the message is unknown from the Shell app", t

  /** A callback ran with `payload`; `responder` is the id a responder it was
      handed answers to, if it was handed one. */
  datatype Invocation = Invocation(callback: Callback, payload: Option<Value>, responder: Option<EventId>)

  /** A promise settled with a value (`None` is `undefined`). */
  datatype Settlement = Settlement(ticket: Ticket, value: Option<Value>)

  datatype ErrorLabel = EventError

  /** A call to the error-notification collaborator, with the host's `onErrorSDK`
      callback if it gave one. */
  datatype ErrorReport = ErrorReport(kind: ErrorLabel, callback: Option<Value>)

  datatype Journal = Journal(
    injected: seq<Message>,      // posted into the web view, in order
    console: seq<Diagnostic>,
    calls: seq<Invocation>,
    settled: seq<Settlement>,
    reported: seq<ErrorReport>,
    nextPromise: Ticket)         // the number the next promise gets

  const EmptyJournal := Journal([], [], [], [], [], 0)

  /** The host side of one embedding: whether the native web view behind the
      shared ref is attached, the credential the credential source hands out, and
      the journal of everything done so far. */
  class Host {
    var mounted: bool
    const authToken: string
    var journal: Journal

    constructor (mounted: bool, authToken: string)
      ensures this.mounted == mounted && this.authToken == authToken
      ensures journal == EmptyJournal
    {
      this.mounted := mounted;
      this.authToken := authToken;
      journal := EmptyJournal;
    }

    /** The native view attaches to or detaches from the ref. */
    method SetMounted(attached: bool)
      modifies this`mounted
      ensures mounted == attached
    {
      mounted := attached;
    }
  }
}
