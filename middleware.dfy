/** The decision rules of the HTTP middleware (router/middleware/middleware.go):
    how a request error becomes a status and a message, how a filesystem error
    is recognised, which origin the CORS headers allow, and what
    `CaptureErrors` answers.

    The gin context is reduced to the values these rules read: the writer's
    status, the response headers, the request method and the `Origin` request
    header. An error is reduced to what is asked of it: its filesystem error
    code, its text, the system call of an `*os.SyscallError`, and whether it
    wraps `context.DeadlineExceeded`. */
module Middleware {
  import opened Support

  /** The codes `filesystem.IsErrorCode` can recognise. */
  datatype FsErrorCode = DenylistFile | PathResolution | IsDirectory | DiskSpace | OtherCode

  /** A non-nil Go error as the middleware sees it. */
  datatype Cause = Cause(
    code: Option<FsErrorCode>,
    text: string,
    syscall: Option<string>,
    deadlineExceeded: bool)

  datatype StatusMessage = StatusMessage(status: int, message: string)

  /** A JSON error response: its status, its "error" field and, when present,
      its "request_id" field. */
  datatype Response = Response(status: int, error: string, requestId: Option<string>)

  /** What a handler does after setting its headers. */
  datatype Continuation = Next | AbortWithStatus(status: int)

  const StatusOK := 200
  const StatusNoContent := 204
  const StatusBadRequest := 400
  const StatusForbidden := 403
  const StatusNotFound := 404
  const StatusInternalServerError := 500
  const StatusGatewayTimeout := 504

  const DenylistMessage := "This file cannot be modified: present in egg denylist."
  const ResourceNotFoundMessage := "The requested resource was not found on the system."
  const IsDirectoryMessage := "Cannot perform that action: file is a directory."
  const NameTooLongMessage := "Cannot perform that action: file name is too long."
  const DirectoryMissingMessage := "The requested directory does not exist."
  const TimeoutMessage := "The server could not process this request in time, please try again."
  const AbortedByClientMessage := "Request aborted by client."
  const GenericMessage := "An unexpected error was encountered while processing this request"
  const UnparsableMessage := "The data passed in the request was not in a parsable format. Please try again."

  const RequestIdHeader := "X-Request-Id"
  const AllowCredentialsHeader := "Access-Control-Allow-Credentials"
  const AllowMethodsHeader := "Access-Control-Allow-Methods"
  const MaxAgeHeader := "Access-Control-Max-Age"
  const AllowOriginHeader := "Access-Control-Allow-Origin"
  const AllowHeadersHeader := "Access-Control-Allow-Headers"
  const AllowedMethods := "GET, POST, PATCH, PUT, DELETE, OPTIONS"
  const AllowedHeaders :=
    "Accept, Accept-Encoding, Authorization, Cache-Control, Content-Type, Content-Length, Origin, X-Real-IP, X-CSRF-Token"

  // ---------------------------------------------------------------------
  // Headers

  /** `Header().Get`: the value of a header, "" when it is absent. */
  function HeaderValue(headers: map<string, string>, key: string): string {
    if key in headers then headers[key] else ""
  }

  /** gin's `c.Header`: set a response header, or delete it when the value is "". */
  function SetHeader(headers: map<string, string>, key: string, value: string): (r: map<string, string>)
    ensures HeaderValue(r, key) == value
    ensures value == "" ==> key !in r
    ensures value != "" ==> key in r && r[key] == value
    ensures forall k :: k != key ==> (k in r <==> k in headers) && (k in r ==> r[k] == headers[k])
  {
    if value == "" then headers - {key} else headers[key := value]
  }

  // ---------------------------------------------------------------------
  // Filesystem errors

  predicate Denylisted(c: Cause) {
    c.code == Some(DenylistFile) || Contains(c.text, "filesystem: file access prohibited")
  }

  predicate OutsideRoot(c: Cause) {
    c.code == Some(PathResolution) || Contains(c.text, "resolves to a location outside the server root")
  }

  predicate IsDirectoryError(c: Cause) {
    c.code == Some(IsDirectory) || Contains(c.text, "filesystem: is a directory")
  }

  predicate OutOfDiskSpace(c: Cause) {
    c.code == Some(DiskSpace) || Contains(c.text, "filesystem: not enough disk space")
  }

  predicate NameTooLong(c: Cause) {
    HasSuffix(c.text, "file name too long")
  }

  predicate ReaddirentFailed(c: Cause) {
    c.syscall == Some("readdirent")
  }

  /** `asFilesystemError`: the status and message for a recognised filesystem
      error, (0, "") for nil and for anything unrecognised. */
  function FilesystemError(err: Option<Cause>): (r: StatusMessage)
    ensures err.None? ==> r == StatusMessage(0, "")
    // CaptureErrors tests the message; the status is 0 exactly when it is empty
    ensures r.status == 0 <==> r.message == ""
    ensures r.status in {0, StatusBadRequest, StatusForbidden, StatusNotFound}
    // the denylist test comes first: it decides whatever else the error matches
    ensures err.Some? && Denylisted(err.value) ==> r == StatusMessage(StatusForbidden, DenylistMessage)
    ensures r.status == StatusForbidden ==> err.Some? && Denylisted(err.value)
  {
    match err
    case None => StatusMessage(0, "")
    case Some(c) =>
      if Denylisted(c) then StatusMessage(StatusForbidden, DenylistMessage)
      else if OutsideRoot(c) then StatusMessage(StatusNotFound, ResourceNotFoundMessage)
      else if IsDirectoryError(c) then StatusMessage(StatusBadRequest, IsDirectoryMessage)
      else if OutOfDiskSpace(c) then StatusMessage(StatusBadRequest, IsDirectoryMessage)
      else if NameTooLong(c) then StatusMessage(StatusBadRequest, NameTooLongMessage)
      else if ReaddirentFailed(c) then StatusMessage(StatusNotFound, DirectoryMissingMessage)
      else StatusMessage(0, "")
  }

  /** A test of the classification table, stated declaratively. */
  datatype Matcher =
    | CodeOrText(code: FsErrorCode, needle: string)
    | TextSuffix(suffix: string)
    | SyscallName(name: string)

  datatype Rule = Rule(matcher: Matcher, outcome: StatusMessage)

  predicate Matches(m: Matcher, c: Cause) {
    match m
    case CodeOrText(code, needle) => c.code == Some(code) || Contains(c.text, needle)
    case TextSuffix(suffix) => HasSuffix(c.text, suffix)
    case SyscallName(name) => c.syscall == Some(name)
  }

  /** The classification as an ordered table of rules. */
  const FilesystemRules: seq<Rule> := [
    Rule(CodeOrText(DenylistFile, "filesystem: file access prohibited"),
         StatusMessage(StatusForbidden, DenylistMessage)),
    Rule(CodeOrText(PathResolution, "resolves to a location outside the server root"),
         StatusMessage(StatusNotFound, ResourceNotFoundMessage)),
    Rule(CodeOrText(IsDirectory, "filesystem: is a directory"),
         StatusMessage(StatusBadRequest, IsDirectoryMessage)),
    Rule(CodeOrText(DiskSpace, "filesystem: not enough disk space"),
         StatusMessage(StatusBadRequest, IsDirectoryMessage)),
    Rule(TextSuffix("file name too long"),
         StatusMessage(StatusBadRequest, NameTooLongMessage)),
    Rule(SyscallName("readdirent"),
         StatusMessage(StatusNotFound, DirectoryMissingMessage))
  ]

  /** The outcome of the first rule that matches, (0, "") when none does. */
  function FirstRule(rules: seq<Rule>, c: Cause): (r: StatusMessage)
    ensures (forall i :: 0 <= i < |rules| ==> !Matches(rules[i].matcher, c)) ==> r == StatusMessage(0, "")
    ensures r != StatusMessage(0, "") ==> exists i :: 0 <= i < |rules| && r == rules[i].outcome
  {
    if rules == [] then StatusMessage(0, "")
    else if Matches(rules[0].matcher, c) then rules[0].outcome
    else
      var r := FirstRule(rules[1..], c);
      assert forall i :: 1 <= i < |rules| ==> rules[i] == rules[1..][i - 1];
      r
  }

  /** The rule that decides is the first one that matches. */
  lemma {:induction false} FirstRuleAt(rules: seq<Rule>, c: Cause, i: int)
    requires 0 <= i < |rules| && Matches(rules[i].matcher, c)
    requires forall j :: 0 <= j < i ==> !Matches(rules[j].matcher, c)
    ensures FirstRule(rules, c) == rules[i].outcome
  {
    if i > 0 {
      FirstRuleAt(rules[1..], c, i - 1);
    }
  }

  /** The if-chain of `asFilesystemError` is the ordered rule table: the first
      matching rule wins. */
  lemma {:induction false} FilesystemErrorFollowsRules(c: Cause)
    ensures FilesystemError(Some(c)) == FirstRule(FilesystemRules, c)
  {
    var rules := FilesystemRules;
    if Denylisted(c) {
      assert Matches(rules[0].matcher, c);
      return;
    }
    var rest := rules[1..];
    assert FirstRule(rules, c) == FirstRule(rest, c);
    if OutsideRoot(c) {
      assert Matches(rest[0].matcher, c);
      return;
    }
    rest := rest[1..];
    assert FirstRule(rules, c) == FirstRule(rest, c);
    if IsDirectoryError(c) {
      assert Matches(rest[0].matcher, c);
      return;
    }
    rest := rest[1..];
    assert FirstRule(rules, c) == FirstRule(rest, c);
    if OutOfDiskSpace(c) {
      assert Matches(rest[0].matcher, c);
      return;
    }
    rest := rest[1..];
    assert FirstRule(rules, c) == FirstRule(rest, c);
    if NameTooLong(c) {
      assert Matches(rest[0].matcher, c);
      return;
    }
    rest := rest[1..];
    assert FirstRule(rules, c) == FirstRule(rest, c);
    if ReaddirentFailed(c) {
      assert Matches(rest[0].matcher, c);
      return;
    }
    rest := rest[1..];
    assert rest == [];
  }

  /** The disk-space rule answers with the directory message, as written. */
  lemma DiskSpaceReportsDirectoryMessage(c: Cause)
    requires !Denylisted(c) && !OutsideRoot(c) && OutOfDiskSpace(c)
    ensures FilesystemError(Some(c)) == StatusMessage(StatusBadRequest, IsDirectoryMessage)
  {
  }

  // ---------------------------------------------------------------------
  // RequestError

  /** `errors.WithStackDepthIf` as the code after it sees the result: a
      non-nil error without a stack trace comes back wrapped. The wrapper
      keeps the error's text, its filesystem code and what it wraps, but its
      dynamic type is no longer `*os.SyscallError`, so the direct type
      assertion of `asFilesystemError` no longer finds a system call. */
  function WithStack(err: Option<Cause>): (r: Option<Cause>)
    ensures r.None? <==> err.None?
    ensures r.Some? ==>
      && r.value.syscall.None?
      && r.value.text == err.value.text
      && r.value.code == err.value.code
      && r.value.deadlineExceeded == err.value.deadlineExceeded
  {
    match err
    case None => None
    case Some(c) => Some(c.(syscall := None))
  }

  /** `RequestError`: the error, a status and a message; `SetStatus`,
      `SetMessage` and `Abort` assign the last two in place. */
  class RequestError {
    var err: Option<Cause>
    var status: int
    var msg: string

    /** `NewError`: the error with a stack trace attached. */
    constructor (err: Option<Cause>)
      ensures this.err == WithStack(err) && status == 0 && msg == ""
    {
      this.err := WithStack(err);
      status := 0;
      msg := "";
    }

    method SetMessage(m: string)
      modifies this`msg
      ensures msg == m
    {
      msg := m;
    }

    method SetStatus(s: int)
      modifies this`status
      ensures status == s
    {
      status := s;
    }

    /** `Abort`: pick the message (and the recorded status) and answer with
        the `status` argument and the request id from the response headers.
        The error is dereferenced when the writer status is 200. */
    method Abort(headers: map<string, string>, writerStatus: int, status: int) returns (response: Response)
      requires writerStatus == StatusOK ==> err.Some?
      modifies this`status, this`msg
      ensures response == Response(status, msg, Some(HeaderValue(headers, RequestIdHeader)))
      ensures msg ==
        if writerStatus == StatusOK && err.value.deadlineExceeded then TimeoutMessage
        else if writerStatus == StatusOK && Contains(err.value.text, "context canceled") then AbortedByClientMessage
        else if old(msg) == "" then GenericMessage
        else old(msg)
      ensures this.status ==
        if writerStatus == StatusOK && err.value.deadlineExceeded then StatusGatewayTimeout
        else if writerStatus == StatusOK && Contains(err.value.text, "context canceled") then StatusBadRequest
        else old(this.status)
    {
      var reqId := HeaderValue(headers, RequestIdHeader);
      if writerStatus == StatusOK {
        if err.value.deadlineExceeded {
          SetStatus(StatusGatewayTimeout);
          SetMessage(TimeoutMessage);
        } else if Contains(err.value.text, "context canceled") {
          SetStatus(StatusBadRequest);
          SetMessage(AbortedByClientMessage);
        }
      }
      if msg == "" {
        msg := GenericMessage;
      }
      response := Response(status, msg, Some(reqId));
    }
  }

  // ---------------------------------------------------------------------
  // CaptureErrors

  /** The handler of `CaptureErrors` once the chain has run: `last` is the
      last error attached to the context (None when there is none or it
      wraps nil); the result is the response it aborts with, None when it
      does nothing. */
  method CaptureErrors(last: Option<Cause>, writerStatus: int, headers: map<string, string>)
    returns (response: Option<Response>)
    ensures last.None? <==> response.None?
    // the error reaches asFilesystemError wrapped, so the readdirent rule never answers
    ensures response.Some? ==> response.value.error != DirectoryMissingMessage
    // an EOF is a request body that could not be parsed
    ensures last.Some? && last.value.text == "EOF" ==>
      response == Some(Response(StatusBadRequest, UnparsableMessage, None))
    // a recognised filesystem error decides the answer, whatever the writer status
    ensures last.Some? && last.value.text != "EOF" && FilesystemError(WithStack(last)).message != "" ==>
      response == Some(Response(FilesystemError(WithStack(last)).status, FilesystemError(WithStack(last)).message,
                                Some(HeaderValue(headers, RequestIdHeader))))
    // otherwise the status is the writer's when it is not 200 and 500 when it is,
    // even for an exceeded deadline; only the message depends on the error
    ensures last.Some? && last.value.text != "EOF" && FilesystemError(WithStack(last)).message == "" ==>
      response == Some(Response(
        if writerStatus != StatusOK then writerStatus else StatusInternalServerError,
        if writerStatus == StatusOK && last.value.deadlineExceeded then TimeoutMessage
        else if writerStatus == StatusOK && Contains(last.value.text, "context canceled") then AbortedByClientMessage
        else GenericMessage,
        Some(HeaderValue(headers, RequestIdHeader))))
  {
    if last.None? {
      return None;
    }
    var status := StatusInternalServerError;
    if writerStatus != StatusOK {
      status := writerStatus;
    }
    if last.value.text == "EOF" {
      return Some(Response(StatusBadRequest, UnparsableMessage, None));
    }
    var captured := new RequestError(last);
    var fs := FilesystemError(captured.err);
    if fs.message != "" {
      return Some(Response(fs.status, fs.message, Some(HeaderValue(headers, RequestIdHeader))));
    }
    var aborted := captured.Abort(headers, writerStatus, status);
    response := Some(aborted);
  }

  // ---------------------------------------------------------------------
  // Access control headers

  /** An allowed-origins entry admits a request origin when it is the
      wildcard or that origin. */
  predicate Admits(entry: string, origin: string) {
    entry == "*" || entry == origin
  }

  /** Entry `i` admits `origin` and no earlier entry does. */
  predicate FirstAdmittingAt(origins: seq<string>, origin: string, i: int) {
    && 0 <= i < |origins|
    && Admits(origins[i], origin)
    && forall j :: 0 <= j < i ==> !Admits(origins[j], origin)
  }

  /** The first allowed-origins entry admitting `origin`, if any. */
  function FirstAllowed(origins: seq<string>, origin: string): (r: Option<string>)
    ensures r.Some? <==> exists i :: 0 <= i < |origins| && Admits(origins[i], origin)
    ensures r.Some? ==> r.value in origins && Admits(r.value, origin)
  {
    if origins == [] then None
    else if Admits(origins[0], origin) then Some(origins[0])
    else
      var r := FirstAllowed(origins[1..], origin);
      assert forall i :: 1 <= i < |origins| ==> origins[i] == origins[1..][i - 1];
      r
  }

  /** The entry found is the first admitting one. */
  lemma {:induction false} FirstAllowedAt(origins: seq<string>, origin: string, i: int)
    requires 0 <= i < |origins| && Admits(origins[i], origin)
    requires forall j :: 0 <= j < i ==> !Admits(origins[j], origin)
    ensures FirstAllowed(origins, origin) == Some(origins[i])
  {
    if i > 0 {
      FirstAllowedAt(origins[1..], origin, i - 1);
    }
  }

  /** The value of Access-Control-Allow-Origin: the panel location, unless
      the request comes from elsewhere and an entry admits it. */
  function AllowedOrigin(origins: seq<string>, location: string, origin: string): (r: string)
    ensures origin == location ==> r == location
    // never an origin that no entry admits
    ensures r == location || (r in origins && Admits(r, origin))
    ensures origin != location && (forall i :: 0 <= i < |origins| ==> !Admits(origins[i], origin)) ==> r == location
    // otherwise the first admitting entry, which is "*" when the wildcard comes first
    ensures forall i :: origin != location && FirstAdmittingAt(origins, origin, i) ==> r == origins[i]
  {
    if origin == location then location
    else
      assert forall i :: FirstAdmittingAt(origins, origin, i) ==> FirstAllowed(origins, origin) == Some(origins[i]) by {
        forall i | FirstAdmittingAt(origins, origin, i) ensures FirstAllowed(origins, origin) == Some(origins[i]) {
          FirstAllowedAt(origins, origin, i);
        }
      }
      match FirstAllowed(origins, origin)
      case Some(entry) => entry
      case None => location
  }

  /** The handler of `SetAccessControlHeaders`: set the five CORS headers,
      then answer OPTIONS requests with 204 and pass every other request on. */
  method SetAccessControlHeaders(
    origins: seq<string>,
    location: string,
    headers: map<string, string>,
    origin: string,
    requestMethod: string)
    returns (out: map<string, string>, next: Continuation)
    ensures AllowCredentialsHeader in out && out[AllowCredentialsHeader] == "true"
    ensures AllowMethodsHeader in out && out[AllowMethodsHeader] == AllowedMethods
    ensures MaxAgeHeader in out && out[MaxAgeHeader] == "7200"
    ensures AllowHeadersHeader in out && out[AllowHeadersHeader] == AllowedHeaders
    // gin removes the header when the chosen origin is empty
    ensures AllowOriginHeader in out <==> AllowedOrigin(origins, location, origin) != ""
    ensures HeaderValue(out, AllowOriginHeader) == AllowedOrigin(origins, location, origin)
    ensures forall k :: k !in {AllowCredentialsHeader, AllowMethodsHeader, MaxAgeHeader, AllowOriginHeader, AllowHeadersHeader} ==>
      (k in out <==> k in headers) && (k in out ==> out[k] == headers[k])
    ensures next == if requestMethod == "OPTIONS" then AbortWithStatus(StatusNoContent) else Next
  {
    out := SetHeader(headers, AllowCredentialsHeader, "true");
    out := SetHeader(out, AllowMethodsHeader, AllowedMethods);
    out := SetHeader(out, MaxAgeHeader, "7200");
    out := SetHeader(out, AllowOriginHeader, location);
    out := SetHeader(out, AllowHeadersHeader, AllowedHeaders);
    ghost var defaults := out;
    if origin != location {
      var i := 0;
      while i < |origins|
        invariant 0 <= i <= |origins|
        invariant forall j :: 0 <= j < i ==> !Admits(origins[j], origin)
        invariant out == defaults
      {
        if origins[i] != "*" && origins[i] != origin {
          i := i + 1;
          continue;
        }
        FirstAllowedAt(origins, origin, i);
        out := SetHeader(out, AllowOriginHeader, origins[i]);
        break;
      }
    }
    if requestMethod == "OPTIONS" {
      return out, AbortWithStatus(StatusNoContent);
    }
    next := Next;
  }
}
