/**
 * The authenticated request gateway: one HTTP client shared by every service.
 * A request interceptor attaches `Authorization: Bearer <token>` (section 2.1
 * of RFC 6750) from browser storage; a response interceptor answers a 401
 * (section 15.5.2 of RFC 9110) by refreshing the access token once per request,
 * re-issuing the request, and otherwise raises an error toast and rejects.
 *
 * Browser storage is a map, the server is a pair of functions from what is sent
 * to what comes back, and the client records every call it puts on the wire.
 */
module Api {
  import opened Wrappers

  type Storage = map<string, string>
  type Headers = map<string, string>

  const TokenKey := "token"
  const RefreshTokenKey := "refreshToken"
  const Authorization := "Authorization"
  const LoginPage := "/login"
  const FallbackMessage := "An error occurred"

  function Bearer(token: string): string {
    "Bearer " + token
  }

  /** A stored value that JavaScript treats as true: present and not the empty string. */
  function Stored(storage: Storage, key: string): (v: Option<string>)
    ensures v.Some? <==> key in storage && storage[key] != ""
    ensures v.Some? ==> v.value == storage[key]
  {
    if key in storage && storage[key] != "" then Some(storage[key]) else None
  }

  /** The server's answer: a status and the message of its body ("" when it has none), or nothing. */
  datatype Reply = Answered(status: int, message: string) | NoResponse

  /** axios resolves a request only on a 2xx status. */
  predicate IsSuccess(reply: Reply) {
    reply.Answered? && 200 <= reply.status < 300
  }

  predicate IsUnauthorized(reply: Reply) {
    reply.Answered? && reply.status == 401
  }

  /** What goes on the wire: a call through the client, or the bare refresh call. */
  datatype Call = ApiCall(path: string, headers: Headers) | RefreshCall(refreshToken: string)

  datatype RefreshReply = Refreshed(accessToken: string) | RefreshFailed(reason: Reply)

  /** The backend: its answer to every call through the client, and to every refresh call. */
  datatype Backend = Backend(api: Call -> Reply, refresh: string -> RefreshReply)

  datatype Error = RequestError(reply: Reply) | RefreshError(reason: Reply)

  datatype Outcome = Resolved(reply: Reply) | Rejected(error: Error)

  /** The browser state the gateway touches. */
  datatype Browser = Browser(storage: Storage, location: string, toasts: seq<string>, calls: seq<Call>)

  /** A request's configuration: its path, its headers and the `_retry` flag. */
  datatype Req = Req(path: string, headers: Headers, retry: bool)

  datatype Step = Step(browser: Browser, request: Req, outcome: Outcome)

  /** The request interceptor's header update. */
  function WithAuth(storage: Storage, headers: Headers): (h: Headers)
    ensures Stored(storage, TokenKey).Some? ==>
      Authorization in h && h[Authorization] == Bearer(storage[TokenKey])
    ensures Stored(storage, TokenKey).None? ==> h == headers
    ensures forall k :: k != Authorization ==> (k in h <==> k in headers)
    ensures forall k :: k != Authorization && k in h ==> h[k] == headers[k]
  {
    match Stored(storage, TokenKey)
    case Some(token) => headers[Authorization := Bearer(token)]
    case None => headers
  }

  /** The message of the error toast. */
  function ErrorMessage(reply: Reply): string {
    if reply.Answered? && reply.message != "" then reply.message else FallbackMessage
  }

  predicate RaisesToast(reply: Reply) {
    reply.Answered? && reply.status >= 400
  }

  function Rank(retry: bool): nat {
    if retry then 0 else 1
  }

  /** One pass of a request through the client: interceptor, call, then the response handlers. */
  function Exchange(be: Backend, b: Browser, r: Req): (s: Step)
    decreases Rank(r.retry), 1
    ensures |s.browser.calls| > |b.calls| && s.browser.calls[..|b.calls|] == b.calls
  {
    var headers := WithAuth(b.storage, r.headers);
    var call := ApiCall(r.path, headers);
    var b1 := b.(calls := b.calls + [call]);
    var r1 := r.(headers := headers);
    var reply := be.api(call);
    if IsSuccess(reply) then Step(b1, r1, Resolved(reply)) else Recovery(be, b1, r1, reply)
  }

  /** The response interceptor's error handler. */
  function Recovery(be: Backend, b: Browser, r: Req, reply: Reply): (s: Step)
    decreases Rank(r.retry), 0
    ensures |s.browser.calls| >= |b.calls| && s.browser.calls[..|b.calls|] == b.calls
  {
    if IsUnauthorized(reply) && !r.retry then
      var r1 := r.(retry := true);
      match Stored(b.storage, RefreshTokenKey)
      case Some(refreshToken) =>
        var b1 := b.(calls := b.calls + [RefreshCall(refreshToken)]);
        (match be.refresh(refreshToken)
         case Refreshed(token) =>
           Exchange(be, b1.(storage := b1.storage[TokenKey := token]),
                    r1.(headers := r1.headers[Authorization := Bearer(token)]))
         case RefreshFailed(reason) =>
           Step(b1.(storage := b1.storage - {TokenKey, RefreshTokenKey}, location := LoginPage),
                r1, Rejected(RefreshError(reason))))
      case None => Surface(b, r1, reply)
    else
      Surface(b, r, reply)
  }

  /** Toast for a status of 400 or more, then reject with the error itself. */
  function Surface(b: Browser, r: Req, reply: Reply): Step {
    var b1 := if RaisesToast(reply) then b.(toasts := b.toasts + [ErrorMessage(reply)]) else b;
    Step(b1, r, Rejected(RequestError(reply)))
  }

  /** The first call a request puts on the wire. */
  function FirstCall(b: Browser, r: Req): Call {
    ApiCall(r.path, WithAuth(b.storage, r.headers))
  }

  /** Whether the first answer leads to a refresh: a 401, no retry yet, and a refresh token stored. */
  predicate Refreshes(be: Backend, b: Browser, r: Req) {
    IsUnauthorized(be.api(FirstCall(b, r))) && !r.retry && Stored(b.storage, RefreshTokenKey).Some?
  }

  /** The calls one request may put on the wire: the call; the call and a refresh; or both and one re-issue. */
  predicate AttemptShape(d: seq<Call>, path: string) {
    && 1 <= |d| <= 3
    && d[0].ApiCall? && d[0].path == path
    && (|d| >= 2 ==> d[1].RefreshCall?)
    && (|d| == 3 ==> d[2].ApiCall? && d[2].path == path)
  }

  /**
   * A request already marked `_retry` is never refreshed again: one call, and a
   * failure is surfaced as it is (a second 401 is final).
   */
  lemma RetriedRequestIsFinal(be: Backend, b: Browser, r: Req)
    requires r.retry
    ensures var s := Exchange(be, b, r);
      && s.browser.calls == b.calls + [FirstCall(b, r)]
      && s.browser.storage == b.storage && s.browser.location == b.location
      && s.request.retry
      && var reply := be.api(FirstCall(b, r));
         if IsSuccess(reply) then s.outcome == Resolved(reply) && s.browser.toasts == b.toasts
         else s.outcome == Rejected(RequestError(reply)) &&
              s.browser.toasts == b.toasts + (if RaisesToast(reply) then [ErrorMessage(reply)] else [])
  {
  }

  /**
   * At most one refresh and one re-issue per request: whatever the server
   * answers, the calls a request makes have one of the three shapes, and a
   * request that is already marked `_retry` makes exactly one call.
   */
  lemma AtMostOneRefresh(be: Backend, b: Browser, r: Req)
    ensures var s := Exchange(be, b, r);
      && |s.browser.calls| > |b.calls|
      && s.browser.calls[..|b.calls|] == b.calls
      && AttemptShape(s.browser.calls[|b.calls|..], r.path)
      && (r.retry ==> |s.browser.calls| == |b.calls| + 1)
  {
    var s := Exchange(be, b, r);
    var first := FirstCall(b, r);
    var b1 := b.(calls := b.calls + [first]);
    var r1 := r.(headers := WithAuth(b.storage, r.headers));
    var reply := be.api(first);
    if !IsSuccess(reply) && IsUnauthorized(reply) && !r.retry && Stored(b.storage, RefreshTokenKey).Some? {
      var rt := Stored(b.storage, RefreshTokenKey).value;
      var b2 := b1.(calls := b1.calls + [RefreshCall(rt)]);
      match be.refresh(rt)
      case Refreshed(token) =>
        var b3 := b2.(storage := b2.storage[TokenKey := token]);
        var r3 := r1.(retry := true).(headers := r1.headers[Authorization := Bearer(token)]);
        RetriedRequestIsFinal(be, b3, r3);
        assert s == Exchange(be, b3, r3);
        assert s.browser.calls == b.calls + [first, RefreshCall(rt), FirstCall(b3, r3)];
      case RefreshFailed(_) =>
        assert s.browser.calls == b.calls + [first, RefreshCall(rt)];
    } else {
      assert s.browser.calls == b.calls + [first];
    }
  }

  /**
   * Refresh success: only the `token` key is overwritten (the refresh token is
   * kept), the request is re-issued once with the new bearer token, and its
   * answer decides the outcome.
   */
  lemma RefreshSuccess(be: Backend, b: Browser, r: Req, token: string)
    requires Refreshes(be, b, r)
    requires be.refresh(Stored(b.storage, RefreshTokenKey).value) == Refreshed(token)
    ensures var s := Exchange(be, b, r);
      var rt := Stored(b.storage, RefreshTokenKey).value;
      && s.browser.storage == b.storage[TokenKey := token]
      && s.browser.location == b.location
      && |s.browser.calls| == |b.calls| + 3
      && s.browser.calls[..|b.calls| + 2] == b.calls + [FirstCall(b, r), RefreshCall(rt)]
      && var again := s.browser.calls[|b.calls| + 2];
         && again.ApiCall? && again.path == r.path
         && Authorization in again.headers && again.headers[Authorization] == Bearer(token)
         && (IsSuccess(be.api(again)) ==> s.outcome == Resolved(be.api(again)))
         && (!IsSuccess(be.api(again)) ==> s.outcome == Rejected(RequestError(be.api(again))))
  {
    var rt := Stored(b.storage, RefreshTokenKey).value;
    var first := FirstCall(b, r);
    var b1 := b.(calls := b.calls + [first]);
    var r1 := r.(headers := WithAuth(b.storage, r.headers));
    var b2 := b1.(calls := b1.calls + [RefreshCall(rt)]);
    var b3 := b2.(storage := b2.storage[TokenKey := token]);
    var r3 := r1.(retry := true).(headers := r1.headers[Authorization := Bearer(token)]);
    assert Exchange(be, b, r) == Recovery(be, b1, r1, be.api(first));
    assert Recovery(be, b1, r1, be.api(first)) == Exchange(be, b3, r3);
    RetriedRequestIsFinal(be, b3, r3);
    assert b3.calls == b.calls + [first, RefreshCall(rt)];
    var again := FirstCall(b3, r3);
    assert again.headers[Authorization] == Bearer(token) by {
      if Stored(b3.storage, TokenKey).None? {
        assert again.headers == r3.headers;
      }
    }
  }

  /**
   * Refresh failure: both tokens are removed, the browser is sent to the login
   * page, the request rejects with the refresh error (not the 401), and no
   * toast is raised; nothing is re-issued.
   */
  lemma RefreshFailure(be: Backend, b: Browser, r: Req, reason: Reply)
    requires Refreshes(be, b, r)
    requires be.refresh(Stored(b.storage, RefreshTokenKey).value) == RefreshFailed(reason)
    ensures var s := Exchange(be, b, r);
      && s.browser.storage == b.storage - {TokenKey, RefreshTokenKey}
      && s.browser.location == LoginPage
      && s.browser.toasts == b.toasts
      && s.browser.calls == b.calls + [FirstCall(b, r), RefreshCall(Stored(b.storage, RefreshTokenKey).value)]
      && s.outcome == Rejected(RefreshError(reason))
  {
  }

  /**
   * Any other failure (a 401 without a stored refresh token, a 401 on a
   * retried request, another status, no answer) changes no storage, raises one
   * toast when the status is 400 or more, and rejects with the error itself.
   */
  lemma UnrecoveredFailure(be: Backend, b: Browser, r: Req)
    requires !IsSuccess(be.api(FirstCall(b, r)))
    requires !Refreshes(be, b, r)
    ensures var s := Exchange(be, b, r);
      var reply := be.api(FirstCall(b, r));
      && s.browser.storage == b.storage
      && s.browser.location == b.location
      && s.browser.calls == b.calls + [FirstCall(b, r)]
      && s.browser.toasts == b.toasts + (if RaisesToast(reply) then [ErrorMessage(reply)] else [])
      && s.outcome == Rejected(RequestError(reply))
      && (IsUnauthorized(reply) ==> s.request.retry)
  {
  }

  /**
   * Nothing is swallowed: a request resolves exactly when the last call
   * through the client was answered with a 2xx, and then with that answer,
   * unmodified.
   */
  lemma ResolvesOnlyOnSuccess(be: Backend, b: Browser, r: Req)
    ensures var s := Exchange(be, b, r);
      var d := s.browser.calls[|b.calls|..];
      var last := if d[|d| - 1].ApiCall? then d[|d| - 1] else d[0];
      && (s.outcome.Resolved? <==> IsSuccess(be.api(last)))
      && (s.outcome.Resolved? ==> s.outcome.reply == be.api(last))
  {
    AtMostOneRefresh(be, b, r);
    var first := FirstCall(b, r);
    var reply := be.api(first);
    if IsSuccess(reply) {
    } else if Refreshes(be, b, r) {
      var rt := Stored(b.storage, RefreshTokenKey).value;
      match be.refresh(rt)
      case Refreshed(token) =>
        RefreshSuccess(be, b, r, token);
      case RefreshFailed(reason) =>
        RefreshFailure(be, b, r, reason);
    } else {
      UnrecoveredFailure(be, b, r);
    }
  }

  /** A file chosen in the browser; its contents are not modelled. */
  datatype File = File(name: string)

  /** A property value of the task object handed to `createTask`. */
  datatype Value = Text(text: string) | Number(amount: real) | Files(files: seq<File>)

  /** A JavaScript object: its own keys with their values, in insertion order. */
  type Object = seq<(string, Value)>

  const AttachmentsKey := "attachments"

  /** One `formData.append` call. */
  datatype Part = Field(name: string, value: Value) | Attachment(file: File)

  datatype Body = Multipart(parts: seq<Part>) | Json(data: Object)

  predicate DistinctKeys(o: Object) {
    forall i, j :: 0 <= i < j < |o| ==> o[i].0 != o[j].0
  }

  /** The value under `attachments`, when there is one, is a list of files. */
  predicate AttachmentsAreFiles(o: Object) {
    forall i :: 0 <= i < |o| && o[i].0 == AttachmentsKey ==> o[i].1.Files?
  }

  /** `o[key]`. */
  function Lookup(o: Object, key: string): (v: Option<Value>)
    ensures v.Some? <==> exists i :: 0 <= i < |o| && o[i].0 == key
  {
    if o == [] then None
    else if o[|o| - 1].0 == key then Some(o[|o| - 1].1)
    else
      var v := Lookup(o[..|o| - 1], key);
      assert forall i :: 0 <= i < |o| - 1 ==> o[..|o| - 1][i] == o[i];
      v
  }

  /** In an object without repeated keys, each key finds its own value. */
  lemma {:induction false} LookupAt(o: Object, i: nat)
    requires DistinctKeys(o) && i < |o|
    ensures Lookup(o, o[i].0) == Some(o[i].1)
    decreases |o|
  {
    if i < |o| - 1 {
      var init := o[..|o| - 1];
      assert init[i] == o[i] && DistinctKeys(init);
      LookupAt(init, i);
    }
  }

  /** An object without an `attachments` key is its own list of other fields. */
  lemma {:induction false} WithoutAttachmentsKeeps(o: Object)
    requires forall i :: 0 <= i < |o| ==> o[i].0 != AttachmentsKey
    ensures WithoutAttachments(o) == o
    decreases |o|
  {
    if o != [] {
      WithoutAttachmentsKeeps(o[..|o| - 1]);
    }
  }

  /** The files under `attachments`; none when the key is absent. */
  function AttachedFiles(o: Object): seq<File> {
    match Lookup(o, AttachmentsKey)
    case Some(Files(fs)) => fs
    case _ => []
  }

  /** `taskData.attachments && taskData.attachments.length > 0`. */
  predicate HasAttachments(o: Object) {
    var v := Lookup(o, AttachmentsKey);
    v.Some? && v.value.Files? && |v.value.files| > 0
  }

  function FileParts(files: seq<File>): (ps: seq<Part>)
    ensures |ps| == |files|
    ensures forall k :: 0 <= k < |files| ==> ps[k] == Attachment(files[k])
  {
    if files == [] then [] else FileParts(files[..|files| - 1]) + [Attachment(files[|files| - 1])]
  }

  /** The parts appended for one key: each file under `attachments`, otherwise the value itself. */
  function KeyParts(key: string, value: Value): seq<Part>
    requires key == AttachmentsKey ==> value.Files?
  {
    if key == AttachmentsKey then FileParts(value.files) else [Field(key, value)]
  }

  /**
   * The multipart body: the parts of every key, in key order. The
   * `attachments` list is never sent as a plain field, only file by file.
   */
  function FormParts(o: Object): (ps: seq<Part>)
    requires AttachmentsAreFiles(o)
    ensures forall k :: 0 <= k < |ps| && ps[k].Field? ==> ps[k].name != AttachmentsKey
  {
    if o == [] then []
    else FormParts(o[..|o| - 1]) + KeyParts(o[|o| - 1].0, o[|o| - 1].1)
  }

  /** The files of a multipart body, in order. */
  function FilesOf(ps: seq<Part>): seq<File> {
    if ps == [] then []
    else FilesOf(ps[..|ps| - 1]) + (if ps[|ps| - 1].Attachment? then [ps[|ps| - 1].file] else [])
  }

  /** The plain fields of a multipart body, in order. */
  function FieldsOf(ps: seq<Part>): seq<(string, Value)> {
    if ps == [] then []
    else FieldsOf(ps[..|ps| - 1]) + (if ps[|ps| - 1].Field? then [(ps[|ps| - 1].name, ps[|ps| - 1].value)] else [])
  }

  /** The object without its `attachments` key. */
  function WithoutAttachments(o: Object): seq<(string, Value)> {
    if o == [] then []
    else WithoutAttachments(o[..|o| - 1]) + (if o[|o| - 1].0 == AttachmentsKey then [] else [o[|o| - 1]])
  }

  lemma {:induction false} FilesOfAppend(a: seq<Part>, b: seq<Part>)
    ensures FilesOf(a + b) == FilesOf(a) + FilesOf(b)
    decreases |b|
  {
    if b != [] {
      assert (a + b)[..|a + b| - 1] == a + b[..|b| - 1];
      FilesOfAppend(a, b[..|b| - 1]);
    } else {
      assert a + b == a;
    }
  }

  lemma {:induction false} FieldsOfAppend(a: seq<Part>, b: seq<Part>)
    ensures FieldsOf(a + b) == FieldsOf(a) + FieldsOf(b)
    decreases |b|
  {
    if b != [] {
      assert (a + b)[..|a + b| - 1] == a + b[..|b| - 1];
      FieldsOfAppend(a, b[..|b| - 1]);
    } else {
      assert a + b == a;
    }
  }

  lemma {:induction false} FilesOfFileParts(files: seq<File>)
    ensures FilesOf(FileParts(files)) == files
    ensures FieldsOf(FileParts(files)) == []
  {
    if files != [] {
      var init := files[..|files| - 1];
      FilesOfFileParts(init);
      FilesOfAppend(FileParts(init), [Attachment(files[|files| - 1])]);
      FieldsOfAppend(FileParts(init), [Attachment(files[|files| - 1])]);
      assert FieldsOf([Attachment(files[|files| - 1])]) == [];
      assert FilesOf([Attachment(files[|files| - 1])]) == [files[|files| - 1]];
    }
  }

  /** The last key decides `o[attachments]` when it is `attachments`; otherwise the rest of the object does. */
  lemma AttachedFilesLast(o: Object)
    requires o != [] && AttachmentsAreFiles(o) && DistinctKeys(o)
    ensures var init, last := o[..|o| - 1], o[|o| - 1];
      AttachedFiles(o) == if last.0 == AttachmentsKey then last.1.files else AttachedFiles(init)
  {
    var init, last := o[..|o| - 1], o[|o| - 1];
    if last.0 == AttachmentsKey {
      assert Lookup(o, AttachmentsKey) == Some(last.1);
    } else {
      assert Lookup(o, AttachmentsKey) == Lookup(init, AttachmentsKey);
    }
  }

  /** In an object without repeated keys, the keys before an `attachments` key hold no files. */
  lemma NoAttachmentsBefore(o: Object)
    requires o != [] && DistinctKeys(o) && o[|o| - 1].0 == AttachmentsKey
    ensures AttachedFiles(o[..|o| - 1]) == []
  {
    var init := o[..|o| - 1];
    assert forall i :: 0 <= i < |init| ==> init[i].0 != AttachmentsKey by {
      forall i | 0 <= i < |init| ensures init[i].0 != AttachmentsKey {
        assert init[i] == o[i];
      }
    }
    assert Lookup(init, AttachmentsKey).None?;
  }

  /**
   * The multipart body carries the attached files, in their order, and each
   * other key exactly once, with its value, in key order.
   */
  lemma {:induction false} FormPartsContents(o: Object)
    requires AttachmentsAreFiles(o) && DistinctKeys(o)
    ensures FieldsOf(FormParts(o)) == WithoutAttachments(o)
    ensures FilesOf(FormParts(o)) == AttachedFiles(o)
  {
    if o != [] {
      var init, key, value := o[..|o| - 1], o[|o| - 1].0, o[|o| - 1].1;
      assert AttachmentsAreFiles(init) && DistinctKeys(init);
      FormPartsContents(init);
      var before, parts := FormParts(init), KeyParts(key, value);
      assert FormParts(o) == before + parts;
      FilesOfAppend(before, parts);
      FieldsOfAppend(before, parts);
      AttachedFilesLast(o);
      if key == AttachmentsKey {
        FilesOfFileParts(value.files);
        NoAttachmentsBefore(o);
      } else {
        assert FilesOf([Field(key, value)]) == [];
        assert FieldsOf([Field(key, value)]) == [(key, value)];
      }
    }
  }

  /**
   * `taskService.createTask`'s body: multipart when the task has attachments,
   * appending every file under `attachments` and every other key once;
   * otherwise the object itself as JSON.
   */
  method CreateTaskBody(data: Object) returns (body: Body)
    requires AttachmentsAreFiles(data)
    ensures HasAttachments(data) ==> body == Multipart(FormParts(data))
    ensures !HasAttachments(data) ==> body == Json(data)
  {
    if !HasAttachments(data) {
      return Json(data);
    }
    var parts: seq<Part> := [];
    var i := 0;
    while i < |data|
      invariant 0 <= i <= |data|
      invariant AttachmentsAreFiles(data[..i])
      invariant parts == FormParts(data[..i])
    {
      var key, value := data[i].0, data[i].1;
      assert data[..i + 1][..i] == data[..i];
      if key == AttachmentsKey {
        var files := value.files;
        var j := 0;
        while j < |files|
          invariant 0 <= j <= |files|
          invariant parts == FormParts(data[..i]) + FileParts(files[..j])
        {
          assert files[..j + 1][..j] == files[..j];
          parts := parts + [Attachment(files[j])];
          j := j + 1;
        }
        assert files[..j] == files;
      } else {
        parts := parts + [Field(key, value)];
      }
      assert AttachmentsAreFiles(data[..i + 1]);
      assert FormParts(data[..i + 1]) == FormParts(data[..i]) + KeyParts(key, value);
      i := i + 1;
    }
    assert data[..i] == data;
    body := Multipart(parts);
  }

  /** A request's configuration, which the interceptors update in place. */
  class RequestConfig {
    var path: string
    var headers: Headers
    var retry: bool

    constructor (path: string)
      ensures this.path == path && headers == map[] && !retry
    {
      this.path := path;
      headers := map[];
      retry := false;
    }

    function Value(): Req
      reads this
    {
      Req(path, headers, retry)
    }
  }

  /** The shared client, with the browser state it reads and writes. */
  class Client {
    var storage: Storage
    var location: string
    var toasts: seq<string>
    var calls: seq<Call>
    const backend: Backend

    constructor (storage: Storage, location: string, backend: Backend)
      ensures this.storage == storage && this.location == location
      ensures toasts == [] && calls == [] && this.backend == backend
    {
      this.storage := storage;
      this.location := location;
      toasts := [];
      calls := [];
      this.backend := backend;
    }

    function State(): Browser
      reads this
    {
      Browser(storage, location, toasts, calls)
    }

    /** The request interceptor. */
    method InterceptRequest(config: RequestConfig)
      modifies config`headers
      ensures config.headers == WithAuth(storage, old(config.headers))
    {
      var token := Stored(storage, TokenKey);
      if token.Some? {
        config.headers := config.headers[Authorization := Bearer(token.value)];
      }
    }

    /** Sends a request through the interceptors; the result is `Exchange`. */
    method Send(config: RequestConfig) returns (o: Outcome)
      modifies this, config
      decreases Rank(config.retry), 1
      ensures Step(State(), config.Value(), o) == Exchange(backend, old(State()), old(config.Value()))
    {
      InterceptRequest(config);
      var call := ApiCall(config.path, config.headers);
      calls := calls + [call];
      var reply := backend.api(call);
      if IsSuccess(reply) {
        o := Resolved(reply);
      } else {
        o := HandleError(config, reply);
      }
    }

    /** The response interceptor's error handler; the result is `Recovery`. */
    method HandleError(config: RequestConfig, reply: Reply) returns (o: Outcome)
      modifies this, config
      decreases Rank(config.retry), 0
      ensures Step(State(), config.Value(), o) == Recovery(backend, old(State()), old(config.Value()), reply)
    {
      if IsUnauthorized(reply) && !config.retry {
        config.retry := true;
        var refreshToken := Stored(storage, RefreshTokenKey);
        if refreshToken.Some? {
          calls := calls + [RefreshCall(refreshToken.value)];
          match backend.refresh(refreshToken.value)
          case Refreshed(token) =>
            storage := storage[TokenKey := token];
            config.headers := config.headers[Authorization := Bearer(token)];
            o := Send(config);
            return;
          case RefreshFailed(reason) =>
            storage := storage - {TokenKey, RefreshTokenKey};
            location := LoginPage;
            o := Rejected(RefreshError(reason));
            return;
        }
      }
      if RaisesToast(reply) {
        toasts := toasts + [ErrorMessage(reply)];
      }
      o := Rejected(RequestError(reply));
    }

    /** A service call: a fresh configuration for the path, sent through the client. */
    method Request(path: string) returns (o: Outcome)
      modifies this
      ensures State() == Exchange(backend, old(State()), Req(path, map[], false)).browser
      ensures o == Exchange(backend, old(State()), Req(path, map[], false)).outcome
    {
      var config := new RequestConfig(path);
      o := Send(config);
    }
  }
}
