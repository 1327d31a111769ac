/** lib/api.js: the authenticated request pipeline (the request interceptor that
    attaches the bearer token and the response interceptor that refreshes the
    token pair once on a 401) and the multipart form bodies the API wrappers build.
    The refresh call's reply, the reply to the resent request and the `typeof window`
    guard are parameters; the redirect to `/login` is a boolean result. */
module Api {
  import opened JsValues
  import opened BrowserStorage

  const AuthorizationHeader := "Authorization"

  /** `Bearer ${access}`: a missing token is interpolated as "undefined" (a JSON
      `null` access token, which would give "null", is not told apart). */
  function Bearer(access: Option<string>): (h: string)
    ensures |h| >= 7 && h[..7] == "Bearer "
    ensures access.Some? ==> h[7..] == access.value
  {
    "Bearer " + match access case Some(a) => a case None => "undefined"
  }

  /** The request interceptor on a header map: with a window and a truthy stored
      access token, `Authorization` becomes its bearer value; nothing else changes. */
  function WithBearer(headers: map<string, string>, tokens: Option<TokenPair>, windowDefined: bool)
    : (h: map<string, string>)
    ensures windowDefined && HasAccess(tokens) ==>
      AuthorizationHeader in h && h[AuthorizationHeader] == Bearer(tokens.value.access)
    ensures !(windowDefined && HasAccess(tokens)) ==> h == headers
    ensures forall k :: k != AuthorizationHeader ==> (k in h <==> k in headers)
    ensures forall k :: k in h && k != AuthorizationHeader ==> h[k] == headers[k]
  {
    if windowDefined && HasAccess(tokens) then
      headers[AuthorizationHeader := Bearer(tokens.value.access)]
    else headers
  }

  /** An axios request config: the fields the interceptors touch. */
  class RequestConfig {
    var headers: map<string, string>
    /** `_retry`: set once the response interceptor has tried a refresh for it. */
    var retried: bool

    constructor(headers: map<string, string>)
      ensures this.headers == headers && !retried
    {
      this.headers := headers;
      retried := false;
    }
  }

  /** `api.interceptors.request.use(config => ...)`. */
  method AttachAccessToken(config: RequestConfig, storage: LocalStorage, windowDefined: bool)
    modifies config
    ensures config.headers == WithBearer(old(config.headers), storage.tokens, windowDefined)
    ensures config.retried == old(config.retried)
  {
    if windowDefined {
      var tokens := storage.tokens;
      if HasAccess(tokens) {
        config.headers := config.headers[AuthorizationHeader := Bearer(tokens.value.access)];
      }
    }
  }

  // ---------------------------------------------------------------------------
  // Response interceptor
  // ---------------------------------------------------------------------------

  /** `error.response?.status`; `None` when no response arrived. */
  datatype HttpError = HttpError(status: Option<int>)

  /** What a request settles to: a response, or a rejection. */
  datatype Settled = Resolved(status: int) | Rejected(error: HttpError)

  /** The reply of POST /token/refresh/: `res.data.access` and `res.data.refresh`,
      or a thrown error. */
  datatype RefreshReply = Refreshed(access: Option<string>, refresh: Option<string>) | RefreshFailed

  /** The requests the response interceptor issues. */
  datatype PipeCall = PostTokenRefresh(refresh: string) | Resend(authorization: string)

  /** The stored entries and the request config, as one value. */
  datatype Pipe = Pipe(
    tokens: Option<TokenPair>,
    storedUser: Option<User>,
    headers: map<string, string>,
    retried: bool)

  datatype PipeStep = PipeStep(next: Pipe, reply: Settled, calls: seq<PipeCall>, redirect: bool)

  /** The guard of the refresh branch: a 401, on a request not yet retried, in a browser. */
  predicate FirstUnauthorized(p: Pipe, err: HttpError, windowDefined: bool) {
    err.status == Some(401) && !p.retried && windowDefined
  }

  /** `{access: res.data.access, refresh: res.data.refresh || tokens.refresh}`. */
  function RotatedTokens(previousRefresh: string, access: Option<string>, refresh: Option<string>)
    : (t: TokenPair)
    ensures t.access == access
    ensures Present(refresh) ==> t.refresh == refresh
    ensures !Present(refresh) ==> t.refresh == Some(previousRefresh)
    ensures previousRefresh != "" ==> Present(t.refresh)
  {
    TokenPair(access, if Present(refresh) then refresh else Some(previousRefresh))
  }

  /** How many of `calls` are requests to the token-refresh endpoint. */
  function RefreshCount(calls: seq<PipeCall>): (n: nat)
    ensures n <= |calls|
    ensures n == 0 <==> forall i :: 0 <= i < |calls| ==> !calls[i].PostTokenRefresh?
    ensures n == |calls| <==> forall i :: 0 <= i < |calls| ==> calls[i].PostTokenRefresh?
  {
    if calls == [] then 0
    else (if calls[0].PostTokenRefresh? then 1 else 0) + RefreshCount(calls[1..])
  }

  /** The response interceptor's error handler on a rejected request. A first 401
      marks the request, and with a stored refresh token asks for a new pair: on
      success the pair is rotated, the request is resent with the new bearer value
      (through both interceptors again) and its reply is returned as it is; on
      failure both entries are removed, the client is sent to `/login` and the
      original error is rejected. Anything else is rejected unchanged. */
  function OnErrorStep(p: Pipe, err: HttpError, windowDefined: bool, refresh: RefreshReply, resent: Settled)
    : (r: PipeStep)
    ensures RefreshCount(r.calls) <= 1
    ensures !FirstUnauthorized(p, err, windowDefined) ==> r == PipeStep(p, Rejected(err), [], false)
    ensures r.next.retried == (p.retried || (err.status == Some(401) && windowDefined))
    ensures FirstUnauthorized(p, err, windowDefined) && !HasRefresh(p.tokens) ==>
      r == PipeStep(p.(retried := true), Rejected(err), [], false)
    ensures r.redirect <==> FirstUnauthorized(p, err, windowDefined) && HasRefresh(p.tokens) && refresh.RefreshFailed?
    ensures r.redirect ==>
      && r.next.tokens == None && r.next.storedUser == None
      && r.reply == Rejected(err)
      && r.calls == [PostTokenRefresh(p.tokens.value.refresh.value)]
      && r.next.headers == p.headers
    ensures FirstUnauthorized(p, err, windowDefined) && HasRefresh(p.tokens) && refresh.Refreshed? ==>
      var previous := p.tokens.value.refresh.value;
      && r.next.tokens == Some(RotatedTokens(previous, refresh.access, refresh.refresh))
      && r.next.storedUser == p.storedUser
      && r.calls == [PostTokenRefresh(previous), Resend(Bearer(refresh.access))]
      && r.next.headers == p.headers[AuthorizationHeader := Bearer(refresh.access)]
      && r.reply == resent
    decreases if p.retried then 0 else 1
  {
    if !FirstUnauthorized(p, err, windowDefined) then PipeStep(p, Rejected(err), [], false)
    else
      var marked := p.(retried := true);
      if !HasRefresh(marked.tokens) then PipeStep(marked, Rejected(err), [], false)
      else
        var previous := marked.tokens.value.refresh.value;
        match refresh
        case RefreshFailed =>
          PipeStep(marked.(tokens := None, storedUser := None), Rejected(err), [PostTokenRefresh(previous)], true)
        case Refreshed(access, rotated) =>
          var pair := RotatedTokens(previous, access, rotated);
          var updated := marked.(tokens := Some(pair),
                                 headers := marked.headers[AuthorizationHeader := Bearer(pair.access)]);
          // `api(originalRequest)` passes through the request interceptor again
          var resending := updated.(headers := WithBearer(updated.headers, updated.tokens, windowDefined));
          var calls := [PostTokenRefresh(previous), Resend(resending.headers[AuthorizationHeader])];
          match resent
          case Resolved(_) => PipeStep(resending, resent, calls, false)
          case Rejected(again) =>
            // a failed resend meets this handler again, on a request already retried
            var second := OnErrorStep(resending, again, windowDefined, refresh, resent);
            PipeStep(second.next, second.reply, calls + second.calls, second.redirect)
  }

  /** A request that the handler has seen with a 401 is never refreshed for again:
      whatever its next error, the handler passes it through. */
  lemma RetriedOnce(p: Pipe, err: HttpError, refresh: RefreshReply, resent: Settled,
                    err2: HttpError, refresh2: RefreshReply, resent2: Settled)
    requires err.status == Some(401)
    ensures var r := OnErrorStep(p, err, true, refresh, resent);
      OnErrorStep(r.next, err2, true, refresh2, resent2) == PipeStep(r.next, Rejected(err2), [], false)
  {
  }

  /** A refresh reply `{access: "A2"}` without a new refresh token keeps "R1" and
      resends with "Bearer A2". */
  lemma RefreshKeepsRefreshTokenScenario(headers: map<string, string>, u: Option<User>)
    ensures var p := Pipe(Some(TokenPair(Some("A1"), Some("R1"))), u, headers, false);
      var r := OnErrorStep(p, HttpError(Some(401)), true, Refreshed(Some("A2"), None), Resolved(200));
      && r.next.tokens == Some(TokenPair(Some("A2"), Some("R1")))
      && r.calls == [PostTokenRefresh("R1"), Resend("Bearer A2")]
      && r.reply == Resolved(200)
  {
    assert Bearer(Some("A2")) == "Bearer A2";
  }

  function Snapshot(config: RequestConfig, storage: LocalStorage): Pipe
    reads config, storage
  {
    Pipe(storage.tokens, storage.user, config.headers, config.retried)
  }

  /** `api.interceptors.response.use(response => response, async error => ...)`,
      the error handler. */
  method OnResponseError(config: RequestConfig, storage: LocalStorage, err: HttpError,
                         windowDefined: bool, refresh: RefreshReply, resent: Settled)
    returns (reply: Settled, calls: seq<PipeCall>, redirect: bool)
    modifies config, storage
    ensures var r := OnErrorStep(old(Snapshot(config, storage)), err, windowDefined, refresh, resent);
      && Snapshot(config, storage) == r.next
      && reply == r.reply && calls == r.calls && redirect == r.redirect
    decreases if config.retried then 0 else 1
  {
    reply, calls, redirect := Rejected(err), [], false;
    if err.status == Some(401) && !config.retried && windowDefined {
      config.retried := true;
      var tokens := storage.tokens;
      if HasRefresh(tokens) {
        var previous := tokens.value.refresh.value;
        calls := [PostTokenRefresh(previous)];
        match refresh {
          case Refreshed(access, rotated) =>
            var pair := RotatedTokens(previous, access, rotated);
            storage.SetTokens(pair);
            config.headers := config.headers[AuthorizationHeader := Bearer(pair.access)];
            AttachAccessToken(config, storage, windowDefined);
            calls := calls + [Resend(config.headers[AuthorizationHeader])];
            match resent {
              case Resolved(_) =>
                reply := resent;
              case Rejected(again) =>
                var more;
                reply, more, redirect := OnResponseError(config, storage, again, windowDefined, refresh, resent);
                calls := calls + more;
            }
          case RefreshFailed =>
            storage.RemoveTokens();
            storage.RemoveUser();
            redirect := true;
        }
      }
    }
  }

  // ---------------------------------------------------------------------------
  // Multipart form bodies
  // ---------------------------------------------------------------------------

  /** One `[key, value]` pair of `Object.entries(data)` or of a `FormData`. */
  datatype Field = Field(key: string, value: JsValue)

  /** The browser's `FormData`, as the list of appended pairs. */
  class FormData {
    var entries: seq<Field>

    constructor()
      ensures entries == []
    {
      entries := [];
    }

    method Append(key: string, value: JsValue)
      modifies this
      ensures entries == old(entries) + [Field(key, value)]
    {
      entries := entries + [Field(key, value)];
    }
  }

  /** Which values a builder skips: `updateProfile` skips null, undefined and '';
      the announcement and payment builders skip only null and undefined. */
  datatype FieldRule = DropBlank | DropMissing

  predicate Admits(rule: FieldRule, v: JsValue) {
    match rule
    case DropBlank => v != Null && v != Undefined && v != Str("")
    case DropMissing => v != Null && v != Undefined
  }

  /** The pairs a builder appends: those whose value the rule admits, in order. */
  function Kept(rule: FieldRule, data: seq<Field>): (r: seq<Field>)
    ensures |r| <= |data|
    ensures forall f :: f in r <==> f in data && Admits(rule, f.value)
  {
    if data == [] then []
    else
      var rest := Kept(rule, data[1..]);
      assert forall f :: f in data <==> f == data[0] || f in data[1..];
      if Admits(rule, data[0].value) then [data[0]] + rest else rest
  }

  /** Filtering keeps the original order: it distributes over concatenation. */
  lemma {:induction false} KeptAppend(rule: FieldRule, a: seq<Field>, b: seq<Field>)
    ensures Kept(rule, a + b) == Kept(rule, a) + Kept(rule, b)
  {
    if a == [] {
      assert a + b == b;
    } else {
      assert (a + b)[1..] == a[1..] + b;
      KeptAppend(rule, a[1..], b);
    }
  }

  /** `Object.entries(data).forEach(([k, v]) => { if (...) formData.append(k, v) })`. */
  method BuildForm(rule: FieldRule, data: seq<Field>) returns (form: FormData)
    ensures form.entries == Kept(rule, data)
  {
    form := new FormData();
    for i := 0 to |data|
      invariant form.entries == Kept(rule, data[..i])
    {
      KeptAppend(rule, data[..i], [data[i]]);
      assert data[..i + 1] == data[..i] + [data[i]];
      if Admits(rule, data[i].value) {
        form.Append(data[i].key, data[i].value);
      }
    }
    assert data[..|data|] == data;
  }

  /** `authAPI.updateProfile(data)`: every pair whose value is not null, undefined
      or '' is appended, and no other. */
  method UpdateProfileBody(data: seq<Field>) returns (form: FormData)
    ensures form.entries == Kept(DropBlank, data)
    ensures forall f :: f in form.entries <==>
      f in data && f.value != Null && f.value != Undefined && f.value != Str("")
  {
    form := BuildForm(DropBlank, data);
  }

  /** `announcementsAPI.adminCreate(data)` and `adminUpdate(id, data)`: only null
      and undefined are skipped, so '' and `false` are sent. */
  method AnnouncementBody(data: seq<Field>) returns (form: FormData)
    ensures form.entries == Kept(DropMissing, data)
    ensures forall f :: f in form.entries <==> f in data && f.value != Null && f.value != Undefined
  {
    form := BuildForm(DropMissing, data);
  }

  /** `paymentsAPI.submit(data)`: the same rule as the announcement builders. */
  method PaymentBody(data: seq<Field>) returns (form: FormData)
    ensures form.entries == Kept(DropMissing, data)
    ensures forall f :: f in form.entries <==> f in data && f.value != Null && f.value != Undefined
  {
    form := BuildForm(DropMissing, data);
  }

  /** `authAPI.uploadNationalID({front, back})`: each side is appended only when
      given (truthy), the front before the back. */
  method NationalIdBody(front: JsValue, back: JsValue) returns (form: FormData)
    ensures Field("national_id_front", front) in form.entries <==> Truthy(front)
    ensures Field("national_id_back", back) in form.entries <==> Truthy(back)
    ensures |form.entries| == (if Truthy(front) then 1 else 0) + (if Truthy(back) then 1 else 0)
    ensures forall f :: f in form.entries ==>
      f == Field("national_id_front", front) || f == Field("national_id_back", back)
    ensures Truthy(front) ==> form.entries[0] == Field("national_id_front", front)
  {
    form := new FormData();
    if Truthy(front) {
      form.Append("national_id_front", front);
    }
    if Truthy(back) {
      form.Append("national_id_back", back);
    }
  }
}
