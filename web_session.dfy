/** The web client's session: the token and code it keeps in
    `localStorage`, the `apiRequest` wrapper that attaches the bearer token
    and re-logs in once on a 401, and the login form's submit handler.
    Every `fetch` is recorded in `sent`; what each one settles to is an
    input. */
module WebSession {

  import opened Models
  import opened Strings

  const TokenKey: string := "health_app_token"
  const CodeKey: string := "health_app_code"
  const LoginUrl: string := "/api/auth/login"
  const AuthorizationHeader: string := "Authorization"

  /** A request body: none, caller-supplied text, or `JSON.stringify({ code })`. */
  datatype Payload = NoPayload | Text(text: string) | CodeJson(code: string)

  /** The `options` argument of `fetch` / `apiRequest`. */
  datatype Options = Options(verb: string, headers: map<string, string>, body: Payload)

  /** One `fetch` call as it leaves the browser. */
  datatype Request = Request(url: string, verb: string, headers: map<string, string>, body: Payload)

  datatype Response = Response(status: int, payload: string)
  {
    /** `response.ok`. */
    predicate Ok()
    {
      200 <= status <= 299
    }
  }

  /** What a `fetch` settles to: a response, or a rejected promise. */
  datatype Reply = Answered(response: Response) | NetworkError

  /** The JSON body of a login response, as `await response.json()` sees it. */
  datatype LoginBody = TokenBody(token: string) | NoTokenField | Unparsable

  /** What the login round trip settles to. */
  datatype LoginReply = LoginAnswered(status: int, body: LoginBody) | LoginNetworkError

  /** What `apiRequest` settles to: the response it returns, or a rejection. */
  datatype ApiResult = Returned(response: Response) | Rejected

  /** `localStorage.getItem(key)`: the stored string or null. */
  function GetItem(storage: map<string, string>, key: string): (v: Option<string>)
    ensures v.Some? <==> key in storage
    ensures v.Some? ==> v.value == storage[key]
  {
    if key in storage then Some(storage[key]) else None
  }

  /** JavaScript truthiness of a stored string: present and not empty. */
  predicate Truthy(v: Option<string>)
  {
    v.Some? && v.value != ""
  }

  /** The credentials of section 2.1 of RFC 6750: the scheme, one space, the token. */
  function Bearer(token: string): string
  {
    "Bearer " + token
  }

  /** `{ ...headers, ...(token && { Authorization: `Bearer ${token}` }) }`:
      the header is set to the stored token exactly when a truthy token is
      stored; every other header is passed through untouched. */
  function WithBearer(headers: map<string, string>, token: Option<string>): (h: map<string, string>)
    ensures Truthy(token) ==> AuthorizationHeader in h && h[AuthorizationHeader] == Bearer(token.value)
    ensures !Truthy(token) ==> h == headers
    ensures forall k :: k != AuthorizationHeader ==> (k in h <==> k in headers)
    ensures forall k :: k != AuthorizationHeader && k in h ==> h[k] == headers[k]
  {
    if Truthy(token) then headers[AuthorizationHeader := Bearer(token.value)] else headers
  }

  /** The login call both the wrapper and the login form make. */
  function LoginRequest(code: string): Request
  {
    Request(LoginUrl, "POST", map["Content-Type" := "application/json"], CodeJson(code))
  }

  /** The login succeeded far enough to store a token: an ok status and a
      body that parsed. */
  predicate LoginGranted(reply: LoginReply)
  {
    reply.LoginAnswered? && 200 <= reply.status <= 299 && !reply.body.Unparsable?
  }

  /** `data.token`; a body without the field yields `undefined`, which
      `setItem` stores as the text "undefined". */
  function GrantedToken(reply: LoginReply): (t: string)
    requires LoginGranted(reply)
    ensures reply.body.TokenBody? ==> t == reply.body.token
  {
    if reply.body.TokenBody? then reply.body.token else "undefined"
  }

  function Is401(r: Reply): bool
  {
    r.Answered? && r.response.status == 401
  }

  /** The outcome of the login form. */
  datatype LoginOutcome = BlankCode | WrongCode | LoginFailed | LoggedIn

  const BlankCodeMessage: string := "请输入授权码"
  const WrongCodeMessage: string := "授权码错误，请重试"
  const LoginFailedMessage: string := "登录失败，请检查网络连接"

  function Message(o: LoginOutcome): string
  {
    match o
    case BlankCode => BlankCodeMessage
    case WrongCode => WrongCodeMessage
    case LoginFailed => LoginFailedMessage
    case LoggedIn => ""
  }

  /** The browser side of a session: its `localStorage`, the requests it has
      sent, and how many times a page reload was forced. */
  class Browser {
    var storage: map<string, string>
    var sent: seq<Request>
    var reloads: nat

    constructor (storage: map<string, string>)
      ensures this.storage == storage && sent == [] && reloads == 0
    {
      this.storage := storage;
      sent := [];
      reloads := 0;
    }

    /** A `fetch` leaves the browser; what it settles to is an input. */
    method Send(r: Request)
      modifies this`sent
      ensures sent == old(sent) + [r]
    {
      sent := sent + [r];
    }

    /** `apiRequest(url, options)`.  `first` is what the original request
        settles to, `login` what the re-login settles to, `retry` what the
        repeated request settles to; each is used only if that call is
        made. */
    method ApiRequest(url: string, options: Options, first: Reply, login: LoginReply, retry: Reply)
      returns (result: ApiResult)
      modifies this
      // the original request carries the stored token, if any
      ensures var token := GetItem(old(storage), TokenKey);
        |sent| > |old(sent)|
        && sent[..|old(sent)| + 1] == old(sent) + [Request(url, options.verb, WithBearer(options.headers, token), options.body)]
      // a rejected fetch propagates; nothing else happens
      ensures first.NetworkError? ==>
        result == Rejected && |sent| == |old(sent)| + 1 && storage == old(storage) && reloads == old(reloads)
      // any status but 401 is returned unchanged
      ensures first.Answered? && !Is401(first) ==>
        result == Returned(first.response) && |sent| == |old(sent)| + 1
        && storage == old(storage) && reloads == old(reloads)
      // 401 without a stored code: drop the token only, force a reload
      ensures Is401(first) && !Truthy(GetItem(old(storage), CodeKey)) ==>
        result == Returned(first.response) && |sent| == |old(sent)| + 1
        && storage == old(storage) - {TokenKey} && reloads == old(reloads) + 1
      // 401 with a stored code: exactly one login call with that code
      ensures Is401(first) && Truthy(GetItem(old(storage), CodeKey)) ==>
        |sent| >= |old(sent)| + 2 && sent[|old(sent)| + 1] == LoginRequest(old(storage)[CodeKey])
      // the login fails or throws: drop token and code, force a reload
      ensures Is401(first) && Truthy(GetItem(old(storage), CodeKey)) && !LoginGranted(login) ==>
        result == Returned(first.response) && |sent| == |old(sent)| + 2
        && storage == old(storage) - {TokenKey, CodeKey} && reloads == old(reloads) + 1
      // the login succeeds: store the new token and re-send once with it
      ensures Is401(first) && Truthy(GetItem(old(storage), CodeKey)) && LoginGranted(login) ==>
        |sent| == |old(sent)| + 3
        && sent[|old(sent)| + 2]
           == Request(url, options.verb,
                      WithBearer(options.headers, GetItem(old(storage), TokenKey))[AuthorizationHeader := Bearer(GrantedToken(login))],
                      options.body)
      // ... whose response is returned, even another 401
      ensures Is401(first) && Truthy(GetItem(old(storage), CodeKey)) && LoginGranted(login) && retry.Answered? ==>
        result == Returned(retry.response)
        && storage == old(storage)[TokenKey := GrantedToken(login)] && reloads == old(reloads)
      // ... unless the retry throws, which the refresh's catch handles
      ensures Is401(first) && Truthy(GetItem(old(storage), CodeKey)) && LoginGranted(login) && retry.NetworkError? ==>
        result == Returned(first.response)
        && storage == old(storage) - {TokenKey, CodeKey} && reloads == old(reloads) + 1
    {
      var token := GetItem(storage, TokenKey);
      var headers := WithBearer(options.headers, token);
      Send(Request(url, options.verb, headers, options.body));
      if first.NetworkError? {
        return Rejected;
      }
      var response := first.response;
      if response.status == 401 {
        var savedCode := GetItem(storage, CodeKey);
        if Truthy(savedCode) {
          Send(LoginRequest(savedCode.value));
          if LoginGranted(login) {
            var newToken := GrantedToken(login);
            storage := storage[TokenKey := newToken];
            headers := headers[AuthorizationHeader := Bearer(newToken)];
            Send(Request(url, options.verb, headers, options.body));
            if retry.Answered? {
              response := retry.response;
            } else {
              storage := storage - {TokenKey, CodeKey};
              reloads := reloads + 1;
            }
          } else {
            storage := storage - {TokenKey, CodeKey};
            reloads := reloads + 1;
          }
        } else {
          storage := storage - {TokenKey};
          reloads := reloads + 1;
        }
      }
      result := Returned(response);
    }

    /** The login form's submit handler. */
    method HandleLogin(code: string, reply: LoginReply) returns (outcome: LoginOutcome)
      modifies this
      ensures reloads == old(reloads)
      ensures Trim(code) == "" ==> outcome == BlankCode && sent == old(sent) && storage == old(storage)
      ensures Trim(code) != "" ==> sent == old(sent) + [LoginRequest(Trim(code))]
      ensures outcome == LoggedIn <==> Trim(code) != "" && LoginGranted(reply)
      ensures outcome == LoggedIn ==>
        storage == old(storage)[TokenKey := GrantedToken(reply)][CodeKey := Trim(code)]
      ensures outcome != LoggedIn ==> storage == old(storage)
      ensures outcome == WrongCode <==> Trim(code) != "" && reply.LoginAnswered? && !(200 <= reply.status <= 299)
      ensures outcome == LoginFailed <==>
        Trim(code) != "" && !LoginGranted(reply) && !(reply.LoginAnswered? && !(200 <= reply.status <= 299))
      ensures outcome == BlankCode <==> Trim(code) == ""
    {
      var trimmed := Trim(code);
      if trimmed == "" {
        return BlankCode;
      }
      Send(LoginRequest(trimmed));
      if reply.LoginNetworkError? {
        outcome := LoginFailed;
      } else if 200 <= reply.status <= 299 {
        if reply.body.Unparsable? {
          outcome := LoginFailed;
        } else {
          storage := storage[TokenKey := GrantedToken(reply)];
          storage := storage[CodeKey := trimmed];
          outcome := LoggedIn;
        }
      } else {
        outcome := WrongCode;
      }
    }
  }
}
