/**
 * The authenticated request engine of the operations-log client, as pure
 * functions over a snapshot of the client's mutable state: the bearer token it
 * holds, the contents of its token file, and the log of requests it has sent.
 *
 * The remote service is an oracle: the reply to the k-th request the client
 * ever sends is `server(k, request)`, so a reply may depend on the token the
 * request carries as well as on its position.
 */
module Protocol {
  import opened Wrappers
  import opened JsonValue

  /** The credentials fixed at construction (`url`, `username`, `password`). */
  datatype Config = Config(url: string, username: string, password: string)

  /** The HTTP verbs the client uses, in place of building `requests.<verb>` by name. */
  datatype Verb = Get | Post | Put | Delete

  datatype Request =
    | Login(url: string, username: string, password: string)
    | Api(verb: Verb, url: string, token: string, data: Option<Json>)

  /** An HTTP response; `body` is `None` when it does not decode as JSON. */
  datatype Response = Response(status: int, body: Option<Json>)

  /** What a `requests` call yields: a response, or a raised transport exception. */
  datatype Reply = TransportFailure | Http(response: Response)

  type Server = (nat, Request) -> Reply

  /** The client's mutable state: `self.token`, the token file (`None`: absent), the requests sent. */
  datatype State = State(token: string, tokenFile: Option<string>, sent: seq<Request>)

  /** The outcome of `update_token`: a token, `None`, or an exception it lets escape. */
  datatype Renewal = Renewed(token: string) | NoToken | RenewalRaised

  /** The outcome of `api_call`: a response, `None`, or an exception it lets escape. */
  datatype CallResult = Got(response: Response) | NoResponse | CallRaised

  const Unauthorized := 401
  /** `api_call` loops over `range(2)`. */
  const MaxAttempts := 2

  function LoginRequest(cfg: Config): Request
  {
    Login(cfg.url + "/loginapi", cfg.username, cfg.password)
  }

  function ApiRequest(cfg: Config, token: string, endpoint: string, verb: Verb, data: Option<Json>): Request
  {
    Api(verb, cfg.url + endpoint, token, data)
  }

  /** Sending one request: it is logged and the oracle answers it. */
  function Send(server: Server, st: State, req: Request): (State, Reply)
  {
    (st.(sent := st.sent + [req]), server(|st.sent|, req))
  }

  /** `r.json()['access_token']`, or `None` when that lookup raises. */
  function AccessToken(body: Option<Json>): (r: Option<Json>)
    ensures r.Some? <==> body.Some? && body.value.Obj? && "access_token" in body.value.fields
    ensures r.Some? ==> r.value == body.value.fields["access_token"]
  {
    match body
    case Some(Obj(f)) => if "access_token" in f then Some(f["access_token"]) else None
    case _ => None
  }

  /**
   * `update_token`: post the credentials to the login endpoint; a body without
   * a usable `access_token` gives `NoToken` and leaves the token file alone; a
   * string token is written to the file and returned. The post itself is not
   * guarded, so a transport failure escapes; a non-string token makes the write
   * fail after `open(..., 'w')` has already emptied the file.
   */
  function UpdateToken(cfg: Config, server: Server, st: State): (r: (State, Renewal))
    ensures r.0.sent == st.sent + [LoginRequest(cfg)] && r.0.token == st.token
  {
    var (s1, reply) := Send(server, st, LoginRequest(cfg));
    match reply
    case TransportFailure => (s1, RenewalRaised)
    case Http(resp) =>
      match AccessToken(resp.body)
      case None => (s1, NoToken)
      case Some(Str(t)) => (s1.(tokenFile := Some(t)), Renewed(t))
      case Some(_) => (s1.(tokenFile := Some("")), RenewalRaised)
  }

  /**
   * `update_token` gives a token exactly when the login reply carries a string
   * `access_token`, and then the file holds exactly that token; when the field
   * is missing or the body is malformed it gives `None` and the file is
   * untouched; any other change to the file is the emptying that precedes a
   * failed write, with the exception escaping.
   */
  lemma UpdateTokenOutcome(cfg: Config, server: Server, st: State)
    ensures var (s, renewal) := UpdateToken(cfg, server, st);
      var reply := server(|st.sent|, LoginRequest(cfg));
      && (renewal.Renewed? <==>
            reply.Http? && AccessToken(reply.response.body).Some?
            && AccessToken(reply.response.body).value.Str?)
      && (renewal.Renewed? ==>
            AccessToken(reply.response.body) == Some(Str(renewal.token))
            && s.tokenFile == Some(renewal.token))
      && (renewal.NoToken? <==> reply.Http? && AccessToken(reply.response.body).None?)
      && (renewal.NoToken? ==> s.tokenFile == st.tokenFile)
      && (reply.TransportFailure? ==> renewal.RenewalRaised? && s.tokenFile == st.tokenFile)
      && (!renewal.Renewed? && s.tokenFile != st.tokenFile ==>
            renewal.RenewalRaised? && s.tokenFile == Some(""))
  {
  }

  /**
   * What `f.read()` gives back for a file holding `written`: the file is opened
   * in text mode, so universal newlines turn `\r\n` and a lone `\r` into `\n`.
   */
  function ReadBack(written: string): string
    decreases |written|
  {
    if written == [] then []
    else if written[0] == '\r' then
      "\n" + ReadBack(if |written| > 1 && written[1] == '\n' then written[2..] else written[1..])
    else [written[0]] + ReadBack(written[1..])
  }

  /** A text read never yields a carriage return. */
  lemma {:induction false} ReadBackHasNoCarriageReturn(written: string)
    ensures '\r' !in ReadBack(written)
    decreases |written|
  {
    if written != [] {
      if written[0] == '\r' {
        ReadBackHasNoCarriageReturn(if |written| > 1 && written[1] == '\n' then written[2..] else written[1..]);
      } else {
        ReadBackHasNoCarriageReturn(written[1..]);
      }
    }
  }

  /** A text without carriage returns is read back as it was written. */
  lemma {:induction false} ReadBackKeeps(written: string)
    requires '\r' !in written
    ensures ReadBack(written) == written
    decreases |written|
  {
    if written != [] {
      assert written[0] != '\r';
      assert '\r' !in written[1..] by {
        forall c | c in written[1..] ensures c != '\r' {
          assert c in written;
        }
      }
      ReadBackKeeps(written[1..]);
      assert written == [written[0]] + written[1..];
    }
  }

  /** Reading back is idempotent: what was read reads back the same. */
  lemma ReadBackIdempotent(written: string)
    ensures ReadBack(ReadBack(written)) == ReadBack(written)
  {
    ReadBackHasNoCarriageReturn(written);
    ReadBackKeeps(ReadBack(written));
  }

  /**
   * The result of constructing a client: its state, or the exception, with
   * the token file as the failed construction left it.
   */
  datatype Construction = Built(state: State) | Refused(tokenFile: Option<string>)

  /**
   * `OperlogClient.__init__` with renewal as its evident intent: the token is
   * read from the token file when there is one, and otherwise obtained by
   * `update_token`; a renewal that gives `None` or raises makes construction
   * raise, after whatever renewal did to the file.
   */
  function Init(cfg: Config, server: Server, tokenFile: Option<string>): (r: Construction)
    ensures tokenFile.Some? ==> r == Built(State(ReadBack(tokenFile.value), tokenFile, []))
    ensures tokenFile.None? ==>
      var (s, renewal) := UpdateToken(cfg, server, State("", None, []));
      && (r.Built? <==> renewal.Renewed?)
      && (r.Built? ==> r.state == State(renewal.token, Some(renewal.token), [LoginRequest(cfg)]))
      && (r.Refused? ==> r.tokenFile == s.tokenFile)
  {
    match tokenFile
    case Some(t) => Built(State(ReadBack(t), tokenFile, []))
    case None =>
      var (s, renewal) := UpdateToken(cfg, server, State("", None, []));
      if renewal.Renewed? then Built(s.(token := renewal.token)) else Refused(s.tokenFile)
  }

  /**
   * A login reply whose `access_token` is not a string makes construction
   * fail after emptying the token file; the next construction then reads the
   * empty file and holds the empty token.
   */
  lemma NonStringTokenLeavesEmptyFile(cfg: Config, server: Server, later: Server)
    requires var reply := server(0, LoginRequest(cfg));
      reply.Http? && AccessToken(reply.response.body).Some?
      && !AccessToken(reply.response.body).value.Str?
    ensures Init(cfg, server, None) == Refused(Some(""))
    ensures Init(cfg, later, Some("")) == Built(State("", Some(""), []))
  {
    UpdateTokenOutcome(cfg, server, State("", None, []));
  }

  /**
   * `__init__` as written: with no token file it calls a bare `update_token()`,
   * which is not a name in scope, so construction always raises, before
   * anything touches the file.
   */
  function InitAsWritten(cfg: Config, server: Server, tokenFile: Option<string>): (r: Construction)
    ensures r.Built? <==> tokenFile.Some?
    ensures r.Refused? ==> r.tokenFile == tokenFile
  {
    match tokenFile
    case Some(t) => Built(State(ReadBack(t), tokenFile, []))
    case None => Refused(None)
  }

  /** A login service that always grants the token "t". */
  function GrantingServer(): Server
  {
    (k: nat, req: Request) => Http(Response(200, Some(Obj(map["access_token" := Str("t")]))))
  }

  /** Without a token file, the written constructor fails where renewal would have succeeded. */
  lemma InitAsWrittenRejectsRenewableClient(cfg: Config)
    ensures InitAsWritten(cfg, GrantingServer(), None) == Refused(None)
    ensures Init(cfg, GrantingServer(), None) == Built(State("t", Some("t"), [LoginRequest(cfg)]))
  {
    var reply := GrantingServer()(0, LoginRequest(cfg));
    assert AccessToken(reply.response.body) == Some(Str("t"));
  }

  /** How the retry loop ended: transport exception, escaped exception, or last response. */
  datatype Attempts = Aborted | Raised | Last(response: Response)

  /** The state after a first attempt answered with 401 and the renewal that follows it. */
  function AfterFirstRenewal(cfg: Config, server: Server, st: State, endpoint: string,
                             verb: Verb, data: Option<Json>): (State, Renewal)
  {
    UpdateToken(cfg, server, Send(server, st, ApiRequest(cfg, st.token, endpoint, verb, data)).0)
  }

  /**
   * The state a retry starts from: after the first attempt and its renewal,
   * with the renewed token when renewal returned one and the old one otherwise.
   */
  function Retried(cfg: Config, server: Server, st: State, endpoint: string,
                   verb: Verb, data: Option<Json>): State
  {
    var (s2, renewal) := AfterFirstRenewal(cfg, server, st, endpoint, verb, data);
    if renewal.Renewed? then s2.(token := renewal.token) else s2
  }

  /**
   * How one iteration of the loop ends: with an outcome (a transport
   * exception, a response other than 401, or an exception escaping renewal),
   * or with a 401 answered by a renewal, ready for the next iteration.
   */
  datatype Iteration = Ended(state: State, outcome: Attempts) | Again(state: State, unauthorized: Response)

  /**
   * One iteration of `api_call`'s loop: send the request with the current
   * token; a transport failure ends everything; a non-401 response breaks out;
   * a 401 calls `update_token`, whose token replaces `self.token` only when it
   * is not `None`.
   */
  function Attempt(cfg: Config, server: Server, st: State, endpoint: string, verb: Verb,
                   data: Option<Json>): Iteration
  {
    var (s1, reply) := Send(server, st, ApiRequest(cfg, st.token, endpoint, verb, data));
    match reply
    case TransportFailure => Ended(s1, Aborted)
    case Http(resp) =>
      if resp.status != Unauthorized then Ended(s1, Last(resp))
      else
        var (s2, renewal) := AfterFirstRenewal(cfg, server, st, endpoint, verb, data);
        if renewal.RenewalRaised? then Ended(s2, Raised)
        else Again(Retried(cfg, server, st, endpoint, verb, data), resp)
  }

  /**
   * `api_call`'s loop run for (at most) `n` iterations: after a 401 and a
   * renewal, the next iteration (if any) runs with whatever token is then held.
   */
  function Tries(cfg: Config, server: Server, st: State, endpoint: string, verb: Verb,
                 data: Option<Json>, n: nat): (State, Attempts)
    requires n >= 1
    decreases n
  {
    match Attempt(cfg, server, st, endpoint, verb, data)
    case Ended(s, outcome) => (s, outcome)
    case Again(s3, resp) =>
      if n == 1 then (s3, Last(resp))
      else Tries(cfg, server, s3, endpoint, verb, data, n - 1)
  }

  /** `api_call`: the loop over `MaxAttempts` iterations, then a final 401 maps to `None`. */
  function ApiCall(cfg: Config, server: Server, st: State, endpoint: string, verb: Verb,
                   data: Option<Json>): (r: (State, CallResult))
    ensures r.1.Got? ==> r.1.response.status != Unauthorized
  {
    var (s, outcome) := Tries(cfg, server, st, endpoint, verb, data, MaxAttempts);
    match outcome
    case Aborted => (s, NoResponse)
    case Raised => (s, CallRaised)
    case Last(resp) => (s, if resp.status == Unauthorized then NoResponse else Got(resp))
  }

  /** The number of API (non-login) requests in a log. */
  function ApiCount(log: seq<Request>): nat
  {
    if log == [] then 0
    else ApiCount(log[..|log| - 1]) + (if log[|log| - 1].Api? then 1 else 0)
  }

  lemma {:induction false} ApiCountAppend(a: seq<Request>, b: seq<Request>)
    ensures ApiCount(a + b) == ApiCount(a) + ApiCount(b)
    decreases |b|
  {
    if b != [] {
      var b' := b[..|b| - 1];
      assert (a + b)[..|a + b| - 1] == a + b';
      ApiCountAppend(a, b');
    } else {
      assert a + b == a;
    }
  }

  /** Extending a log by a suffix adds the suffix's API requests. */
  lemma PrefixCount(a: seq<Request>, b: seq<Request>)
    requires |a| <= |b| && b[..|a|] == a
    ensures ApiCount(b) == ApiCount(a) + ApiCount(b[|a|..])
  {
    assert b == a + b[|a|..];
    ApiCountAppend(a, b[|a|..]);
  }

  /** Logging one more request adds one to the count exactly when it is an API request. */
  lemma ApiCountSnoc(log: seq<Request>, req: Request)
    ensures ApiCount(log + [req]) == ApiCount(log) + (if req.Api? then 1 else 0)
  {
    assert (log + [req])[..|log|] == log;
  }

  /** One iteration of the loop: one or two requests, then either the end or the next iteration. */
  lemma TriesUnfold(cfg: Config, server: Server, st: State, endpoint: string, verb: Verb,
                    data: Option<Json>, n: nat)
    requires n >= 1
    ensures var req := ApiRequest(cfg, st.token, endpoint, verb, data);
      var next := Attempt(cfg, server, st, endpoint, verb, data);
      var s := Tries(cfg, server, st, endpoint, verb, data, n).0;
      && (next.Again? ==> next.state.sent == st.sent + [req, LoginRequest(cfg)])
      && (next.Again? && n > 1 ==>
            Tries(cfg, server, st, endpoint, verb, data, n)
            == Tries(cfg, server, next.state, endpoint, verb, data, n - 1))
      && (!(next.Again? && n > 1) ==>
            s.sent == st.sent + [req] || s.sent == st.sent + [req, LoginRequest(cfg)])
  {
  }

  /**
   * `n` iterations of the loop extend the log, send between one and `n` API
   * requests, and start with the request carrying the current token.
   */
  lemma {:induction false} TriesBound(cfg: Config, server: Server, st: State, endpoint: string,
                                      verb: Verb, data: Option<Json>, n: nat)
    requires n >= 1
    ensures var s := Tries(cfg, server, st, endpoint, verb, data, n).0;
      && |st.sent| < |s.sent|
      && s.sent[..|st.sent|] == st.sent
      && s.sent[|st.sent|] == ApiRequest(cfg, st.token, endpoint, verb, data)
      && ApiCount(st.sent) + 1 <= ApiCount(s.sent) <= ApiCount(st.sent) + n
    decreases n
  {
    var req := ApiRequest(cfg, st.token, endpoint, verb, data);
    var next := Attempt(cfg, server, st, endpoint, verb, data);
    TriesUnfold(cfg, server, st, endpoint, verb, data, n);
    ApiCountSnoc(st.sent, req);
    ApiCountSnoc(st.sent + [req], LoginRequest(cfg));
    assert st.sent + [req] + [LoginRequest(cfg)] == st.sent + [req, LoginRequest(cfg)];
    if next.Again? && n > 1 {
      TriesBound(cfg, server, next.state, endpoint, verb, data, n - 1);
      var s := Tries(cfg, server, next.state, endpoint, verb, data, n - 1).0;
      assert s.sent[..|st.sent|] == s.sent[..|next.state.sent|][..|st.sent|];
    }
  }

  /** `api_call` issues at least one and at most two API requests, whatever the server does. */
  lemma AtMostTwoApiRequests(cfg: Config, server: Server, st: State, endpoint: string,
                             verb: Verb, data: Option<Json>)
    ensures var s := ApiCall(cfg, server, st, endpoint, verb, data).0;
      && |st.sent| < |s.sent| && s.sent[..|st.sent|] == st.sent
      && 1 <= ApiCount(s.sent[|st.sent|..]) <= MaxAttempts
  {
    TriesBound(cfg, server, st, endpoint, verb, data, MaxAttempts);
    var s := ApiCall(cfg, server, st, endpoint, verb, data).0;
    PrefixCount(st.sent, s.sent);
  }

  /** A first response other than 401 is returned as it is: one request, no renewal, no token change. */
  lemma FirstResponseReturned(cfg: Config, server: Server, st: State, endpoint: string,
                              verb: Verb, data: Option<Json>, resp: Response)
    requires server(|st.sent|, ApiRequest(cfg, st.token, endpoint, verb, data)) == Http(resp)
    requires resp.status != Unauthorized
    ensures ApiCall(cfg, server, st, endpoint, verb, data)
         == (st.(sent := st.sent + [ApiRequest(cfg, st.token, endpoint, verb, data)]), Got(resp))
  {
  }

  /** A transport failure on the first attempt returns `None` at once, with nothing else sent or changed. */
  lemma FirstTransportFailureAborts(cfg: Config, server: Server, st: State, endpoint: string,
                                    verb: Verb, data: Option<Json>)
    requires server(|st.sent|, ApiRequest(cfg, st.token, endpoint, verb, data)) == TransportFailure
    ensures ApiCall(cfg, server, st, endpoint, verb, data)
         == (st.(sent := st.sent + [ApiRequest(cfg, st.token, endpoint, verb, data)]), NoResponse)
  {
  }

  /** After a first 401, the loop either ends with the renewal's exception or goes on with the token it leaves. */
  lemma TriesAfterUnauthorized(cfg: Config, server: Server, st: State, endpoint: string,
                               verb: Verb, data: Option<Json>, resp: Response, n: nat)
    requires server(|st.sent|, ApiRequest(cfg, st.token, endpoint, verb, data)) == Http(resp)
    requires resp.status == Unauthorized && n >= 2
    ensures var (s2, renewal) := AfterFirstRenewal(cfg, server, st, endpoint, verb, data);
      Tries(cfg, server, st, endpoint, verb, data, n)
      == if renewal.RenewalRaised? then (s2, Raised)
         else Tries(cfg, server, Retried(cfg, server, st, endpoint, verb, data), endpoint, verb, data, n - 1)
  {
  }

  /** After a first 401, an exception escaping the renewal ends the call in the state the renewal left. */
  lemma RenewalExceptionEndsCall(cfg: Config, server: Server, st: State, endpoint: string,
                                 verb: Verb, data: Option<Json>, resp: Response)
    requires server(|st.sent|, ApiRequest(cfg, st.token, endpoint, verb, data)) == Http(resp)
    requires resp.status == Unauthorized
    requires AfterFirstRenewal(cfg, server, st, endpoint, verb, data).1.RenewalRaised?
    ensures ApiCall(cfg, server, st, endpoint, verb, data)
         == (AfterFirstRenewal(cfg, server, st, endpoint, verb, data).0, CallRaised)
  {
    TriesAfterUnauthorized(cfg, server, st, endpoint, verb, data, resp, MaxAttempts);
  }

  /**
   * The retry starts after the failed request and the login, holding the
   * renewed token, or the old one when renewal returned `None`, and the token
   * file as renewal left it.
   */
  lemma RetriedState(cfg: Config, server: Server, st: State, endpoint: string,
                     verb: Verb, data: Option<Json>)
    ensures var (s2, renewal) := AfterFirstRenewal(cfg, server, st, endpoint, verb, data);
      var s3 := Retried(cfg, server, st, endpoint, verb, data);
      && s3.sent == st.sent + [ApiRequest(cfg, st.token, endpoint, verb, data), LoginRequest(cfg)]
      && s3.token == (if renewal.Renewed? then renewal.token else st.token)
      && s3.tokenFile == s2.tokenFile
  {
  }

  /**
   * After a first 401 and a renewal that does not raise, the next two requests
   * are the login and a retry carrying the renewed token if there is one, and
   * the old token if renewal gave `None`.
   */
  lemma RetryAfterUnauthorized(cfg: Config, server: Server, st: State, endpoint: string,
                               verb: Verb, data: Option<Json>, resp: Response)
    requires server(|st.sent|, ApiRequest(cfg, st.token, endpoint, verb, data)) == Http(resp)
    requires resp.status == Unauthorized
    requires !AfterFirstRenewal(cfg, server, st, endpoint, verb, data).1.RenewalRaised?
    ensures var renewal := AfterFirstRenewal(cfg, server, st, endpoint, verb, data).1;
      var token := if renewal.Renewed? then renewal.token else st.token;
      var s := ApiCall(cfg, server, st, endpoint, verb, data).0;
      && |s.sent| >= |st.sent| + 3
      && s.sent[..|st.sent| + 2] == st.sent + [ApiRequest(cfg, st.token, endpoint, verb, data), LoginRequest(cfg)]
      && s.sent[|st.sent| + 2] == ApiRequest(cfg, token, endpoint, verb, data)
  {
    var s3 := Retried(cfg, server, st, endpoint, verb, data);
    RetriedState(cfg, server, st, endpoint, verb, data);
    TriesAfterUnauthorized(cfg, server, st, endpoint, verb, data, resp, MaxAttempts);
    TriesBound(cfg, server, s3, endpoint, verb, data, 1);
    var s := Tries(cfg, server, s3, endpoint, verb, data, 1).0;
    assert ApiCall(cfg, server, st, endpoint, verb, data).0 == s;
  }

  /** After a first 401 and a renewal, a retry answered with anything but 401 is returned as it is. */
  lemma RetryResponseReturned(cfg: Config, server: Server, st: State, endpoint: string,
                              verb: Verb, data: Option<Json>, resp: Response, resp2: Response)
    requires server(|st.sent|, ApiRequest(cfg, st.token, endpoint, verb, data)) == Http(resp)
    requires resp.status == Unauthorized
    requires !AfterFirstRenewal(cfg, server, st, endpoint, verb, data).1.RenewalRaised?
    requires var s3 := Retried(cfg, server, st, endpoint, verb, data);
      server(|s3.sent|, ApiRequest(cfg, s3.token, endpoint, verb, data)) == Http(resp2)
    requires resp2.status != Unauthorized
    ensures var s3 := Retried(cfg, server, st, endpoint, verb, data);
      ApiCall(cfg, server, st, endpoint, verb, data)
      == (s3.(sent := s3.sent + [ApiRequest(cfg, s3.token, endpoint, verb, data)]), Got(resp2))
  {
    TriesAfterUnauthorized(cfg, server, st, endpoint, verb, data, resp, MaxAttempts);
  }

  /** After a first 401 and a renewal, a transport failure on the retry gives `None`, with nothing more sent. */
  lemma RetryTransportFailureAborts(cfg: Config, server: Server, st: State, endpoint: string,
                                    verb: Verb, data: Option<Json>, resp: Response)
    requires server(|st.sent|, ApiRequest(cfg, st.token, endpoint, verb, data)) == Http(resp)
    requires resp.status == Unauthorized
    requires !AfterFirstRenewal(cfg, server, st, endpoint, verb, data).1.RenewalRaised?
    requires var s3 := Retried(cfg, server, st, endpoint, verb, data);
      server(|s3.sent|, ApiRequest(cfg, s3.token, endpoint, verb, data)) == TransportFailure
    ensures var s3 := Retried(cfg, server, st, endpoint, verb, data);
      ApiCall(cfg, server, st, endpoint, verb, data)
      == (s3.(sent := s3.sent + [ApiRequest(cfg, s3.token, endpoint, verb, data)]), NoResponse)
  {
    TriesAfterUnauthorized(cfg, server, st, endpoint, verb, data, resp, MaxAttempts);
  }

  /**
   * When both attempts are answered with 401, `update_token` still runs a
   * second time, though no request follows it; the call then raises if that
   * renewal raises and gives `None` otherwise, and keeps any token it returned.
   */
  lemma SecondUnauthorizedStillRenews(cfg: Config, server: Server, st: State, endpoint: string,
                                      verb: Verb, data: Option<Json>, resp: Response, resp2: Response)
    requires server(|st.sent|, ApiRequest(cfg, st.token, endpoint, verb, data)) == Http(resp)
    requires resp.status == Unauthorized
    requires !AfterFirstRenewal(cfg, server, st, endpoint, verb, data).1.RenewalRaised?
    requires var s3 := Retried(cfg, server, st, endpoint, verb, data);
      server(|s3.sent|, ApiRequest(cfg, s3.token, endpoint, verb, data)) == Http(resp2)
    requires resp2.status == Unauthorized
    ensures var s3 := Retried(cfg, server, st, endpoint, verb, data);
      var s4 := s3.(sent := s3.sent + [ApiRequest(cfg, s3.token, endpoint, verb, data)]);
      var (s5, renewal2) := UpdateToken(cfg, server, s4);
      var r := ApiCall(cfg, server, st, endpoint, verb, data);
      && r.0 == (if renewal2.Renewed? then s5.(token := renewal2.token) else s5)
      && r.1 == (if renewal2.RenewalRaised? then CallRaised else NoResponse)
      && |r.0.sent| == |st.sent| + 4
      && r.0.sent[|st.sent| + 3] == LoginRequest(cfg)
  {
    TriesAfterUnauthorized(cfg, server, st, endpoint, verb, data, resp, MaxAttempts);
    RetriedState(cfg, server, st, endpoint, verb, data);
  }

  /**
   * A token that `update_token` wrote is what a later construction reads
   * back, with no request: unchanged when it holds no carriage return.
   */
  lemma TokenFileRoundTrip(cfg: Config, server: Server, st: State, later: Server)
    requires UpdateToken(cfg, server, st).1.Renewed?
    ensures var (s, renewal) := UpdateToken(cfg, server, st);
      && Init(cfg, later, s.tokenFile) == Built(State(ReadBack(renewal.token), Some(renewal.token), []))
      && ('\r' !in renewal.token ==> ReadBack(renewal.token) == renewal.token)
  {
    var (s, renewal) := UpdateToken(cfg, server, st);
    if '\r' !in renewal.token {
      ReadBackKeeps(renewal.token);
    }
  }
}
