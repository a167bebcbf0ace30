/**
 * `OperlogClient`: the token-holding client object, its retry loop written
 * as a loop over the object's fields, the five domain operations that map a
 * response to a payload or a bare status code, and `search`.
 */
module Client {
  import opened Wrappers
  import opened JsonValue
  import opened Protocol

  /**
   * What a domain operation gives back: the decoded JSON, the bare status code,
   * or `Failed` where the operation raises (`api_call` gave `None` and
   * `.status_code` is read off it, an exception escaped `api_call`, or the
   * body did not decode).
   */
  datatype Outcome = Payload(p: Json) | Status(code: int) | Failed

  const Ok := 200
  const Created := 201

  /** The tail shared by `get_all_items`, `add_item`, `get_item` and `edit_item`. */
  function ExpectStatus(c: CallResult, expected: int): (r: Outcome)
    ensures r.Payload? <==> c.Got? && c.response.status == expected && c.response.body.Some?
    ensures r.Payload? ==> r.p == c.response.body.value
    ensures r.Status? <==> c.Got? && c.response.status != expected
    ensures r.Status? ==> r.code == c.response.status
  {
    match c
    case Got(resp) =>
      if resp.status != expected then Status(resp.status)
      else if resp.body.Some? then Payload(resp.body.value)
      else Failed
    case _ => Failed
  }

  /** The tail of `delete_item`: always the status code, whatever it is. */
  function StatusOf(c: CallResult): (r: Outcome)
    ensures !r.Payload?
    ensures r.Status? <==> c.Got?
    ensures r.Status? ==> r.code == c.response.status
  {
    if c.Got? then Status(c.response.status) else Failed
  }

  /** The body `add_item` posts: `event`, and `after_event` only when `msg2` is given. */
  function NewItemBody(msg: string, msg2: Option<string>): (d: Json)
    ensures d.Obj? && "event" in d.fields && d.fields["event"] == Str(msg)
    ensures "after_event" in d.fields <==> msg2.Some?
    ensures msg2.Some? ==> d.fields["after_event"] == Str(msg2.value)
    ensures forall k :: k in d.fields ==> k == "event" || k == "after_event"
  {
    var data := map["event" := Str(msg)];
    Obj(if msg2.Some? then data["after_event" := Str(msg2.value)] else data)
  }

  function ItemEndpoint(id: string): string
  {
    "/api/" + id
  }

  /** The outcome of `search`: the matching items by id, or an exception. */
  datatype Selection = Found(items: map<string, Json>) | SearchRaised

  /** An item `search` can read: a dict whose `event` and `after_event` are strings. */
  predicate Searchable(item: Json)
  {
    && item.Obj?
    && "event" in item.fields && item.fields["event"].Str?
    && "after_event" in item.fields && item.fields["after_event"].Str?
  }

  /** `item['event'] + item['after_event']`, the text the pattern is searched in. */
  function SearchText(item: Json): string
    requires Searchable(item)
  {
    item.fields["event"].s + item.fields["after_event"].s
  }

  /**
   * The item with `event` and `after_event` each passed through the
   * highlighting substitution, and every other field as it was.
   */
  function Highlighted(item: Json, pattern: string, highlight: (string, string) -> string): (r: Json)
    requires Searchable(item)
    ensures Searchable(r) && r.fields.Keys == item.fields.Keys
    ensures r.fields["event"] == Str(highlight(pattern, item.fields["event"].s))
    ensures r.fields["after_event"] == Str(highlight(pattern, item.fields["after_event"].s))
    ensures forall k :: k in item.fields && k != "event" && k != "after_event" ==>
      r.fields[k] == item.fields[k]
  {
    var f := item.fields;
    var f' := f["event" := Str(highlight(pattern, f["event"].s))];
    Obj(f'["after_event" := Str(highlight(pattern, f["after_event"].s))])
  }

  /** Every item of the collection can be read by `search`. */
  predicate AllSearchable(items: map<string, Json>)
  {
    forall id :: id in items ==> Searchable(items[id])
  }

  /** The highlighted items among those with ids in `ids` whose combined text matches. */
  function MatchesAmong(items: map<string, Json>, ids: set<string>, pattern: string,
                        matches: (string, string) -> bool, highlight: (string, string) -> string)
    : (m: map<string, Json>)
    requires ids <= items.Keys && forall id :: id in ids ==> Searchable(items[id])
    ensures forall id :: id in m <==> id in ids && matches(pattern, SearchText(items[id]))
    ensures forall id :: id in m ==> m[id] == Highlighted(items[id], pattern, highlight)
  {
    map id | id in ids && matches(pattern, SearchText(items[id])) :: Highlighted(items[id], pattern, highlight)
  }

  /** `MatchesAmong` is the only map holding exactly the matching ids, each highlighted. */
  lemma MatchesAmongUnique(items: map<string, Json>, ids: set<string>, m: map<string, Json>,
                           pattern: string, matches: (string, string) -> bool,
                           highlight: (string, string) -> string)
    requires ids <= items.Keys && forall i :: i in ids ==> Searchable(items[i])
    requires forall i :: i in m <==> i in ids && matches(pattern, SearchText(items[i]))
    requires forall i :: i in m ==> m[i] == Highlighted(items[i], pattern, highlight)
    ensures m == MatchesAmong(items, ids, pattern, matches, highlight)
  {
    var spec := MatchesAmong(items, ids, pattern, matches, highlight);
    assert m.Keys == spec.Keys;
  }

  /**
   * What `search` selects from a collection: an exception when some item
   * lacks a string `event` or `after_event`, and otherwise the highlighted
   * items whose combined text matches.
   */
  function Select(items: map<string, Json>, pattern: string,
                  matches: (string, string) -> bool, highlight: (string, string) -> string): (r: Selection)
    ensures r.SearchRaised? <==> exists id :: id in items && !Searchable(items[id])
    ensures r.Found? ==> forall id :: id in r.items <==>
      id in items && matches(pattern, SearchText(items[id]))
    ensures r.Found? ==> forall id :: id in r.items ==>
      r.items[id] == Highlighted(items[id], pattern, highlight)
  {
    if AllSearchable(items) then Found(MatchesAmong(items, items.Keys, pattern, matches, highlight))
    else SearchRaised
  }

  /**
   * An item whose match spans the two fields is kept, even though neither
   * field matches alone; with a substitution that leaves text without a match
   * as it is, such an item comes back unchanged.
   */
  lemma MatchAcrossFieldsKept(items: map<string, Json>, pattern: string,
                              matches: (string, string) -> bool, highlight: (string, string) -> string,
                              id: string)
    requires Select(items, pattern, matches, highlight).Found?
    requires id in items
    requires matches(pattern, SearchText(items[id]))
    requires !matches(pattern, items[id].fields["event"].s)
    requires !matches(pattern, items[id].fields["after_event"].s)
    requires forall s :: !matches(pattern, s) ==> highlight(pattern, s) == s
    ensures var r := Select(items, pattern, matches, highlight);
      id in r.items && r.items[id] == items[id]
  {
    var r := Select(items, pattern, matches, highlight);
    var h := r.items[id];
    assert h.fields == items[id].fields by {
      forall k | k in h.fields ensures h.fields[k] == items[id].fields[k] {
      }
    }
  }

  /**
   * The inner loop of `search`: `colored[i] = re.sub(..., item[i])` for `i` in
   * `event`, `after_event`, on what is then still the item's own dict.
   */
  method Colorize(item: Json, pattern: string, highlight: (string, string) -> string)
    returns (colored: map<string, Json>)
    requires Searchable(item)
    ensures Obj(colored) == Highlighted(item, pattern, highlight)
  {
    var keys := ["event", "after_event"];
    colored := item.fields;
    for i := 0 to |keys|
      invariant colored.Keys == item.fields.Keys
      invariant forall k :: k in colored && k !in keys[i..] ==> colored[k] == Highlighted(item, pattern, highlight).fields[k]
      invariant forall k :: k in keys[i..] ==> colored[k] == item.fields[k]
    {
      colored := colored[keys[i] := Str(highlight(pattern, item.fields[keys[i]].s))];
    }
    assert colored == Highlighted(item, pattern, highlight).fields;
  }

  /**
   * The outer loop of `search` over a fetched collection. Because `colored =
   * item` aliases the collection's own dict, every kept item is rewritten in
   * the collection as well; `mutated` is the collection after the loop.
   */
  method SelectMatches(items: map<string, Json>, pattern: string,
                       matches: (string, string) -> bool, highlight: (string, string) -> string)
    returns (r: Selection, mutated: map<string, Json>)
    ensures r == Select(items, pattern, matches, highlight)
    ensures r.Found? ==> mutated == items + r.items
  {
    var res: map<string, Json> := map[];
    mutated := items;
    var todo := items.Keys;
    while todo != {}
      invariant todo <= items.Keys
      invariant forall id :: id in items.Keys - todo ==> Searchable(items[id])
      invariant forall id :: id in res <==>
        id in items && id !in todo && matches(pattern, SearchText(items[id]))
      invariant forall id :: id in res ==> res[id] == Highlighted(items[id], pattern, highlight)
      invariant mutated.Keys == items.Keys
      invariant forall id :: id in items ==> mutated[id] == if id in res then res[id] else items[id]
      decreases todo
    {
      var id :| id in todo;
      var item := items[id];
      if !Searchable(item) {
        return SearchRaised, mutated;
      }
      if matches(pattern, SearchText(item)) {
        var colored := Colorize(item, pattern, highlight);
        res := res[id := Obj(colored)];
        mutated := mutated[id := Obj(colored)];
      }
      todo := todo - {id};
    }
    MatchesAmongUnique(items, items.Keys, res, pattern, matches, highlight);
    r := Found(res);
    Overlaid(items, res, mutated);
  }

  /** A map that agrees with `over` on its keys and with `base` elsewhere is `base + over`. */
  lemma Overlaid(base: map<string, Json>, over: map<string, Json>, m: map<string, Json>)
    requires over.Keys <= base.Keys && m.Keys == base.Keys
    requires forall id :: id in base ==> m[id] == if id in over then over[id] else base[id]
    ensures m == base + over
  {
    assert m.Keys == (base + over).Keys;
  }

  /** The client object: fixed credentials and server, a token, a token file, a request log. */
  class OperlogClient {
    const url: string
    const username: string
    const password: string
    const server: Server
    var token: string
    var tokenFile: Option<string>
    var sent: seq<Request>

    function Cfg(): Config
    {
      Config(url, username, password)
    }

    function Snapshot(): Protocol.State
      reads this
    {
      Protocol.State(token, tokenFile, sent)
    }

    constructor (cfg: Config, server: Server, st: Protocol.State)
      ensures Cfg() == cfg && this.server == server && Snapshot() == st
    {
      url, username, password := cfg.url, cfg.username, cfg.password;
      this.server := server;
      token, tokenFile, sent := st.token, st.tokenFile, st.sent;
    }

    /**
     * `__init__`: take the token from the token file, or renew when there is
     * none; `null` stands for the construction raising, and `leftFile` is the
     * token file afterwards, also when it raised.
     */
    static method Open(cfg: Config, server: Server, tokenFile: Option<string>)
      returns (c: OperlogClient?, leftFile: Option<string>)
      ensures c == null <==> Init(cfg, server, tokenFile).Refused?
      ensures c == null ==> leftFile == Init(cfg, server, tokenFile).tokenFile
      ensures c != null ==>
        && fresh(c) && c.Cfg() == cfg && c.server == server
        && c.Snapshot() == Init(cfg, server, tokenFile).state
        && leftFile == c.tokenFile
    {
      c := new OperlogClient(cfg, server, Protocol.State("", tokenFile, []));
      match tokenFile {
        case Some(t) =>
          c.token := ReadBack(t);
        case None =>
          var renewal := c.UpdateToken();
          if renewal.Renewed? {
            c.token := renewal.token;
          } else {
            leftFile := c.tokenFile;
            c := null;
            return;
          }
      }
      leftFile := c.tokenFile;
    }

    /** One `requests` call: logged, and answered by the server. */
    method Send(req: Request) returns (reply: Reply)
      modifies this`sent
      ensures (Snapshot(), reply) == Protocol.Send(server, old(Snapshot()), req)
    {
      reply := server(|sent|, req);
      sent := sent + [req];
    }

    /** `update_token`. */
    method UpdateToken() returns (r: Renewal)
      modifies this`sent, this`tokenFile
      ensures (Snapshot(), r) == Protocol.UpdateToken(Cfg(), server, old(Snapshot()))
    {
      var reply := Send(LoginRequest(Cfg()));
      if reply.TransportFailure? {
        return RenewalRaised;
      }
      var field := AccessToken(reply.response.body);
      if field.None? {
        return NoToken;
      }
      match field.value {
        case Str(t) =>
          tokenFile := Some(t);
          r := Renewed(t);
        case _ =>
          tokenFile := Some("");
          r := RenewalRaised;
      }
    }

    /** `api_call`: at most two attempts, renewing the token after a 401. */
    method ApiCall(endpoint: string, verb: Verb, data: Option<Json>) returns (res: CallResult)
      modifies this
      ensures (Snapshot(), res) == Protocol.ApiCall(Cfg(), server, old(Snapshot()), endpoint, verb, data)
    {
      ghost var spec := Tries(Cfg(), server, Snapshot(), endpoint, verb, data, MaxAttempts);
      var r := Response(0, None);
      var i := 0;
      while i < MaxAttempts
        invariant 0 <= i <= MaxAttempts
        invariant i < MaxAttempts ==>
          spec == Tries(Cfg(), server, Snapshot(), endpoint, verb, data, MaxAttempts - i)
        invariant i == MaxAttempts ==> spec == (Snapshot(), Last(r)) && r.status == Unauthorized
      {
        var reply := Send(ApiRequest(Cfg(), token, endpoint, verb, data));
        if reply.TransportFailure? {
          return NoResponse;
        }
        r := reply.response;
        if r.status == Unauthorized {
          var renewal := UpdateToken();
          if renewal.RenewalRaised? {
            return CallRaised;
          }
          if renewal.Renewed? {
            token := renewal.token;
          }
        } else {
          break;
        }
        i := i + 1;
      }
      if r.status == Unauthorized {
        return NoResponse;
      }
      return Got(r);
    }

    /** `get_all_items`: GET /api, the payload on 200. */
    method GetAllItems() returns (r: Outcome)
      modifies this
      ensures var (s, c) := Protocol.ApiCall(Cfg(), server, old(Snapshot()), "/api", Get, None);
        Snapshot() == s && r == ExpectStatus(c, Ok)
    {
      var c := ApiCall("/api", Get, None);
      r := ExpectStatus(c, Ok);
    }

    /** `add_item`: POST /api with the new item, the payload on 201. */
    method AddItem(msg: string, msg2: Option<string>) returns (r: Outcome)
      modifies this
      ensures var (s, c) := Protocol.ApiCall(Cfg(), server, old(Snapshot()), "/api", Post,
                                             Some(NewItemBody(msg, msg2)));
        Snapshot() == s && r == ExpectStatus(c, Created)
    {
      var c := ApiCall("/api", Post, Some(NewItemBody(msg, msg2)));
      r := ExpectStatus(c, Created);
    }

    /** `get_item`: GET /api/{id}, the payload on 200. */
    method GetItem(id: string) returns (r: Outcome)
      modifies this
      ensures var (s, c) := Protocol.ApiCall(Cfg(), server, old(Snapshot()), ItemEndpoint(id), Get, None);
        Snapshot() == s && r == ExpectStatus(c, Ok)
    {
      var c := ApiCall(ItemEndpoint(id), Get, None);
      r := ExpectStatus(c, Ok);
    }

    /** `edit_item`: PUT /api/{id} with the given fields, the payload on 201. */
    method EditItem(id: string, data: Json) returns (r: Outcome)
      modifies this
      ensures var (s, c) := Protocol.ApiCall(Cfg(), server, old(Snapshot()), ItemEndpoint(id), Put, Some(data));
        Snapshot() == s && r == ExpectStatus(c, Created)
    {
      var c := ApiCall(ItemEndpoint(id), Put, Some(data));
      r := ExpectStatus(c, Created);
    }

    /** `delete_item`: DELETE /api/{id}, the status code whatever it is. */
    method DeleteItem(id: string) returns (r: Outcome)
      modifies this
      ensures var (s, c) := Protocol.ApiCall(Cfg(), server, old(Snapshot()), ItemEndpoint(id), Delete, None);
        Snapshot() == s && r == StatusOf(c)
    {
      var c := ApiCall(ItemEndpoint(id), Delete, None);
      r := StatusOf(c);
    }

    /**
     * `search`: fetch every item and keep the highlighted matches. Anything but
     * a dict from `get_all_items` (a status code, a failure) makes `.items()`
     * raise. `matches` and `highlight` stand for `re.search` and `re.sub` with
     * the case-insensitive pattern and the colouring replacement.
     */
    method Search(pattern: string, matches: (string, string) -> bool,
                  highlight: (string, string) -> string) returns (r: Selection)
      modifies this
      ensures var (s, c) := Protocol.ApiCall(Cfg(), server, old(Snapshot()), "/api", Get, None);
        var fetched := ExpectStatus(c, Ok);
        && Snapshot() == s
        && r == if fetched.Payload? && fetched.p.Obj?
                then Select(fetched.p.fields, pattern, matches, highlight)
                else SearchRaised
    {
      var items := GetAllItems();
      if !(items.Payload? && items.p.Obj?) {
        return SearchRaised;
      }
      var collection;
      r, collection := SelectMatches(items.p.fields, pattern, matches, highlight);
    }
  }
}
