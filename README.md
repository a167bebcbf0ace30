# operlog client — a Dafny model

This project models the core of `operlog_client`, a small command-line client
for an operations-log web service. It covers two parts.

- **The client object** (`OperlogClient` in `client.py`). It holds a bearer
  token. The token is read from a token file when the object is built, or
  obtained from the login endpoint and then saved to that file. Every API call
  makes at most two attempts. After a 401 reply the client renews the token
  and retries. Five domain operations turn the reply into a decoded payload or
  a bare status code. `search` fetches every item and keeps, highlighted, those
  whose `event` plus `after_event` text matches a pattern.
- **Item formatting** (`fmt_item` in `cli.py`). It normalises one item dict in
  place and lays it out as text between rules of 80 characters.

Modules:

- `Wrappers`: `Option`.
- `JsonValue`: JSON values as `response.json()` gives them, and how an
  f-string placeholder shows them.
- `Protocol`: the client's behaviour as pure functions over a state, which is
  the token, the token file and the log of requests sent. `Tries` is the retry
  loop as a recursive function.
- `Client`: the `OperlogClient` class. Its fields are updated by methods whose
  contracts tie the new state to the `Protocol` functions. `ApiCall` is written
  as the source's loop. The module also holds the status mapping and `search`.
- `Cli`: `fmt_item`, together with Python's `str.strip()`.

The HTTP server is a parameter of type `Server = (nat, Request) -> Reply`. The
reply to the k-th request the client ever sends is `server(k, request)`. So a
reply may depend on how many requests came before and on the token the
request carries. Either a transport failure or an HTTP response comes back.

A Python exception that escapes to the caller is a result value of its own:
`RenewalRaised`, `CallRaised`, `Failed`, `SearchRaised`, `FormatRaised`, and
`null` from `OperlogClient.Open`.

Three behaviours of the source are modelled as the code has them:

- A transport failure on the login post is not caught by `update_token`. It
  propagates out of the API call.
- `__init__` calls `update_token()` without `self.`. This is recorded under
  "Findings".
- `search` rewrites the fetched items in place, because `colored` is the
  item itself and not a copy.

## Model

| member | source | states |
|---|---|---|
| Protocol.AccessToken | client.py:36-40 | A token field is found exactly when the body decoded to a dict holding `access_token`; it is that field's value |
| Protocol.UpdateToken | client.py:32-43 | Renewal sends exactly one request, the credentials to `{url}/loginapi`, and leaves the held token alone |
| Protocol.UpdateTokenOutcome | client.py:32-43 | A token is returned iff the login reply carries a string `access_token`, and then the file holds exactly it; a missing or unreadable field gives `None` with the file untouched; a transport failure raises with the file untouched; the only other file change is the emptying before a failed write, which raises |
| Protocol.ReadBackKeeps | client.py:23-24 | A token file without carriage returns is read back exactly as written |
| Protocol.ReadBackHasNoCarriageReturn | client.py:23-24 | A text-mode read never yields a carriage return, since universal newlines turn `\r\n` and `\r` into `\n` |
| Protocol.ReadBackIdempotent | client.py:23-24 | Reading back what was read back changes nothing |
| Protocol.Init | client.py:15-30 | With a token file, the token is the file's content as a text-mode read gives it, and nothing is sent; without one, construction succeeds iff renewal returns a token, which is then held and saved after a single login request; a failed construction reports the token file as renewal left it |
| Protocol.NonStringTokenLeavesEmptyFile | client.py:26-43 | A login reply whose `access_token` is not a string makes construction fail with the token file emptied, and the next construction from that file holds the empty token |
| Protocol.InitAsWritten | client.py:22-30 | As written, construction succeeds exactly when a token file exists, and a failed construction leaves the file as it was |
| Protocol.InitAsWrittenRejectsRenewableClient | client.py:25-26 | With no token file and a login service that grants a token, the written constructor fails while the intended one succeeds |
| Protocol.TokenFileRoundTrip | client.py:22-43 | A token that renewal saved is what a later construction holds as a text-mode read gives it, with no request, and exactly that token when it has no carriage return |
| Protocol.ApiCall | client.py:45-67 | A response is returned only when it is not a 401 |
| Protocol.TriesBound | client.py:49-63 | `n` loop iterations keep the earlier log as a prefix, send first the request with the current token, and send between 1 and `n` API requests |
| Protocol.AtMostTwoApiRequests | client.py:48-63 | Whatever the server does, one API call sends at least one and at most two API requests and only appends to the log |
| Protocol.FirstResponseReturned | client.py:57-67 | A first reply other than 401 is returned as it is, after exactly one request and with the state otherwise unchanged |
| Protocol.FirstTransportFailureAborts | client.py:52-56 | A transport failure on the first attempt gives `None` at once, with no retry and no renewal |
| Protocol.RenewalExceptionEndsCall | client.py:57-59 | After a first 401, an exception escaping renewal ends the call in the state the renewal left |
| Protocol.RetriedState | client.py:57-61 | The retry starts after the failed request and the login, holding the renewed token, or the old one when renewal returned `None`, with the token file as renewal left it |
| Protocol.RetryAfterUnauthorized | client.py:57-61 | After a first 401 and a renewal that does not raise, the log continues with the failed request and the login, and the third request is the retry carrying the renewed token, or the old one when renewal returned `None` |
| Protocol.RetryResponseReturned | client.py:49-67 | After a first 401 and a renewal that does not raise, a retry reply other than 401 is returned as it is, after exactly one more request |
| Protocol.RetryTransportFailureAborts | client.py:52-56 | After a first 401 and a renewal that does not raise, a transport failure on the retry gives `None`, after exactly one more request |
| Protocol.SecondUnauthorizedStillRenews | client.py:57-66 | When both attempts get 401, renewal still runs a second time, four requests are sent in all, any token it returns is kept, and the call raises iff that renewal raises and gives `None` otherwise |
| Client.ExpectStatus | client.py:72-75 | The payload comes back iff a response came with the expected status and a decoded body; the status code comes back iff a response came with another status; everything else raises |
| Client.StatusOf | client.py:106-107 | The status code comes back iff a response came; a missing response raises |
| Client.NewItemBody | client.py:79-81 | The posted dict has `event`, has `after_event` exactly when a second message is given, and has no other key |
| Client.Highlighted | client.py:118-120 | Both text fields are replaced by their substitutions; every other field and the key set stay as they were |
| Client.MatchesAmong | client.py:116-121 | The kept ids among those considered are exactly the ones whose combined text matches, each mapped to its highlighted item |
| Client.MatchesAmongUnique | client.py:116-121 | Any map that holds exactly the matching items, each highlighted, is the selection computed over those ids |
| Client.Select | client.py:115-122 | `search` raises iff some item lacks a string `event` or `after_event`; otherwise it keeps exactly the matching items, highlighted |
| Client.MatchAcrossFieldsKept | client.py:117 | An item whose match spans the two fields is kept although neither field matches alone; with a substitution that leaves text without a match as it is, it comes back unchanged |
| Client.Colorize | client.py:118-120 | The inner loop over `event` and `after_event` produces the highlighted item |
| Client.SelectMatches | client.py:111-122 | The outer loop computes `Select`; when nothing raises, the fetched collection afterwards has every kept item replaced by its highlighted form, because `colored = item` aliases it |
| Client.OperlogClient.Open | client.py:15-30 | Construction gives `null` exactly when the intended `__init__` raises, and then reports the token file it left; otherwise it gives a fresh client whose state is the intended `__init__`'s |
| Client.OperlogClient.UpdateToken | client.py:32-43 | The method's new log, token file and result are those of the renewal function |
| Client.OperlogClient.ApiCall | client.py:45-67 | The loop's new state and result are those of the `api_call` function over two attempts |
| Client.OperlogClient.GetAllItems | client.py:69-75 | GET `/api`, then the payload on 200 and the status code otherwise |
| Client.OperlogClient.AddItem | client.py:77-86 | POST `/api` with the new item's body, then the payload on 201 and the status code otherwise |
| Client.OperlogClient.GetItem | client.py:88-94 | GET `/api/{id}`, then the payload on 200 and the status code otherwise |
| Client.OperlogClient.EditItem | client.py:96-102 | PUT `/api/{id}` with the given fields, then the payload on 201 and the status code otherwise |
| Client.OperlogClient.DeleteItem | client.py:104-107 | DELETE `/api/{id}`, then the status code whatever it is |
| Client.OperlogClient.Search | client.py:109-122 | Fetch all items; anything but a dict payload raises; a dict payload gives `Select` of its items |
| JsonValue.DigitsShape | cli.py:43-45 | An integer placeholder shows decimal digits with no leading zero |
| JsonValue.DigitsValue | cli.py:43-45 | The decimal digits shown for a non-negative integer denote that integer |
| JsonValue.IntToStringSign | cli.py:43-45 | An integer placeholder starts with a minus sign exactly for negative numbers, and the rest denotes the magnitude (the whole string denotes the number when it is not negative) |
| Cli.StripLeftShape | cli.py:42 | Left stripping keeps a suffix, drops only whitespace, and stops at a character that is not whitespace |
| Cli.StripRightShape | cli.py:42 | Right stripping keeps a prefix, drops only whitespace, and stops at a character that is not whitespace |
| Cli.StripShape | cli.py:42 | `strip()` leaves the contiguous part between the leading and the trailing whitespace, and what it leaves neither starts nor ends with whitespace |
| Cli.StripIdempotent | cli.py:42 | Stripping twice is stripping once |
| Cli.AfterSectionShown | cli.py:42-47 | The `-` section is printed exactly when `after_event` holds a character that is not whitespace |
| Cli.Repeat | cli.py:45-48 | `c * n` has length `n` and every character `c` |
| Cli.AfterSection | cli.py:46-47 | The after-event section is empty exactly when the stripped after-event is |
| Cli.LayoutShape | cli.py:43-48 | The text is the header, a `=` rule and the event, then the after-event section, then a closing `=` rule of 80 characters and a line break |
| Cli.Normalized | cli.py:31-42 | `id` is added only when absent; `time_event` is converted when the conversion succeeds; a string `after_event` is stripped; no other field changes and only `id` may be added |
| Cli.NormalizedRenderable | cli.py:31-42 | Normalising never adds or removes a field the layout reads, and `id` is always present afterwards |
| Cli.FmtItem | cli.py:26-49 | Anything but a dict comes back unchanged; a dict is normalised in place, also when formatting then raises; it raises iff a field the layout reads is missing or `after_event` is not a string; otherwise the text is the layout of the normalised dict |
| Cli.Render | cli.py:43-48 | The successive appends build exactly the layout |

## Left out

- The network: `requests` calls are the `Server` oracle. Timeouts, headers other than the bearer token, and the JSON parsing of the reply are not modelled; a body either decoded to a `Json` value or did not.
- `api_call` selects the verb by `eval` of a built string. The model uses the `Verb` datatype, since the four verbs are the only ones the core uses.
- The token file is a field (`tokenFile`: its content, or `None` when it does not exist). Errors in opening, reading or writing it other than the non-string token are not modelled, and nor is any other process changing the file.
- The file's character encoding is not modelled: a token is written and read as the same characters. Writing in text mode is taken to keep `\n` as it is, as on POSIX systems; reading applies universal newlines (`Protocol.ReadBack`).
- `logging` calls are left out, because they have no effect on results.
- `re.search` and `re.sub` are the parameters `matches` and `highlight`. The case-insensitive pattern, the colour escape codes, and an invalid pattern raising are therefore not modelled.
- `datetime.strptime`/`strftime` is the parameter `reformat`. `None` stands for the conversion raising, which `fmt_item` swallows.
- `str()` of a nested dict in an f-string is the parameter `showObject`. JSON arrays and floats are not in the `Json` datatype.
- Client.SelectMatches: visits the items in an unspecified order, not in the dict's insertion order. The order does not change the result, and raising items end the search whichever comes first. The partial rewriting of the collection before an exception is not stated.
- Cli.FmtItem: returns the mutated dict as `updated` instead of updating the caller's object.
- `search` assigns `res[item_id] = colored` once per field. The model assigns once, since both assignments store the same object.
- The module-level code of `cli.py` (changing directory, reading `config.yml`, building the client) and the `click` commands are not modelled, because they are I/O and command wiring.
- Concurrency is not modelled, because the client is single-threaded.

## Findings

| source | as written | input that shows it | evidently intended | confidence | as-written member | corrected member |
|---|---|---|---|---|---|---|
| client.py:26 | With no token file, `__init__` calls `update_token()` without `self.`. That name is not in scope, so construction raises `NameError` | No token file, and a login service that grants the token "t" | `token = self.update_token()`, so a client without a token file logs in, saves the token and is built | not executed | Protocol.InitAsWritten | Protocol.Init |
