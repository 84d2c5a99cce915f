/**
 * The cookie-keeping HTTP transport: a mutable header table copied into every
 * request, the shaping of each request (query merge, body choice, header keys
 * canonicalised, Content-type rule) and the reading of the reply. The network
 * itself is an oracle: a queue of replies, one consumed per request sent.
 */
module Transport {

  import opened Common
  import opened Text

  datatype Method = MethodGet | MethodPost

  /** A multipart form as `mime/multipart` writes it: one file part, then one field per extra parameter. Its bytes are not modelled. */
  datatype Blob = Multipart(boundary: string, fieldName: string, fileName: string, content: string, fields: map<string, string>)

  /** The body a request carries, in the form handed to its encoder (form encoding, JSON, or raw bytes). */
  datatype Payload = NoBody | FormBody(values: map<string, string>) | JsonBody(values: map<string, string>) | RawBody(blob: Blob)

  /**
   * Where a request goes: the URL as written, and, when its query was rebuilt
   * from parameters, the query values whose encoding replaces the written one.
   */
  datatype Target = Target(url: string, query: Option<map<string, seq<string>>>)

  /** A request as handed to the network. Header keys are canonical. */
  datatype HttpRequest = HttpRequest(verb: Method, target: Target, header: map<string, string>, payload: Payload)

  /** What the network answers: a response, a response whose body could not be read, or a transport error. */
  datatype Reply = Response(status: int, body: string) | UnreadableBody(status: int, reason: string) | NetworkError(reason: string)

  const ContentType: string := "Content-Type"
  const FormContentType: string := "application/x-www-form-urlencoded"
  const JsonContentType: string := "application/json"

  // ---------------------------------------------------------------------------
  // Header keys

  /** A byte allowed in a header field name (an RFC 7230 token character). */
  predicate TokenChar(c: char) {
    || 'a' <= c <= 'z' || 'A' <= c <= 'Z' || '0' <= c <= '9'
    || c == '!' || c == '#' || c == '$' || c == '%' || c == '&' || c == '\'' || c == '*' || c == '+'
    || c == '-' || c == '.' || c == '^' || c == '_' || c == '`' || c == '|' || c == '~'
  }

  /** One character of a recased key: upper-cased when a capital is due, lower-cased otherwise; non-letters unchanged. */
  function CaseAt(c: char, upper: bool): char {
    if upper && 'a' <= c <= 'z' then (c as int - 32) as char
    else if !upper && 'A' <= c <= 'Z' then (c as int + 32) as char
    else c
  }

  /**
   * Upper-cases the letter at the start of the key and after each hyphen, and
   * lower-cases every other letter. (Recasing never makes or unmakes a hyphen,
   * so "after a hyphen" can be read off the original key.)
   */
  function Recase(k: string): (r: string)
    ensures |r| == |k|
  {
    seq(|k|, i requires 0 <= i < |k| => CaseAt(k[i], i == 0 || k[i - 1] == '-'))
  }

  /** `textproto.CanonicalMIMEHeaderKey`: a key made of token characters is recased; any other key is left as it is. */
  function CanonicalKey(k: string): string {
    if forall i :: 0 <= i < |k| ==> TokenChar(k[i]) then Recase(k) else k
  }

  /** Canonicalising a canonical key changes nothing, so the header map never holds two spellings of one key. */
  lemma CanonicalKeyIdempotent(k: string)
    ensures CanonicalKey(CanonicalKey(k)) == CanonicalKey(k)
  {
    if forall i :: 0 <= i < |k| ==> TokenChar(k[i]) {
      RecaseIdempotent(k);
    }
  }

  lemma RecaseIdempotent(k: string)
    requires forall i :: 0 <= i < |k| ==> TokenChar(k[i])
    ensures forall i :: 0 <= i < |k| ==> TokenChar(Recase(k)[i])
    ensures Recase(Recase(k)) == Recase(k)
  {
    RecaseKeepsHyphens(k);
    var r := Recase(k);
    var rr := Recase(r);
    forall i | 0 <= i < |r| ensures rr[i] == r[i] {
      RecaseStableAt(k, i);
    }
  }

  lemma RecaseStableAt(k: string, i: nat)
    requires i < |k|
    requires i > 0 ==> (Recase(k)[i - 1] == '-' <==> k[i - 1] == '-')
    ensures Recase(Recase(k))[i] == Recase(k)[i]
  {
    var upper := i == 0 || k[i - 1] == '-';
    var r := Recase(k);
    assert r[i] == CaseAt(k[i], upper);
    assert Recase(r)[i] == CaseAt(r[i], i == 0 || r[i - 1] == '-');
    assert (i == 0 || r[i - 1] == '-') == upper;
    CaseAtFacts(k[i], upper);
  }

  /** Recasing keeps token characters token characters, and hyphens exactly where they were. */
  lemma RecaseKeepsHyphens(k: string)
    ensures forall i :: 0 <= i < |k| && TokenChar(k[i]) ==> TokenChar(Recase(k)[i])
    ensures forall i :: 0 <= i < |k| ==> (Recase(k)[i] == '-' <==> k[i] == '-')
  {
    forall i | 0 <= i < |k| ensures (TokenChar(k[i]) ==> TokenChar(Recase(k)[i])) && (Recase(k)[i] == '-' <==> k[i] == '-') {
      CaseAtFacts(k[i], i == 0 || k[i - 1] == '-');
    }
  }

  lemma CaseAtFacts(c: char, upper: bool)
    ensures TokenChar(c) ==> TokenChar(CaseAt(c, upper))
    ensures CaseAt(c, upper) == '-' <==> c == '-'
    ensures CaseAt(CaseAt(c, upper), upper) == CaseAt(c, upper)
  {
  }

  /** `Content-type`, as the source spells it, and `Content-Type` name the same header. */
  lemma ContentTypeSpellings()
    ensures CanonicalKey("Content-type") == ContentType
    ensures CanonicalKey("Content-Type") == ContentType
  {
    var a := "Content-type";
    var b := "Content-Type";
    assert forall i :: 0 <= i < |a| ==> TokenChar(a[i]);
    assert forall i :: 0 <= i < |b| ==> TokenChar(b[i]);
    assert Recase(a) == ContentType;
    assert Recase(b) == ContentType;
  }

  /** `http.Header.Get`: the value stored under the key's canonical form, or "" when there is none. */
  function HeaderValue(h: map<string, string>, key: string): string {
    if CanonicalKey(key) in h then h[CanonicalKey(key)] else ""
  }

  /**
   * `h` is what copying the table `table` into an empty request header gives,
   * key by key through `Header.Set`, in some order: one entry per canonical
   * key, holding the value of one of the table's keys with that canonical form.
   */
  predicate CopiedHeader(h: map<string, string>, table: map<string, string>) {
    && (forall k :: k in table ==> CanonicalKey(k) in h)
    && (forall key :: key in h ==> exists k :: k in table && CanonicalKey(k) == key && h[key] == table[k])
  }

  /** A table key that no other key shares a canonical form with keeps its value in the request header. */
  lemma CopiedHeaderUnique(h: map<string, string>, table: map<string, string>, k: string)
    requires CopiedHeader(h, table) && k in table
    requires forall k2 :: k2 in table && CanonicalKey(k2) == CanonicalKey(k) ==> k2 == k
    ensures h[CanonicalKey(k)] == table[k]
  {
  }

  /**
   * The Content-type decision: a JSON request gets `application/json`; a POST
   * whose header has no (or an empty) Content-type gets the form type; any
   * other request keeps its header as it is.
   */
  function ContentTypeRule(h: map<string, string>, verb: Method, sendJson: bool): map<string, string> {
    if sendJson then h[CanonicalKey("Content-type") := JsonContentType]
    else if HeaderValue(h, "Content-type") == "" && verb == MethodPost then h[CanonicalKey("Content-type") := FormContentType]
    else h
  }

  lemma ContentTypeOutcomes(h: map<string, string>, verb: Method, sendJson: bool)
    ensures var r := ContentTypeRule(h, verb, sendJson);
      && (sendJson ==> r == h[ContentType := JsonContentType])
      && (!sendJson && verb == MethodPost && HeaderValue(h, ContentType) == "" ==> r == h[ContentType := FormContentType])
      && (!sendJson && verb == MethodPost && HeaderValue(h, ContentType) != "" ==> r == h)
      && (!sendJson && verb == MethodGet ==> r == h)
  {
    ContentTypeSpellings();
  }

  // ---------------------------------------------------------------------------
  // Query strings

  /** The query part of a URL as written: what follows the first `?`, up to a `#`. */
  function RawQuery(url: string): string {
    var f := IndexOf(url, "#");
    var u := if f == -1 then url else url[..f];
    var q := IndexOf(u, "?");
    if q == -1 then "" else u[q + 1..]
  }

  /**
   * `url.ParseQuery` without percent-decoding: `&`-separated `key=value`
   * segments (a segment without `=` has the empty value); empty segments and
   * segments holding `;` are dropped; repeated keys collect their values in order.
   */
  function ParseQuery(raw: string, acc: map<string, seq<string>>): map<string, seq<string>>
    decreases |raw|
  {
    if raw == [] then acc
    else
      var amp := IndexOf(raw, "&");
      var segment := if amp == -1 then raw else raw[..amp];
      var rest := if amp == -1 then [] else raw[amp + 1..];
      var acc' :=
        if segment == [] || ';' in segment then acc
        else
          var eq := IndexOf(segment, "=");
          var key := if eq == -1 then segment else segment[..eq];
          var value := if eq == -1 then "" else segment[eq + 1..];
          acc[key := (if key in acc then acc[key] else []) + [value]];
      ParseQuery(rest, acc')
  }

  /** The query values already written in a URL. */
  function QueryOf(url: string): map<string, seq<string>> {
    ParseQuery(RawQuery(url), map[])
  }

  /**
   * Merging parameters into a query with `Values.Set`, one by one: each
   * parameter's key ends up with exactly its value, and every other key of the
   * query keeps its values.
   */
  method MergeQuery(query: map<string, seq<string>>, params: map<string, string>) returns (q: map<string, seq<string>>)
    ensures forall k :: k in params ==> k in q && q[k] == [params[k]]
    ensures forall k :: k !in params ==> (k in q <==> k in query)
    ensures forall k :: k !in params && k in query ==> q[k] == query[k]
  {
    q := query;
    var todo := params.Keys;
    while todo != {}
      invariant todo <= params.Keys
      invariant forall k :: k in params && k !in todo ==> k in q && q[k] == [params[k]]
      invariant forall k :: k !in params.Keys - todo ==> (k in q <==> k in query)
      invariant forall k :: k !in params.Keys - todo && k in query ==> q[k] == query[k]
      decreases todo
    {
      var key :| key in todo;
      q := q[key := [params[key]]];
      todo := todo - {key};
    }
  }

  // ---------------------------------------------------------------------------
  // Request bodies

  /** The body rule: raw bytes win over structured data; structured data is JSON-encoded or form-encoded; with neither there is no body. */
  predicate BodyRule(p: Payload, data: Option<map<string, string>>, rawBody: Option<Blob>, sendJson: bool) {
    && (rawBody.Some? ==> p == RawBody(rawBody.value))
    && (rawBody.None? && data.Some? ==> p == if sendJson then JsonBody(data.value) else FormBody(data.value))
    && (rawBody.None? && data.None? ==> p == NoBody)
  }

  // ---------------------------------------------------------------------------
  // Status and messages

  /** The status codes `requestText` accepts: 200 OK and 201 Created. */
  predicate Accepted(status: int) {
    status == 200 || status == 201
  }

  /** The error `requestText` reports for any other status. */
  function StatusError(status: int): Failure {
    Error("invalid status code: " + FormatInt(status))
  }

  /**
   * What `requestText` makes of a reply: the transport error; the status
   * error for any status but 200 and 201; the body-read error; or the body.
   */
  function ReadText(reply: Reply): (r: Result<string>)
    ensures r.Ok? <==> reply.Response? && Accepted(reply.status)
    ensures r.Ok? ==> r.value == reply.body
    ensures !reply.NetworkError? && !Accepted(reply.status) ==> r == Err(StatusError(reply.status))
  {
    match reply
    case NetworkError(reason) => Err(Error(reason))
    case UnreadableBody(status, reason) =>
      if !Accepted(status) then Err(StatusError(status)) else Err(Error(reason))
    case Response(status, body) =>
      if !Accepted(status) then Err(StatusError(status)) else Ok(body)
  }

  /** What `GetFile` makes of a reply: the body whatever the status, unless the transport or the body read failed. */
  function ReadBytes(reply: Reply): (r: Result<string>)
    ensures r.Ok? <==> reply.Response?
    ensures reply.Response? ==> r == Ok(reply.body)
  {
    match reply
    case NetworkError(reason) => Err(Error(reason))
    case UnreadableBody(_, reason) => Err(Error(reason))
    case Response(_, body) => Ok(body)
  }

  /** Any status error names its code, so no status other than 200 and 201 yields a body through `ReadText`. */
  lemma StatusErrorNamesCode(status: int)
    ensures StatusError(status).message[..21] == "invalid status code: "
    ensures ParseInt(StatusError(status).message[21..]) == Some(status)
  {
    var m := StatusError(status).message;
    assert m[21..] == FormatInt(status);
    FormatIntRoundTrip(status);
  }

  /** The reply the network gives next; an exhausted oracle behaves like a refused connection. */
  function NextReply(replies: seq<Reply>): Reply {
    if replies == [] then NetworkError("connection refused") else replies[0]
  }

  /** The replies left once the next one is taken. */
  function AfterReply(replies: seq<Reply>): seq<Reply> {
    if replies == [] then [] else replies[1..]
  }

  /**
   * What a request was asked for: the header table at the time, the method,
   * the URL, the query parameters, the structured and raw bodies, and whether
   * it is sent as JSON.
   */
  datatype Call = Call(table: map<string, string>, verb: Method, url: string, params: Option<map<string, string>>,
                       data: Option<map<string, string>>, rawBody: Option<Blob>, sendJson: bool)

  /** A request handed to the network: the call that made it and the request built for it. */
  datatype Exchange = Exchange(call: Call, wire: HttpRequest)

  /**
   * `req` is the request `request` builds for `call`: method and URL as
   * given, the query rebuilt only when there are parameters, the body rule,
   * and the header copied from the table with the Content-type rule applied.
   */
  ghost predicate Shaped(req: HttpRequest, call: Call) {
    && req.verb == call.verb
    && req.target.url == call.url
    && (call.params.None? ==> req.target.query.None?)
    && (call.params.Some? ==>
          && req.target.query.Some?
          && var q, params := req.target.query.value, call.params.value;
             var written := QueryOf(call.url);
             && (forall k :: k in params ==> k in q && q[k] == [params[k]])
             && (forall k :: k !in params ==> (k in q <==> k in written))
             && (forall k :: k !in params && k in written ==> q[k] == written[k]))
    && BodyRule(req.payload, call.data, call.rawBody, call.sendJson)
    && exists h :: CopiedHeader(h, call.table) && req.header == ContentTypeRule(h, call.verb, call.sendJson)
  }

  /**
   * Copies the header table into an empty request header with `Header.Set`,
   * visiting the table's keys in an unspecified order, as ranging over a Go map does.
   */
  method CopyHeader(table: map<string, string>) returns (h: map<string, string>)
    ensures CopiedHeader(h, table)
    ensures forall key :: key in h ==> exists k :: k in table && CanonicalKey(k) == key
  {
    h := map[];
    var todo := table.Keys;
    while todo != {}
      invariant todo <= table.Keys
      invariant forall k :: k in table && k !in todo ==> CanonicalKey(k) in h
      invariant forall key :: key in h ==> exists k :: k in table && CanonicalKey(k) == key && h[key] == table[k]
      decreases todo
    {
      var k :| k in todo;
      h := h[CanonicalKey(k) := table[k]];
      todo := todo - {k};
    }
  }

  /** `base` with every key of `table` set to its value in `table`. */
  function Overlay(base: map<string, string>, table: map<string, string>): (r: map<string, string>)
    ensures r.Keys == base.Keys + table.Keys
    ensures forall k :: k in table ==> r[k] == table[k]
    ensures forall k :: k in base && k !in table ==> r[k] == base[k]
  {
    map k | k in base.Keys + table.Keys :: if k in table then table[k] else base[k]
  }

  class CookieRequest {
    /** The header table copied into every request. */
    var headers: map<string, string>
    /** The network oracle: the replies still to come, in order. */
    var replies: seq<Reply>
    /** Every request handed to the network so far, in order, with the call that made it. */
    var sent: seq<Exchange>

    /** `NewCookieRequest`: an empty header table, over a network that will answer with `replies`. */
    constructor (replies: seq<Reply>)
      ensures headers == map[] && this.replies == replies && sent == []
    {
      headers := map[];
      this.replies := replies;
      sent := [];
    }

    /** Replaces the whole header table. */
    method SetHeaders(table: map<string, string>)
      modifies this`headers
      ensures headers == table
    {
      headers := table;
    }

    /** Sets every given key to its given value; every other key keeps its value and none is removed. */
    method UpdateHeaders(table: map<string, string>)
      modifies this`headers
      ensures headers == Overlay(old(headers), table)
    {
      var todo := table.Keys;
      while todo != {}
        invariant todo <= table.Keys
        invariant headers.Keys == old(headers).Keys + (table.Keys - todo)
        invariant forall k :: k in table && k !in todo ==> headers[k] == table[k]
        invariant forall k :: k in old(headers) && k !in table.Keys - todo ==> headers[k] == old(headers)[k]
        decreases todo
      {
        var k :| k in todo;
        headers := headers[k := table[k]];
        todo := todo - {k};
      }
    }

    /**
     * `request`: shapes one request from the header table and the arguments,
     * hands it to the network and returns the network's reply.
     */
    method Request(url: string, verb: Method, params: Option<map<string, string>>, data: Option<map<string, string>>,
                   rawBody: Option<Blob>, sendJson: bool) returns (reply: Reply)
      modifies this`replies, this`sent
      ensures reply == NextReply(old(replies)) && replies == AfterReply(old(replies))
      ensures |sent| == |old(sent)| + 1 && sent[..|old(sent)|] == old(sent)
      ensures sent[|old(sent)|].call == Call(headers, verb, url, params, data, rawBody, sendJson)
      ensures Shaped(sent[|old(sent)|].wire, sent[|old(sent)|].call)
    {
      var payload := NoBody;
      if data.Some? {
        if sendJson {
          payload := JsonBody(data.value);
        } else {
          payload := FormBody(data.value);
        }
      }
      if rawBody.Some? {
        payload := RawBody(rawBody.value);
      }

      var query := None;
      if params.Some? {
        var q := MergeQuery(QueryOf(url), params.value);
        query := Some(q);
      }

      var header := CopyHeader(headers);
      var base := header;
      if sendJson {
        header := header[CanonicalKey("Content-type") := JsonContentType];
      } else if HeaderValue(header, "Content-type") == "" && verb == MethodPost {
        header := header[CanonicalKey("Content-type") := FormContentType];
      }
      assert header == ContentTypeRule(base, verb, sendJson);

      var req := HttpRequest(verb, Target(url, query), header, payload);
      sent := sent + [Exchange(Call(headers, verb, url, params, data, rawBody, sendJson), req)];
      reply := NextReply(replies);
      replies := AfterReply(replies);
    }

    /** `requestText`: the body of a 200 or 201 response, or the error. */
    method RequestText(url: string, verb: Method, params: Option<map<string, string>>, data: Option<map<string, string>>,
                       rawBody: Option<Blob>, sendJson: bool) returns (r: Result<string>)
      modifies this`replies, this`sent
      ensures r == ReadText(NextReply(old(replies))) && replies == AfterReply(old(replies))
      ensures |sent| == |old(sent)| + 1 && sent[..|old(sent)|] == old(sent)
      ensures sent[|old(sent)|].call == Call(headers, verb, url, params, data, rawBody, sendJson)
      ensures Shaped(sent[|old(sent)|].wire, sent[|old(sent)|].call)
    {
      var reply := Request(url, verb, params, data, rawBody, sendJson);
      r := ReadText(reply);
    }

    /** `Get`: a GET without a body. */
    method Get(url: string, params: Option<map<string, string>>) returns (r: Result<string>)
      modifies this`replies, this`sent
      ensures r == ReadText(NextReply(old(replies))) && replies == AfterReply(old(replies))
      ensures |sent| == |old(sent)| + 1 && sent[..|old(sent)|] == old(sent)
      ensures sent[|old(sent)|].call == Call(headers, MethodGet, url, params, None, None, false)
      ensures Shaped(sent[|old(sent)|].wire, sent[|old(sent)|].call)
    {
      r := RequestText(url, MethodGet, params, None, None, false);
    }

    /**
     * `Post`: a POST whose structured body is always present, because the
     * source passes its map argument on as a non-nil interface value even when
     * the map itself is nil (an empty map here).
     */
    method Post(url: string, params: Option<map<string, string>>, data: map<string, string>, rawBody: Option<Blob>,
                sendJson: bool) returns (r: Result<string>)
      modifies this`replies, this`sent
      ensures r == ReadText(NextReply(old(replies))) && replies == AfterReply(old(replies))
      ensures |sent| == |old(sent)| + 1 && sent[..|old(sent)|] == old(sent)
      ensures sent[|old(sent)|].call == Call(headers, MethodPost, url, params, Some(data), rawBody, sendJson)
      ensures Shaped(sent[|old(sent)|].wire, sent[|old(sent)|].call)
    {
      r := RequestText(url, MethodPost, params, Some(data), rawBody, sendJson);
    }

    /** `GetJson`: a GET sent as JSON, whose accepted body is then decoded by `decode`. */
    method GetJson<T>(url: string, params: Option<map<string, string>>, decode: string -> Result<T>) returns (r: Result<T>)
      modifies this`replies, this`sent
      ensures var text := ReadText(NextReply(old(replies)));
        r == if text.Ok? then decode(text.value) else Err(text.failure)
      ensures replies == AfterReply(old(replies))
      ensures |sent| == |old(sent)| + 1 && sent[..|old(sent)|] == old(sent)
      ensures sent[|old(sent)|].call == Call(headers, MethodGet, url, params, None, None, true)
      ensures Shaped(sent[|old(sent)|].wire, sent[|old(sent)|].call)
    {
      var text := RequestText(url, MethodGet, params, None, None, true);
      if text.Err? {
        return Err(text.failure);
      }
      r := decode(text.value);
    }

    /** `PostJson`: a POST whose accepted body is then decoded by `decode`. */
    method PostJson<T>(url: string, params: Option<map<string, string>>, data: map<string, string>, rawBody: Option<Blob>,
                       sendJson: bool, decode: string -> Result<T>) returns (r: Result<T>)
      modifies this`replies, this`sent
      ensures var text := ReadText(NextReply(old(replies)));
        r == if text.Ok? then decode(text.value) else Err(text.failure)
      ensures replies == AfterReply(old(replies))
      ensures |sent| == |old(sent)| + 1 && sent[..|old(sent)|] == old(sent)
      ensures sent[|old(sent)|].call == Call(headers, MethodPost, url, params, Some(data), rawBody, sendJson)
      ensures Shaped(sent[|old(sent)|].wire, sent[|old(sent)|].call)
    {
      var text := RequestText(url, MethodPost, params, Some(data), rawBody, sendJson);
      if text.Err? {
        return Err(text.failure);
      }
      r := decode(text.value);
    }

    /** `GetFile`: the body of the reply whatever its status code. */
    method GetFile(url: string, params: Option<map<string, string>>) returns (r: Result<string>)
      modifies this`replies, this`sent
      ensures r == ReadBytes(NextReply(old(replies))) && replies == AfterReply(old(replies))
      ensures |sent| == |old(sent)| + 1 && sent[..|old(sent)|] == old(sent)
      ensures sent[|old(sent)|].call == Call(headers, MethodGet, url, params, None, None, false)
      ensures Shaped(sent[|old(sent)|].wire, sent[|old(sent)|].call)
    {
      var reply := Request(url, MethodGet, params, None, None, false);
      r := ReadBytes(reply);
    }

    /**
     * `UploadFile`: posts `file` as the multipart file part `fieldName` named
     * `fileName`, with each parameter as a further field. The multipart
     * Content-Type (with the writer's `boundary`) is written into the header
     * table itself, so it stays there for later requests. A file that cannot
     * be read fails before anything is changed or sent.
     */
    method UploadFile(url: string, params: Option<map<string, string>>, fieldName: string, fileName: string,
                      file: Result<string>, boundary: string) returns (r: Result<string>)
      modifies this`headers, this`replies, this`sent
      ensures file.Err? ==> r == Err(file.failure) && headers == old(headers) && replies == old(replies) && sent == old(sent)
      ensures file.Ok? ==>
        && headers == old(headers)[ContentType := "multipart/form-data; boundary=" + boundary]
        && r == ReadText(NextReply(old(replies))) && replies == AfterReply(old(replies))
        && |sent| == |old(sent)| + 1 && sent[..|old(sent)|] == old(sent)
        && var fields := if params.Some? then params.value else map[];
           && sent[|old(sent)|].call
                == Call(headers, MethodPost, url, None, None, Some(Multipart(boundary, fieldName, fileName, file.value, fields)), false)
           && Shaped(sent[|old(sent)|].wire, sent[|old(sent)|].call)
    {
      if file.Err? {
        return Err(file.failure);
      }
      var fields := if params.Some? then params.value else map[];
      var blob := Multipart(boundary, fieldName, fileName, file.value, fields);
      headers := headers[ContentType := "multipart/form-data; boundary=" + boundary];
      r := RequestText(url, MethodPost, None, None, Some(blob), false);
    }
  }
}
