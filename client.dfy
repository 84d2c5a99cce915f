/**
 * The account client: its settings and the options that set them, the
 * three-step sign-in handshake guarded by the `loggedIn` flag, and the
 * activity download, upload and list calls made through the cookie transport.
 */
module Garmin {

  import opened Common
  import opened Text
  import opened Activity
  import opened Extract
  import opened Ticket
  import opened Transport

  const ApiServiceHost: string := "connect.garmin.com"
  const ApiServiceHostCn: string := "connect.garmin.cn"
  const SsoPrefix: string := "https://sso.garmin.com"
  const SsoPrefixCn: string := "https://sso.garmin.cn"
  const UserAgent: string :=
    "Mozilla/5.0 (Windows NT 10.0; Win64; x64) AppleWebKit/537.36 (KHTML, like Gecko) Chrome/90.0.4430.212 Safari/537.36"

  // ---------------------------------------------------------------------------
  // Settings and options

  /** The client's exported fields. */
  datatype Settings = Settings(email: string, password: string, apiHost: string, apiPrefix: string, ssoPrefix: string)

  /** The fields of a freshly allocated client, before any option runs. */
  const Unset: Settings := Settings("", "", "", "", "")

  /** The two option constructors: `Credentials(email, password)` and `SetEnv(apiHost, ssoPrefix)`. */
  datatype ClientOption = Credentials(email: string, password: string) | SetEnv(apiHost: string, ssoPrefix: string)

  /** What running one option does to the settings. */
  function Apply(s: Settings, o: ClientOption): Settings {
    match o
    case Credentials(e, p) => s.(email := e, password := p)
    case SetEnv(h, sso) => s.(apiHost := h, apiPrefix := "https://" + h, ssoPrefix := sso)
  }

  /** Running the options one after the other, in order. */
  function ApplyAll(s: Settings, options: seq<ClientOption>): Settings
    decreases |options|
  {
    if options == [] then s else Apply(ApplyAll(s, options[..|options| - 1]), options[|options| - 1])
  }

  /** The email and password of the last `Credentials` option in the list, if any. */
  function LastCredentials(options: seq<ClientOption>): Option<(string, string)>
    decreases |options|
  {
    if options == [] then None
    else if options[|options| - 1].Credentials? then Some((options[|options| - 1].email, options[|options| - 1].password))
    else LastCredentials(options[..|options| - 1])
  }

  /** The API host and SSO prefix of the last `SetEnv` option in the list, if any. */
  function LastEnv(options: seq<ClientOption>): Option<(string, string)>
    decreases |options|
  {
    if options == [] then None
    else if options[|options| - 1].SetEnv? then Some((options[|options| - 1].apiHost, options[|options| - 1].ssoPrefix))
    else LastEnv(options[..|options| - 1])
  }

  /**
   * Later options overwrite earlier ones: the credentials are those of the last
   * `Credentials` option, the environment that of the last `SetEnv`, whose API
   * prefix is always `https://` followed by its host; fields no option sets keep
   * their value.
   */
  lemma {:induction false} ApplyAllLastWins(s: Settings, options: seq<ClientOption>)
    ensures var r := ApplyAll(s, options);
      && (LastCredentials(options).None? ==> r.email == s.email && r.password == s.password)
      && (LastCredentials(options).Some? ==>
            r.email == LastCredentials(options).value.0 && r.password == LastCredentials(options).value.1)
      && (LastEnv(options).None? ==> r.apiHost == s.apiHost && r.apiPrefix == s.apiPrefix && r.ssoPrefix == s.ssoPrefix)
      && (LastEnv(options).Some? ==>
            && r.apiHost == LastEnv(options).value.0
            && r.apiPrefix == "https://" + LastEnv(options).value.0
            && r.ssoPrefix == LastEnv(options).value.1)
  {
    if options != [] {
      ApplyAllLastWins(s, options[..|options| - 1]);
    }
  }

  /** Two `SetOptions` calls in a row act as one call with both option lists, in order. */
  lemma {:induction false} ApplyAllAppend(s: Settings, a: seq<ClientOption>, b: seq<ClientOption>)
    ensures ApplyAll(s, a + b) == ApplyAll(ApplyAll(s, a), b)
    decreases |b|
  {
    if b == [] {
      assert a + b == a;
    } else {
      assert (a + b)[..|a + b| - 1] == a + b[..|b| - 1];
      ApplyAllAppend(s, a, b[..|b| - 1]);
    }
  }

  // ---------------------------------------------------------------------------
  // Query encoding, for the Referer header

  /** A character `url.QueryEscape` leaves as it is. */
  predicate Unreserved(c: char) {
    'a' <= c <= 'z' || 'A' <= c <= 'Z' || '0' <= c <= '9' || c == '-' || c == '_' || c == '.' || c == '~'
  }

  function HexDigit(d: nat): char
    requires d < 16
  {
    "0123456789ABCDEF"[d]
  }

  /** One character escaped: unreserved characters stay, a space becomes `+`, any other byte becomes `%XX`. */
  function EscapeChar(c: char): (r: string)
    ensures r == [c] <==> Unreserved(c)
    ensures forall i :: 0 <= i < |r| ==> Unreserved(r[i]) || r[i] == '%' || r[i] == '+'
  {
    if Unreserved(c) then [c]
    else if c == ' ' then "+"
    else
      var b := c as int % 256;
      ['%', HexDigit(b / 16), HexDigit(b % 16)]
  }

  /** `url.QueryEscape`: the result holds no `&`, `=` or `#`, so it cannot break a `key=value&...` query apart. */
  function QueryEscape(s: string): (r: string)
    ensures forall i :: 0 <= i < |r| ==> Unreserved(r[i]) || r[i] == '%' || r[i] == '+'
  {
    if s == [] then [] else EscapeChar(s[0]) + QueryEscape(s[1..])
  }

  /** A string of unreserved characters is its own escape. */
  lemma {:induction false} QueryEscapePlain(s: string)
    requires forall i :: 0 <= i < |s| ==> Unreserved(s[i])
    ensures QueryEscape(s) == s
  {
    if s != [] {
      QueryEscapePlain(s[1..]);
    }
  }

  /** Byte-wise string order, the order `url.Values.Encode` sorts its keys in. */
  predicate Below(a: string, b: string) {
    if a == [] then b != []
    else if b == [] then false
    else if a[0] != b[0] then a[0] < b[0]
    else Below(a[1..], b[1..])
  }

  /** Strings that share their first `k` characters compare as their remainders do. */
  lemma {:induction false} BelowPastPrefix(a: string, b: string, k: nat)
    requires k <= |a| && k <= |b| && a[..k] == b[..k]
    ensures Below(a, b) == Below(a[k..], b[k..])
  {
    if k > 0 {
      assert a[0] == a[..k][0] == b[..k][0] == b[0];
      assert a[1..][..k - 1] == a[..k][1..] == b[..k][1..] == b[1..][..k - 1];
      BelowPastPrefix(a[1..], b[1..], k - 1);
      assert a[1..][k - 1..] == a[k..] && b[1..][k - 1..] == b[k..];
    }
  }

  // ---------------------------------------------------------------------------
  // The sign-in handshake

  /** The sign-in page's URL. */
  function SigninUri(s: Settings): string {
    s.ssoPrefix + "/sso/signin"
  }

  /** The query parameters of the sign-in GET and POST. */
  function SigninParams(s: Settings): map<string, string> {
    map[
      "service" := s.apiPrefix + "/modern",
      "clientId" := "GarminConnect",
      "gauthHost" := s.ssoPrefix + "/sso",
      "generateExtraServiceTicket" := "true",
      "generateTwoExtraServiceTickets" := "true",
      "consumeServiceTicket" := "false"]
  }

  /** The sign-in parameter names in the order `url.Values.Encode` writes them. */
  const SigninKeys: seq<string> := [
    "clientId", "consumeServiceTicket", "gauthHost",
    "generateExtraServiceTicket", "generateTwoExtraServiceTickets", "service"]

  /** The names are in strictly increasing byte order, as `url.Values.Encode` sorts them. */
  lemma SigninKeysSorted()
    ensures forall i :: 0 < i < |SigninKeys| ==> Below(SigninKeys[i - 1], SigninKeys[i])
  {
    forall i | 0 < i < |SigninKeys| ensures Below(SigninKeys[i - 1], SigninKeys[i]) {
      if i == 1 {
        assert Below("clientId", "consumeServiceTicket");
      } else if i == 2 {
        assert Below("consumeServiceTicket", "gauthHost");
      } else if i == 3 {
        assert Below("gauthHost", "generateExtraServiceTicket");
      } else if i == 4 {
        var a, b := "generateExtraServiceTicket", "generateTwoExtraServiceTickets";
        assert Below(a[8..], b[8..]);
        BelowPastPrefix(a, b, 8);
      } else {
        assert Below("generateTwoExtraServiceTickets", "service");
      }
    }
  }

  /** The names are exactly the sign-in parameters' keys, each listed once. */
  lemma SigninKeysMatchParams(s: Settings)
    ensures forall k :: k in SigninParams(s) <==> k in SigninKeys
    ensures forall i, j :: 0 <= i < j < |SigninKeys| ==> SigninKeys[i] != SigninKeys[j]
  {
    assert SigninKeys[0] == "clientId" && SigninKeys[5] == "service";
  }

  /**
   * The encoded sign-in query of the Referer header, pair by pair;
   * `SigninQueryEncodes` proves it is what `url.Values.Encode` writes.
   */
  function SigninQuery(s: Settings): string {
    "clientId=GarminConnect&" + ("consumeServiceTicket=false&" + ("gauthHost=" + QueryEscape(s.ssoPrefix + "/sso") + "&"
    + ("generateExtraServiceTicket=true&" + ("generateTwoExtraServiceTickets=true&" + ("service=" + QueryEscape(s.apiPrefix + "/modern"))))))
  }

  /**
   * `url.Values.Encode` for a map with one value per key, given its keys in
   * sorted order: each key and value escaped, joined by `=`, and the pairs
   * joined by `&`.
   */
  function EncodeQuery(keys: seq<string>, params: map<string, string>): string
    requires forall i :: 0 <= i < |keys| ==> keys[i] in params
  {
    if keys == [] then ""
    else
      var pair := QueryEscape(keys[0]) + "=" + QueryEscape(params[keys[0]]);
      if |keys| == 1 then pair else pair + "&" + EncodeQuery(keys[1..], params)
  }

  /** The pair at position `i` of a key list with more keys after it, and the rest of the query. */
  lemma EncodeAt(keys: seq<string>, params: map<string, string>, i: nat)
    requires i + 1 < |keys| && forall j :: 0 <= j < |keys| ==> keys[j] in params
    ensures EncodeQuery(keys[i..], params)
         == QueryEscape(keys[i]) + "=" + QueryEscape(params[keys[i]]) + "&" + EncodeQuery(keys[i + 1..], params)
  {
    assert keys[i..][1..] == keys[i + 1..];
  }

  /** A string of unreserved characters. */
  predicate Plain(w: string) {
    forall i :: 0 <= i < |w| ==> Unreserved(w[i])
  }

  /**
   * The encoding of six keys whose keys, and whose first, second, fourth and
   * fifth values, are plain: those are written as they are.
   */
  lemma EncodeSix(keys: seq<string>, params: map<string, string>)
    requires |keys| == 6 && forall i :: 0 <= i < 6 ==> keys[i] in params && Plain(keys[i])
    requires Plain(params[keys[0]]) && Plain(params[keys[1]]) && Plain(params[keys[3]]) && Plain(params[keys[4]])
    ensures EncodeQuery(keys, params)
         == keys[0] + "=" + params[keys[0]] + "&" + (keys[1] + "=" + params[keys[1]] + "&"
          + (keys[2] + "=" + QueryEscape(params[keys[2]]) + "&" + (keys[3] + "=" + params[keys[3]] + "&"
          + (keys[4] + "=" + params[keys[4]] + "&" + (keys[5] + "=" + QueryEscape(params[keys[5]]))))))
  {
    forall i | 0 <= i < 6 ensures QueryEscape(keys[i]) == keys[i] {
      QueryEscapePlain(keys[i]);
    }
    QueryEscapePlain(params[keys[0]]);
    QueryEscapePlain(params[keys[1]]);
    QueryEscapePlain(params[keys[3]]);
    QueryEscapePlain(params[keys[4]]);
    assert keys[5..] == [keys[5]];
    EncodeAt(keys, params, 4);
    EncodeAt(keys, params, 3);
    EncodeAt(keys, params, 2);
    EncodeAt(keys, params, 1);
    EncodeAt(keys, params, 0);
    assert keys[0..] == keys;
  }

  lemma SigninKeysPlain()
    ensures forall i :: 0 <= i < |SigninKeys| ==> Plain(SigninKeys[i])
  {
  }

  lemma SigninValuesPlain()
    ensures Plain("GarminConnect") && Plain("false") && Plain("true")
  {
  }

  /** The Referer query spelled with the sign-in keys and values, pair by pair. */
  lemma SigninQueryPairs(s: Settings)
    ensures var k, p := SigninKeys, SigninParams(s);
      SigninQuery(s)
      == k[0] + "=" + p[k[0]] + "&" + (k[1] + "=" + p[k[1]] + "&"
       + (k[2] + "=" + QueryEscape(p[k[2]]) + "&" + (k[3] + "=" + p[k[3]] + "&"
       + (k[4] + "=" + p[k[4]] + "&" + (k[5] + "=" + QueryEscape(p[k[5]]))))))
  {
    SigninPairTexts();
  }

  lemma SigninPairTexts()
    ensures "clientId" + "=" + "GarminConnect" + "&" == "clientId=GarminConnect&"
    ensures "consumeServiceTicket" + "=" + "false" + "&" == "consumeServiceTicket=false&"
    ensures "gauthHost" + "=" == "gauthHost="
    ensures "generateExtraServiceTicket" + "=" + "true" + "&" == "generateExtraServiceTicket=true&"
    ensures "generateTwoExtraServiceTickets" + "=" + "true" + "&" == "generateTwoExtraServiceTickets=true&"
    ensures "service" + "=" == "service="
  {
  }

  /**
   * The Referer query is `url.Values.Encode` of the sign-in parameters:
   * each key and value escaped, in the sorted key order, joined by `=` and `&`.
   */
  lemma SigninQueryEncodes(s: Settings)
    ensures (SigninKeysMatchParams(s); SigninQuery(s) == EncodeQuery(SigninKeys, SigninParams(s)))
  {
    SigninKeysMatchParams(s);
    SigninKeysPlain();
    SigninValuesPlain();
    EncodeSix(SigninKeys, SigninParams(s));
    SigninQueryPairs(s);
  }

  /** The header table of the sign-in GET. */
  function BrowserHeaders(): map<string, string> {
    map["User-Agent" := UserAgent]
  }

  /** The header table of the login POST and the ticket exchange: the browser headers plus Origin and Referer. */
  function LoginHeaders(s: Settings): map<string, string> {
    BrowserHeaders()["Origin" := s.ssoPrefix]["Referer" := SigninUri(s) + "?" + SigninQuery(s)]
  }

  /** The login form. */
  function LoginForm(s: Settings, csrf: string): map<string, string> {
    map["username" := s.email, "password" := s.password, "embed" := "false", "_csrf" := csrf]
  }

  /**
   * How a handshake went: its error (None on success), how many requests it
   * sent, the CSRF token it scraped and the ticket URL it followed (empty
   * when the step was not reached).
   */
  datatype Handshake = Handshake(err: Option<Failure>, requests: nat, csrf: string, ticketUrl: string)

  /** The replies left after `n` requests. */
  function Drop(replies: seq<Reply>, n: nat): seq<Reply> {
    if n == 0 then replies else Drop(AfterReply(replies), n - 1)
  }

  lemma DropSteps(replies: seq<Reply>)
    ensures Drop(replies, 1) == AfterReply(replies)
    ensures Drop(replies, 2) == AfterReply(AfterReply(replies))
    ensures Drop(replies, 3) == AfterReply(AfterReply(AfterReply(replies)))
  {
    assert Drop(AfterReply(AfterReply(AfterReply(replies))), 0) == AfterReply(AfterReply(AfterReply(replies)));
    assert Drop(AfterReply(AfterReply(replies)), 0) == AfterReply(AfterReply(replies));
    assert Drop(AfterReply(replies), 0) == AfterReply(replies);
  }

  /** The body the ticket exchange hands to the profile scraper: its error is dropped and an empty body used instead. */
  function ExchangeBody(reply: Reply): string {
    var text := ReadText(reply);
    if text.Ok? then text.value else ""
  }

  /** The first step: the sign-in page must be read, and its CSRF token scraped. */
  function CsrfStep(reply: Reply): Result<string> {
    var page := ReadText(reply);
    if page.Err? then Err(page.failure) else ExtractCSRFToken(page.value)
  }

  /** The second step: the login reply must be read, and a ticket URL for `apiHost` found in it. */
  function TicketStep(reply: Reply, apiHost: string): Result<string> {
    var login := ReadText(reply);
    if login.Err? then Err(login.failure) else ExtractTicketUrl(login.value, apiHost)
  }

  /** The third step: the social profile is scraped from the exchanged page, or from an empty body when it was not read. */
  function ProfileStep(reply: Reply): Result<string> {
    ExtractSocialProfile(ExchangeBody(reply))
  }

  /**
   * The handshake `Auth` runs against the replies the network will give: the
   * three steps in order, stopping at the first that fails.
   */
  function RunHandshake(s: Settings, replies: seq<Reply>): (h: Handshake)
    ensures 1 <= h.requests <= 3
    ensures h.err.None? ==> h.requests == 3
  {
    var csrf := CsrfStep(NextReply(replies));
    if csrf.Err? then Handshake(Some(csrf.failure), 1, "", "")
    else
      var rest := RunLogin(s, csrf.value, AfterReply(replies));
      rest.(requests := rest.requests + 1)
  }

  /** The handshake once the CSRF token `csrf` is known: the login step, then the ticket exchange. */
  function RunLogin(s: Settings, csrf: string, replies: seq<Reply>): (h: Handshake)
    ensures 1 <= h.requests <= 2 && h.csrf == csrf
    ensures h.err.None? ==> h.requests == 2
  {
    var ticket := TicketStep(NextReply(replies), s.apiHost);
    if ticket.Err? then Handshake(Some(ticket.failure), 1, csrf, "")
    else
      var profile := ProfileStep(NextReply(AfterReply(replies)));
      Handshake(if profile.Err? then Some(profile.failure) else None, 2, csrf, ticket.value)
  }

  /**
   * A handshake that reached the ticket exchange but whose exchange reply was
   * not read (a transport error or a status other than 200 and 201) fails as
   * if the page held no social profile.
   */
  lemma ExchangeErrorDiscarded(s: Settings, replies: seq<Reply>)
    requires RunHandshake(s, replies).requests == 3
    requires ReadText(NextReply(AfterReply(AfterReply(replies)))).Err?
    ensures RunHandshake(s, replies).err == Some(Error("social profile not found"))
  {
    assert ExchangeBody(NextReply(AfterReply(AfterReply(replies)))) == "";
    SocialProfileCases("");
    assert forall i :: !OccursAt("", ProfileStart, i);
  }

  /**
   * A handshake succeeds only if the sign-in page held the CSRF marker, the
   * login reply matched the ticket pattern for the client's API host, and the
   * exchanged page held the social-profile marker.
   */
  lemma HandshakeNeeds(s: Settings, replies: seq<Reply>)
    requires RunHandshake(s, replies).err.None?
    ensures NextReply(replies).Response? && Accepted(NextReply(replies).status)
    ensures exists i :: OccursAt(NextReply(replies).body, CsrfStart, i)
    ensures var login := NextReply(AfterReply(replies));
      && login.Response? && Accepted(login.status)
      && exists i :: 0 <= i <= |login.body| && MatchAt(login.body, s.apiHost, i).Some?
    ensures var exchange := NextReply(AfterReply(AfterReply(replies)));
      && exchange.Response? && Accepted(exchange.status)
      && exists i :: OccursAt(exchange.body, ProfileStart, i)
  {
    CsrfTokenCases(NextReply(replies).body);
    TicketUrlCases(NextReply(AfterReply(replies)).body, s.apiHost);
    var exchange := NextReply(AfterReply(AfterReply(replies)));
    SocialProfileCases(ExchangeBody(exchange));
    if !(exchange.Response? && Accepted(exchange.status)) {
      ExchangeErrorDiscarded(s, replies);
    }
  }

  /**
   * The converse of `HandshakeNeeds`: three accepted replies succeed when the
   * sign-in page holds a CSRF token the scraper takes, the login reply holds
   * the ticket pattern's shape for the client's host (ending a ticket run
   * that cannot be extended), and the exchanged page holds a social profile
   * the scraper takes.
   */
  lemma HandshakeSucceeds(s: Settings, replies: seq<Reply>, i: nat, e: nat, hostText: string, slash: string, ticket: string)
    requires var page := NextReply(replies);
      page.Response? && Accepted(page.status) && SliceTaken(page.body, CsrfStart, CsrfEnd)
    requires var login := NextReply(AfterReply(replies));
      && login.Response? && Accepted(login.status)
      && i <= e <= |login.body| && MatchShape(login.body[i..e], s.apiHost, hostText, slash, ticket)
      && (e == |login.body| || !TicketChar(login.body[e]))
    requires var exchange := NextReply(AfterReply(AfterReply(replies)));
      exchange.Response? && Accepted(exchange.status) && SliceTaken(exchange.body, ProfileStart, ProfileEnd)
    ensures RunHandshake(s, replies).err.None?
  {
    CsrfTokenCases(NextReply(replies).body);
    var login := NextReply(AfterReply(replies));
    ShapedBodyGivesUrl(login.body, s.apiHost, i, e, hostText, slash, ticket);
    SocialProfileCases(NextReply(AfterReply(AfterReply(replies))).body);
  }

  /** The URL `DownloadActivity` fetches the archive of activity `id` from. */
  function DownloadUrl(s: Settings, id: int): string {
    s.apiPrefix + "/modern/proxy/download-service/files/activity/" + FormatInt(id)
  }

  /** The URL `UploadActivity` posts to. */
  function UploadUrl(s: Settings): string {
    s.apiPrefix + "/modern/proxy/upload-service/upload/.fit"
  }

  /** The headers `UploadActivity` adds to the table. */
  function UploadHeaders(s: Settings): map<string, string> {
    map["Origin" := s.apiPrefix, "Referer" := s.apiPrefix + "/modern/import-data", "Nk" := "NT"]
  }

  /** The URL `GetActivityList` searches. */
  function ListUrl(s: Settings): string {
    s.apiPrefix + "/proxy/activitylist-service/activities/search/activities"
  }

  /** The query parameters of `GetActivityList`. */
  function ListParams(start: int, limit: int): map<string, string> {
    map["start" := FormatInt(start), "limit" := FormatInt(limit)]
  }

  // ---------------------------------------------------------------------------
  // Archives

  /** One file of a zip archive: its name, and its content or the error opening it gives. */
  datatype ZipEntry = ZipEntry(name: string, file: Result<string>)

  /** A downloaded activity file: its name in the archive and its content. */
  datatype Download = Download(name: string, content: string)

  /** What `DownloadActivity` makes of a decoded archive: its first file, or "not file in zip file" when it has none. */
  function FirstEntry(archive: Result<seq<ZipEntry>>): Result<Download> {
    if archive.Err? then Err(archive.failure)
    else if archive.value == [] then Err(Error("not file in zip file"))
    else if archive.value[0].file.Err? then Err(archive.value[0].file.failure)
    else Ok(Download(archive.value[0].name, archive.value[0].file.value))
  }

  /** Only the first file of an archive matters; a download is named after it and carries its content. */
  lemma FirstEntryOnly(e: ZipEntry, rest1: seq<ZipEntry>, rest2: seq<ZipEntry>)
    ensures FirstEntry(Ok([e] + rest1)) == FirstEntry(Ok([e] + rest2))
    ensures FirstEntry(Ok([e] + rest1)).Ok? <==> e.file.Ok?
    ensures FirstEntry(Ok([e] + rest1)).Ok? ==> FirstEntry(Ok([e] + rest1)).value == Download(e.name, e.file.value)
  {
  }

  /** The archive is read from the reply body whatever the reply's status, because the download never checks it. */
  lemma DownloadIgnoresStatus(status: int, body: string)
    ensures ReadBytes(Response(status, body)) == ReadBytes(Response(200, body))
  {
  }

  /**
   * The handshake `h` ran on a transport: the error and the login flag are its
   * outcome, it used one reply and logged one exchange per request it made,
   * keeping the earlier log, and the headers are `table`.
   */
  ghost predicate Ran(h: Handshake, table: map<string, string>, replies0: seq<Reply>, sent0: seq<Exchange>,
                      err: Option<Failure>, loggedIn: bool, replies: seq<Reply>, sent: seq<Exchange>,
                      headers: map<string, string>)
  {
    && err == h.err && loggedIn == h.err.None?
    && replies == Drop(replies0, h.requests)
    && |sent| == |sent0| + h.requests && sent[..|sent0|] == sent0
    && headers == table
  }

  /** A handshake that stopped after one request consumed one reply and logged one exchange. */
  lemma RanOneStep(h: Handshake, table: map<string, string>, replies0: seq<Reply>, sent0: seq<Exchange>,
                   replies: seq<Reply>, sent: seq<Exchange>, headers: map<string, string>)
    requires h.requests == 1 && headers == table
    requires replies == AfterReply(replies0) && |sent| == |sent0| + 1 && sent[..|sent0|] == sent0
    ensures Ran(h, table, replies0, sent0, h.err, h.err.None?, replies, sent, headers)
  {
    DropSteps(replies0);
  }

  /** A handshake that stopped after two requests consumed two replies and logged two exchanges. */
  lemma RanTwoSteps(h: Handshake, table: map<string, string>, replies0: seq<Reply>, sent0: seq<Exchange>,
                    sent1: seq<Exchange>, replies: seq<Reply>, sent: seq<Exchange>, headers: map<string, string>)
    requires h.requests == 2 && headers == table
    requires |sent1| == |sent0| + 1 && sent1[..|sent0|] == sent0
    requires replies == AfterReply(AfterReply(replies0)) && |sent| == |sent1| + 1 && sent[..|sent1|] == sent1
    ensures Ran(h, table, replies0, sent0, h.err, h.err.None?, replies, sent, headers)
  {
    DropSteps(replies0);
    assert sent[..|sent0|] == sent1[..|sent0|];
  }

  /** A handshake that ran `h1` after one more request ran `h1` with that request counted. */
  lemma RanShifted(h1: Handshake, h: Handshake, table: map<string, string>, replies0: seq<Reply>,
                   sent0: seq<Exchange>, sent1: seq<Exchange>, err: Option<Failure>, loggedIn: bool,
                   replies: seq<Reply>, sent: seq<Exchange>, headers: map<string, string>)
    requires h == h1.(requests := h1.requests + 1)
    requires |sent1| == |sent0| + 1 && sent1[..|sent0|] == sent0
    requires Ran(h1, table, AfterReply(replies0), sent1, err, loggedIn, replies, sent, headers)
    ensures Ran(h, table, replies0, sent0, err, loggedIn, replies, sent, headers)
  {
    assert Drop(replies0, h1.requests + 1) == Drop(AfterReply(replies0), h1.requests);
    assert sent[..|sent0|] == sent1[..|sent0|];
  }

  class Client {
    /** The exported fields (email, password, API host and prefix, SSO prefix), as one value. */
    var config: Settings
    /** The cookie transport every request goes through. */
    const transport: CookieRequest
    var loggedIn: bool

    /** `NewClient`: a client not logged in, with a fresh transport, whose options are applied in order. */
    constructor (options: seq<ClientOption>, replies: seq<Reply>)
      ensures config == ApplyAll(Unset, options)
      ensures !loggedIn
      ensures fresh(transport) && transport.headers == map[] && transport.replies == replies && transport.sent == []
    {
      config := Unset;
      transport := new CookieRequest(replies);
      loggedIn := false;
      new;
      SetOptions(options);
    }

    /** `SetOptions`: runs each option on the client, in order. */
    method SetOptions(options: seq<ClientOption>)
      modifies this`config
      ensures config == ApplyAll(old(config), options)
    {
      for i := 0 to |options|
        invariant config == ApplyAll(old(config), options[..i])
      {
        assert options[..i + 1][..i] == options[..i];
        match options[i]
        case Credentials(e, p) =>
          config := config.(email := e, password := p);
        case SetEnv(h, sso) =>
          config := config.(apiHost := h, apiPrefix := "https://" + h, ssoPrefix := sso);
      }
      assert options[..|options|] == options;
    }

    /**
     * `Auth`: with `reLogin` the flag is cleared first; a client still logged
     * in returns at once without sending anything. Otherwise the handshake
     * runs: its outcome is the error returned, the flag is set exactly when it
     * succeeded, each of its requests used one reply and logged one exchange,
     * and the client is left with the browser headers when the first step
     * failed (the sign-in page unread or without a CSRF token) and with the
     * login headers otherwise.
     */
    method Auth(reLogin: bool) returns (err: Option<Failure>)
      modifies this`loggedIn, transport`headers, transport`replies, transport`sent
      ensures !reLogin && old(loggedIn) ==>
        err.None? && loggedIn && transport.headers == old(transport.headers)
        && transport.replies == old(transport.replies) && transport.sent == old(transport.sent)
      ensures reLogin || !old(loggedIn) ==>
        var h := RunHandshake(config, old(transport.replies));
        Ran(h, if h.requests == 1 then BrowserHeaders() else LoginHeaders(config),
            old(transport.replies), old(transport.sent), err, loggedIn, transport.replies, transport.sent, transport.headers)
    {
      if reLogin {
        loggedIn := false;
      }
      if loggedIn {
        return None;
      }
      err := SignIn();
    }

    /** The handshake proper, run by a client that is not logged in. */
    method SignIn() returns (err: Option<Failure>)
      requires !loggedIn
      modifies this`loggedIn, transport`headers, transport`replies, transport`sent
      ensures var h := RunHandshake(config, old(transport.replies));
        Ran(h, if h.requests == 1 then BrowserHeaders() else LoginHeaders(config),
            old(transport.replies), old(transport.sent), err, loggedIn, transport.replies, transport.sent, transport.headers)
    {
      ghost var replies0, sent0 := transport.replies, transport.sent;
      var csrf := SignInPage();
      if csrf.Err? {
        err := Some(csrf.failure);
        assert RunHandshake(config, replies0) == Handshake(err, 1, "", "");
        RanOneStep(RunHandshake(config, replies0), BrowserHeaders(), replies0, sent0,
                   transport.replies, transport.sent, transport.headers);
        return;
      }
      ghost var sent1 := transport.sent;
      err := LogInAndExchange(csrf.value);
      RanShifted(RunLogin(config, csrf.value, AfterReply(replies0)), RunHandshake(config, replies0), LoginHeaders(config),
                 replies0, sent0, sent1, err, loggedIn, transport.replies, transport.sent, transport.headers);
    }

    /** The login step and the ticket exchange; the flag is set when both succeed. */
    method LogInAndExchange(csrf: string) returns (err: Option<Failure>)
      requires !loggedIn
      modifies this`loggedIn, transport`headers, transport`replies, transport`sent
      ensures Ran(RunLogin(config, csrf, old(transport.replies)), LoginHeaders(config),
                  old(transport.replies), old(transport.sent), err, loggedIn, transport.replies, transport.sent, transport.headers)
    {
      ghost var replies0, sent0 := transport.replies, transport.sent;
      var ticket := LogIn(csrf);
      if ticket.Err? {
        err := Some(ticket.failure);
        assert RunLogin(config, csrf, replies0) == Handshake(err, 1, csrf, "");
        RanOneStep(RunLogin(config, csrf, replies0), LoginHeaders(config), replies0, sent0,
                   transport.replies, transport.sent, transport.headers);
        return;
      }
      ghost var sent1 := transport.sent;
      var profile := ExchangeTicket(ticket.value);
      loggedIn := profile.Ok?;
      err := if profile.Err? then Some(profile.failure) else None;
      assert RunLogin(config, csrf, replies0) == Handshake(err, 2, csrf, ticket.value);
      RanTwoSteps(RunLogin(config, csrf, replies0), LoginHeaders(config), replies0, sent0, sent1,
                  transport.replies, transport.sent, transport.headers);
    }

    /** The sign-in GET, sent with the browser headers only, and the CSRF token scraped from its page. */
    method SignInPage() returns (csrf: Result<string>)
      modifies transport`headers, transport`replies, transport`sent
      ensures csrf == CsrfStep(NextReply(old(transport.replies)))
      ensures transport.headers == BrowserHeaders()
      ensures transport.replies == AfterReply(old(transport.replies))
      ensures |transport.sent| == |old(transport.sent)| + 1 && transport.sent[..|old(transport.sent)|] == old(transport.sent)
      ensures transport.sent[|old(transport.sent)|].call
              == Call(BrowserHeaders(), MethodGet, SigninUri(config), Some(SigninParams(config)), None, None, false)
    {
      var uri := config.ssoPrefix + "/sso/signin";
      transport.SetHeaders(BrowserHeaders());
      var page := transport.Get(uri, Some(SigninParams(config)));
      if page.Err? {
        return Err(page.failure);
      }
      csrf := ExtractCSRFToken(page.value);
    }

    /**
     * The login POST: the form with the credentials and `csrf`, sent with
     * Origin and Referer added to the browser headers, and the ticket URL
     * found in its reply.
     */
    method LogIn(csrf: string) returns (ticket: Result<string>)
      modifies transport`headers, transport`replies, transport`sent
      ensures ticket == TicketStep(NextReply(old(transport.replies)), config.apiHost)
      ensures transport.headers == LoginHeaders(config)
      ensures transport.replies == AfterReply(old(transport.replies))
      ensures |transport.sent| == |old(transport.sent)| + 1 && transport.sent[..|old(transport.sent)|] == old(transport.sent)
      ensures transport.sent[|old(transport.sent)|].call
              == Call(LoginHeaders(config), MethodPost, SigninUri(config), Some(SigninParams(config)),
                      Some(LoginForm(config, csrf)), None, false)
    {
      var uri := config.ssoPrefix + "/sso/signin";
      var headers := BrowserHeaders();
      headers := headers["Origin" := config.ssoPrefix];
      headers := headers["Referer" := uri + "?" + SigninQuery(config)];
      transport.SetHeaders(headers);
      var login := transport.Post(uri, Some(SigninParams(config)), LoginForm(config, csrf), None, false);
      if login.Err? {
        return Err(login.failure);
      }
      ticket := ExtractTicketUrl(login.value, config.apiHost);
    }

    /** The ticket GET, whose error is dropped, and the social profile scraped from what it read. */
    method ExchangeTicket(ticketUrl: string) returns (profile: Result<string>)
      modifies transport`replies, transport`sent
      ensures profile == ProfileStep(NextReply(old(transport.replies)))
      ensures transport.replies == AfterReply(old(transport.replies))
      ensures |transport.sent| == |old(transport.sent)| + 1 && transport.sent[..|old(transport.sent)|] == old(transport.sent)
      ensures transport.sent[|old(transport.sent)|].call == Call(transport.headers, MethodGet, ticketUrl, None, None, None, false)
    {
      var exchange := transport.Get(ticketUrl, None);
      var text := if exchange.Ok? then exchange.value else "";
      profile := ExtractSocialProfile(text);
    }

    /**
     * `DownloadActivity`: fetches the archive of activity `id` and returns its
     * first file. The fetch's error is dropped: a failed fetch hands an empty
     * body to the archive reader `unzip`, whose error is then returned.
     */
    method DownloadActivity(id: int, unzip: string -> Result<seq<ZipEntry>>) returns (r: Result<Download>)
      modifies transport`replies, transport`sent
      ensures var fetched := ReadBytes(NextReply(old(transport.replies)));
        r == FirstEntry(unzip(if fetched.Ok? then fetched.value else ""))
      ensures transport.replies == AfterReply(old(transport.replies))
      ensures |transport.sent| == |old(transport.sent)| + 1 && transport.sent[..|old(transport.sent)|] == old(transport.sent)
      ensures transport.sent[|old(transport.sent)|].call
              == Call(transport.headers, MethodGet, DownloadUrl(config, id), None, None, None, false)
    {
      var uri := config.apiPrefix + "/modern/proxy/download-service/files/activity/" + FormatInt(id);
      var content := transport.GetFile(uri, None);
      var bytes := if content.Ok? then content.value else "";
      var archive := unzip(bytes);
      if archive.Err? {
        return Err(archive.failure);
      }
      var entries := archive.value;
      for i := 0 to |entries|
        invariant i == 0
      {
        var entry := entries[i];
        if entry.file.Err? {
          return Err(entry.file.failure);
        }
        return Ok(Download(entry.name, entry.file.value));
      }
      return Err(Error("not file in zip file"));
    }

    /**
     * `UploadActivity`: adds the upload headers to the table, then uploads
     * `file` as the multipart field "file" named `fileName`. Only the reply's
     * error is kept.
     */
    method UploadActivity(fileName: string, file: Result<string>, boundary: string) returns (err: Option<Failure>)
      modifies transport`headers, transport`replies, transport`sent
      ensures file.Err? ==>
        && err == Some(file.failure)
        && transport.headers == Overlay(old(transport.headers), UploadHeaders(config))
        && transport.replies == old(transport.replies) && transport.sent == old(transport.sent)
      ensures file.Ok? ==>
        var text := ReadText(NextReply(old(transport.replies)));
        && err == (if text.Ok? then None else Some(text.failure))
        && transport.headers
             == Overlay(old(transport.headers), UploadHeaders(config))[ContentType := "multipart/form-data; boundary=" + boundary]
        && transport.replies == AfterReply(old(transport.replies))
        && |transport.sent| == |old(transport.sent)| + 1 && transport.sent[..|old(transport.sent)|] == old(transport.sent)
        && transport.sent[|old(transport.sent)|].call
             == Call(transport.headers, MethodPost, UploadUrl(config), None, None,
                     Some(Multipart(boundary, "file", fileName, file.value, map[])), false)
    {
      var uri := config.apiPrefix + "/modern/proxy/upload-service/upload/.fit";
      transport.UpdateHeaders(UploadHeaders(config));
      var resp := transport.UploadFile(uri, None, "file", fileName, file, boundary);
      if resp.Err? {
        return Some(resp.failure);
      }
      return None;
    }

    /** `GetActivityList`: the activities from `start` on, at most `limit` of them, decoded from the JSON reply by `decode`. */
    method GetActivityList(start: int, limit: int, decode: string -> Result<seq<ActivityListItem>>)
      returns (r: Result<seq<ActivityListItem>>)
      modifies transport`replies, transport`sent
      ensures var text := ReadText(NextReply(old(transport.replies)));
        r == if text.Ok? then decode(text.value) else Err(text.failure)
      ensures transport.replies == AfterReply(old(transport.replies))
      ensures |transport.sent| == |old(transport.sent)| + 1 && transport.sent[..|old(transport.sent)|] == old(transport.sent)
      ensures transport.sent[|old(transport.sent)|].call
              == Call(transport.headers, MethodGet, ListUrl(config), Some(ListParams(start, limit)), None, None, true)
    {
      var uri := config.apiPrefix + "/proxy/activitylist-service/activities/search/activities";
      r := transport.GetJson(uri, Some(ListParams(start, limit)), decode);
    }
  }
}
