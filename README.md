# garmin-intl2cn in Dafny

A model of the core of garmin-intl2cn. The program copies the latest activities of a
Garmin Connect international account into a Garmin Connect China (CN) account. It signs
in to both accounts and fetches the latest 3 international and 10 CN activities. Every
international activity that no CN activity "equals" is downloaded as a zip archive, and
the archive's first file is uploaded to the CN account. The run ends with a verdict and
a one-line summary of the ids that were copied, that failed, and that were skipped.

The model has eight modules, one per file:

| file | module | what it holds |
|---|---|---|
| `common.dfy` | `Common` | `Option`, `Result`, and `Failure`. A Go `error` is `Error(message)`. A run-time panic is `Panic(reason)`. |
| `text.dfy` | `Text` | The parts of `strings`, `strconv` and `fmt` the core uses: `strings.Index`, `strconv.Itoa`, and `%v` on an `[]int64`. |
| `activity.dfy` | `Activity` | `ActivityListItem` and its permissive `Equals` rule. |
| `extract.dfy` | `Extract` | The two marker-and-slice scrapers: the CSRF token and the social profile. |
| `ticket.dfy` | `Ticket` | A hand-written matcher for the single ticket-URL regular expression, the leftmost-match search, and the un-escaping of `\/`. |
| `transport.dfy` | `Transport` | The `CookieRequest` class, described below. |
| `client.dfy` | `Garmin` | The `Client` class, described below. |
| `sync.dfy` | `Sync` | `SynchronizeLatestActivities`, described below. |

**`CookieRequest`** holds a mutable header table. Each request is shaped from it:
- the query is merged;
- the body is chosen;
- header keys are canonicalised;
- the Content-type rule is applied.

The reply is then read, with the 200/201 status rule. The network is an oracle: a queue
of replies, one consumed per request. The class keeps a log of every request handed to
the network, together with the call that made it.

**`Client`** holds:
- the settings that the `Credentials` and `SetEnv` options write;
- its transport;
- the `loggedIn` flag.

`Auth` runs a three-step sign-in handshake:
1. the sign-in page, from which the CSRF token is scraped;
2. the login POST, whose reply must contain a ticket URL;
3. the ticket exchange, whose page must contain the social profile.

The handshake is specified by a function over the replies the network will give.
`DownloadActivity`, `UploadActivity` and `GetActivityList` are also in the class.

**`SynchronizeLatestActivities`** fetches both lists and collapses the two-goroutine
fan-in to a join of two results. Then comes the transfer loop. It is proved against a
plan computed from the fetched lists and the replies the two accounts will give. Last
come the success rule and the summary string.

Zip and JSON decoding are parameters of the model (`unzip`, `decode`). The multipart
boundary, which Go picks at random, is also a parameter.

## Model

| member | source | states |
|---|---|---|
| Activity.EqualsOnValues | garmin/activityListItem.go:20-31 | On item values, `Equals` holds exactly when the ids, the UTC start times or the local start times agree. |
| Activity.DifferentEverywhereNotEqual | garmin/activityListItem.go:20-31 | Items that differ in id, UTC start time and local start time are never equal. |
| Activity.NameIrrelevant | garmin/activityListItem.go:3-31 | Renaming either item never changes the answer. |
| Activity.EqualsReflexive | garmin/activityListItem.go:20-22 | Every item equals a copy of itself. |
| Activity.EqualsSymmetric | garmin/activityListItem.go:20-31 | On values the rule is symmetric, wherever the two items live. |
| Activity.EqualsNotTransitive | garmin/activityListItem.go:20-31 | There are three concrete items where a~b by id, b~c by local time, and yet a and c are not equal. |
| Activity.EmptyGmtMatchesAnything | garmin/activityListItem.go:24-26 | Two items whose UTC start times are both empty are equal, whatever their ids. |
| Activity.EqualsOnNonValues | garmin/activityListItem.go:11-18 | An argument that is not an item value is equal only when it is the receiver's own pointer. |
| Text.IndexOf | garmin/client.go:225 | `strings.Index` gives -1 exactly when the pattern occurs nowhere. Otherwise it gives an occurrence with none before it. |
| Text.DecimalNatRoundTrip | util/request.go:142 | The decimal numeral of a natural is all digits, has no leading zero, and reads back as the number. |
| Text.FormatIntRoundTrip | util/request.go:142 | `strconv.Itoa` followed by parsing gives back the integer, so distinct codes print differently. |
| Text.FormatIntSlice | sync/sync.go:115-117 | `%v` of a slice is bracketed, and it is `[]` exactly for the empty slice. |
| Text.JoinIntsInjective | sync/sync.go:115-117 | Two id lists whose space-joined numerals are equal are the same list. |
| Text.FormatIntSliceInjective | sync/sync.go:115-117 | Two lists print the same under `%v` exactly when they are equal. |
| Extract.BetweenCases | garmin/client.go:225-235 | Marker slicing has four outcomes. Missing: exactly when the opening marker is absent. Unterminated: exactly when no closing marker follows its first occurrence. Inverted: a closing marker starts inside the opening one, at the slice's inverted end, with none before it. Otherwise Found: the text between the first opening marker and the first closing marker after it, which holds no closing marker. |
| Extract.BetweenOverlap | garmin/client.go:225-235 | Which of the last two outcomes occurs. Found: exactly when a closing marker follows the first opening marker and none begins inside it. Inverted: exactly when one begins inside it. |
| Extract.CsrfTokenCases | garmin/client.go:223-236 | The CSRF scraper gives "CSRF token not found" exactly when the fragment is absent. It gives "invalid CSRF token end" exactly when no `" />` follows it. It panics exactly when a `" />` begins inside the fragment. It returns a token exactly when none does and one follows it; the token is followed by `" />` right after the fragment and contains no `" />`. |
| Extract.CsrfTokenFound | garmin/client.go:229-235 | A found token sits right after the fragment and is followed by `" />`. |
| Extract.CsrfOverlapPanics | garmin/client.go:229-234 | For the body fragment + ` />`, the end marker overlaps the fragment's quote, the slice bounds invert, and the scraper panics. |
| Extract.SocialProfileCases | garmin/client.go:257-271 | Same not-found and invalid-end iffs for the profile markers. It returns a profile exactly when a `");` follows the assignment and none begins inside it. A successful result is the sliced text with its backslashes deleted, and it holds no backslash. |
| Extract.StripBackslashesDeletes | garmin/client.go:269 | `strings.Replace(s, "\\", "", -1)` leaves no backslash and keeps every other character as often as it occurred. |
| Extract.StripBackslashesIdentity | garmin/client.go:269 | Text without a backslash is left unchanged. |
| Extract.StripBackslashesConcat | garmin/client.go:269 | Deletion works piece by piece, so the kept characters stay in their order. |
| Ticket.RunEnd | garmin/client.go:239 | The final star is greedy: the run of `[a-zA-Z0-9-]` characters cannot be extended. |
| Ticket.MatchAtShape | garmin/client.go:239 | Every match has the pattern's shape: `https:\/\/`, the host with `.` as a wildcard, `\/modern`, an optional `\/`, `?ticket=`, and a maximal ticket run. |
| Ticket.ShapeMatches | garmin/client.go:239-241 | The converse of `MatchAtShape`: wherever the text has the pattern's shape and the ticket run cannot be extended, the pattern matches there and ends there. |
| Ticket.FindFrom | garmin/client.go:241 | `FindString` takes the leftmost match. It is none exactly when no position matches. |
| Ticket.UnescapePlain | garmin/client.go:244 | Un-escaping text without a backslash changes nothing. |
| Ticket.UnescapeConcat | garmin/client.go:244 | Un-escaping distributes over a concatenation whose left part does not end in a backslash. |
| Ticket.UnescapeScheme | garmin/client.go:244 | `https:\/\/` un-escapes to `https://`. |
| Ticket.TicketUrlCases | garmin/client.go:238-255 | The scraper fails, always with "wrong credentials", exactly when the pattern matches nowhere. Otherwise it returns `https://`, then anything, then `?ticket=` followed only by letters, digits and hyphens. |
| Ticket.ShapedBodyGivesUrl | garmin/client.go:238-255 | A body holding the pattern's shape, with a maximal ticket run, yields a ticket URL rather than "wrong credentials". |
| Ticket.MatchedUrlShape | garmin/client.go:239-244 | The leftmost match, once un-escaped, is a ticket URL. |
| Ticket.UnescapedShape | garmin/client.go:239-244 | Any text of the pattern's shape un-escapes to a ticket URL. |
| Transport.CanonicalKeyIdempotent | util/request.go:203-207 | Canonicalising a canonical header key changes nothing. |
| Transport.RecaseIdempotent | util/request.go:203-207 | Re-casing a token key keeps it a token and is idempotent. |
| Transport.RecaseKeepsHyphens | util/request.go:203-207 | Re-casing keeps token characters and keeps hyphens exactly where they were. |
| Transport.ContentTypeSpellings | util/request.go:209-212 | `Content-type` and `Content-Type` are one header entry. |
| Transport.CopiedHeaderUnique | util/request.go:203-207 | A table key that shares its canonical form with no other key keeps its value in the request. |
| Transport.ContentTypeOutcomes | util/request.go:209-213 | `sendJson` forces `application/json`. A POST without a Content-type gets the form type. A POST that has one keeps it. A GET is never given one. |
| Transport.MergeQuery | util/request.go:195-201 | Each parameter's key ends with exactly its value. Every other key of the existing query keeps its values. |
| Transport.ReadText | util/request.go:135-155 | A body comes back exactly for a readable 200 or 201 response. Any other status gives "invalid status code: N". |
| Transport.ReadBytes | util/request.go:81-96 | `GetFile` returns the body of any readable response, whatever its status. |
| Transport.StatusErrorNamesCode | util/request.go:140-143 | The status error's text is the prefix followed by the code, which reads back exactly. |
| Transport.CopyHeader | util/request.go:203-207 | Copying the table in any key order gives one entry per canonical key, each holding the value of one table key with that canonical form. |
| Transport.Overlay | util/request.go:129-133 | An overlay has the union of the keys, the new values for the given keys, and the old values for all others. |
| Transport.CookieRequest.constructor | util/request.go:36-53 | A new transport has an empty header table and has sent nothing. |
| Transport.CookieRequest.SetHeaders | util/request.go:125-127 | The whole header table is replaced. |
| Transport.CookieRequest.UpdateHeaders | util/request.go:129-133 | Every given key is set, every other key is kept, and none is removed. |
| Transport.CookieRequest.Request | util/request.go:157-217 | It consumes one reply and logs one request. The logged request has the call's method and URL, the query rebuilt only when there are parameters, the raw body taking precedence over data, and the copied header with the Content-type rule. |
| Transport.CookieRequest.RequestText | util/request.go:135-155 | The reply is read with the 200/201 rule, and the request is logged as `Request` logs it. |
| Transport.CookieRequest.Get | util/request.go:55-57 | A GET with no body, not sent as JSON. |
| Transport.CookieRequest.GetJson | util/request.go:59-66 | A JSON GET. An accepted body is decoded; a status or read error is returned instead. |
| Transport.CookieRequest.Post | util/request.go:68-70 | A POST whose data is always present. |
| Transport.CookieRequest.PostJson | util/request.go:72-79 | A POST whose accepted body is decoded. |
| Transport.CookieRequest.GetFile | util/request.go:81-96 | A GET whose body is returned without the status check. |
| Transport.CookieRequest.UploadFile | util/request.go:98-123 | An unreadable file fails before anything changes. Otherwise the multipart Content-Type is written into the stored header table and the multipart body is posted. |
| Garmin.ApplyAllLastWins | garmin/client.go:43-73 | The last `Credentials` and the last `SetEnv` win. `ApiPrefix` is `https://` + host. Fields that no option sets keep their values. |
| Garmin.ApplyAllAppend | garmin/client.go:69-73 | Two `SetOptions` calls act as one call with both lists, in order. |
| Garmin.EscapeChar | garmin/client.go:119-123 | A character is kept exactly when it is unreserved. Its escape contains only unreserved characters, `%` and `+`. |
| Garmin.QueryEscape | garmin/client.go:119-123 | An escaped value contains no `&`, `=` or `#`. |
| Garmin.QueryEscapePlain | garmin/client.go:119-123 | A value of unreserved characters is its own escape. |
| Garmin.BelowPastPrefix | garmin/client.go:119-123 | Strings sharing a prefix compare as their remainders do. |
| Garmin.SigninKeysSorted | garmin/client.go:119-123 | The Referer query's keys are in strictly increasing byte order, as `Values.Encode` writes them. |
| Garmin.SigninKeysMatchParams | garmin/client.go:85-92 | The Referer query lists exactly the sign-in parameters' keys, each once. |
| Garmin.SigninQueryEncodes | garmin/client.go:85-123 | The Referer query written into the login headers is `url.Values.Encode` of the sign-in parameters: each key and value escaped, in sorted key order, joined by `=` and `&`. |
| Garmin.RunHandshake | garmin/client.go:94-150 | The handshake sends between one and three requests, and all three when it succeeds. |
| Garmin.RunLogin | garmin/client.go:112-150 | Once the CSRF token is known, the handshake sends one or two more requests, two when it succeeds. |
| Garmin.ExchangeErrorDiscarded | garmin/client.go:138-143 | A ticket exchange whose reply is not read fails as "social profile not found". |
| Garmin.HandshakeNeeds | garmin/client.go:100-150 | A successful handshake had three accepted replies. The first holds the CSRF fragment, the second a ticket match for the client's host, and the third the social-profile marker. |
| Garmin.HandshakeSucceeds | garmin/client.go:94-150 | The converse of HandshakeNeeds: three accepted replies make the handshake succeed when the first holds a CSRF token the scraper takes, the second the ticket pattern's shape for the client's host, and the third a social profile the scraper takes. |
| Garmin.FirstEntryOnly | garmin/client.go:189-198 | Only the first archive entry matters. The download is named after it and carries its content, or its open error. |
| Garmin.DownloadIgnoresStatus | garmin/client.go:182 | The archive bytes are the same whatever the reply's status. |
| Garmin.Client.constructor | garmin/client.go:58-67 | `NewClient` applies the options in order to empty fields, with `loggedIn` false and a fresh transport. |
| Garmin.Client.SetOptions | garmin/client.go:69-73 | The options run in order over the current settings. |
| Garmin.Client.Auth | garmin/client.go:75-151 | With `reLogin`, the flag is cleared first. A logged-in client returns nil and sends nothing. Otherwise the result is the handshake's outcome: its error, the flag set exactly on success, its requests consumed and logged, and the header table it leaves. |
| Garmin.Client.SignIn | garmin/client.go:94-151 | The three steps against the oracle equal `RunHandshake`. |
| Garmin.Client.LogInAndExchange | garmin/client.go:112-150 | The login and exchange steps equal `RunLogin`, and the flag is set exactly when the profile was found. |
| Garmin.Client.SignInPage | garmin/client.go:94-107 | The sign-in GET is sent with the browser headers only and the sign-in parameters, and the CSRF token is scraped from its reply. |
| Garmin.Client.LogIn | garmin/client.go:112-133 | The login POST carries the form and the parameters, with Origin and Referer added to the browser headers, and the ticket URL is found in its reply. |
| Garmin.Client.ExchangeTicket | garmin/client.go:138-143 | The ticket GET's error is dropped, and the profile is scraped from what was read, or from "". |
| Garmin.Client.DownloadActivity | garmin/client.go:179-199 | It returns the first entry of the archive decoded from the body. A failed fetch hands an empty body to the decoder. |
| Garmin.Client.UploadActivity | garmin/client.go:201-221 | The upload headers are added to the table and the file is posted as the multipart field `file`. Only the reply's error is kept. |
| Garmin.Client.GetActivityList | garmin/client.go:164-177 | A JSON GET of the search URL with `start` and `limit`, decoded. |
| Sync.FetchNeedsHandshake | sync/sync.go:120-136 | A fetched list means the handshake succeeded and the list request was accepted. An error comes from one of the two. |
| Sync.FetchList | sync/sync.go:120-136 | `Auth(false)` then the list from offset 0 with the given limit. At most four requests are sent, and a fetched list comes from the last of them. A logged-in client keeps its flag and headers. Otherwise the flag ends as the handshake's success, and the headers are the browser headers after a failed first step (the sign-in page unread or without a CSRF token) and the login headers otherwise. |
| Sync.FetchBoth | sync/sync.go:34-64 | Both lists are fetched by fresh clients and joined. On success each account used its handshake's three replies and one list reply, sent exactly four requests, the fourth for 3 (international) or 10 (CN) activities from offset 0, and the international client holds the login headers. On failure neither sent more than four. |
| Sync.JoinCases | sync/sync.go:49-65 | The fan-in succeeds exactly when both fetches do. Otherwise it reports one of their errors, the only one when just one failed. |
| Sync.Plan | sync/sync.go:71-102 | There is exactly one transfer per international activity. |
| Sync.PlanSkipsExactlyMatched | sync/sync.go:71-102 | An activity is skipped exactly when some CN activity `Equals` it. |
| Sync.BucketsPartition | sync/sync.go:67-102 | Each id lands in exactly one of the three lists: as multisets they add up to the ids, and their lengths sum to the list's length. |
| Sync.IdsInConcat | sync/sync.go:67-102 | Each list keeps the international list's order. |
| Sync.IdsInEmpty | sync/sync.go:67-102 | A list is empty exactly when no transfer ends in it. |
| Sync.FindMatch | sync/sync.go:72-78 | The inner loop finds a match exactly when some CN activity `Equals` the item. |
| Sync.TransferOne | sync/sync.go:72-101 | The transfer is the plan's step for the item. A matched item is skipped and sends nothing. Otherwise a GET of the activity's archive URL with the international header table is logged and uses one reply. Only a downloaded file is uploaded: a POST to the upload URL whose multipart body is field `file` with that file's name and content, sent with the upload headers and the multipart Content-Type, using one CN reply. Earlier requests are kept. |
| Sync.DiffPass | sync/sync.go:71-101 | One pass of the loop keeps the loop invariant: the item's transfer moves from the rest of the plan to the done part, its id is appended to its bucket's list, and the logs gain its download and upload requests. |
| Sync.DiffAdvance | sync/sync.go:71-101 | A transfer as `TransferOne` describes it, with the list update of its bucket, advances the loop invariant by that transfer. |
| Sync.Diff | sync/sync.go:67-102 | The three lists are the plan's buckets in order. The international log gained exactly one archive GET per attempted id, in order, with the download URL of that id. The CN log gained exactly one upload POST per downloaded file, in order, carrying that file. Earlier requests are kept. |
| Sync.SuccessRule | sync/sync.go:111-114 | The run fails exactly when no transfer uploaded and at least one transfer failed. |
| Sync.SentenceExamples | sync/sync.go:115-117 | `id[%v] <outcome>.` gives `id[[1 2]] succeeded.`, `id[[]] failed.` and `id[[3]] skipped.` for the example lists. |
| Sync.SentenceSplit | sync/sync.go:115-117 | A sentence for one outcome is read back from the front of a text: equal texts give equal ids and equal remainders. |
| Sync.SummaryInjective | sync/sync.go:115-117 | Two summaries are equal exactly when the succeeded, failed and skipped lists are equal, so the summary names each list in order. |
| Sync.SummaryExample | sync/sync.go:115-117 | The summary for [1 2], [] and [3] is `id[[1 2]] succeeded. id[[]] failed. id[[3]] skipped.`. |
| Sync.SyncClients | sync/sync.go:34-118 | With both clients built: a failed fetch gives `(false, "", err)` and at most four requests per account. Otherwise the error is nil, the verdict and summary are those of the plan, and after its first four requests the international account received one archive GET per attempted id with the login headers, and the CN account one upload POST per downloaded file. |
| Sync.Synchronize | sync/sync.go:24-118 | The same, for clients built from the two users' credentials and the two environments: the outcome is stated through the fetch results for those settings, and the two request logs are returned. |

## Left out

- Goroutines and channels: the fan-in is the `Join` of two results. When both fetches fail, the error that wins the race is the `intlFirst` parameter.
- The deferred `close` of both channels: after an early return, the slower goroutine sends on a closed channel and panics. That is not modelled.
- The HTTP client, cookie jar, TLS pinning and 30-second timeout: the network is a queue of replies. An exhausted queue answers with a network error.
- `http.NewRequest` failing on a malformed URL is not modelled, and neither is `json.Marshal` failing. `Request` always builds a request.
- Encodings: `url.Values.Encode` of the form and query, `json.Marshal`, and the multipart writer's bytes are symbolic values (`Payload`, `Blob`, `Target`).
- `url.Values.Encode` is modelled for one value per key with the keys given in sorted order (`EncodeQuery`). Sorting arbitrary keys is not modelled; the sign-in keys are proved sorted.
- `url.ParseQuery` is modelled without percent-decoding.
- `zip.NewReader` and `json.Unmarshal` are the parameters `unzip` and `decode`.
- The synchronisation always hands `UploadFile` a readable archive entry. `UploadFile` itself models a failed read (its `file` parameter is a `Result`), but `TransferOne` always passes an `Ok` one: a failing `io.Copy` from an opened entry is not modelled.
- `CreateFormFile` and `writer.Close` are taken to succeed, since they write into a memory buffer.
- The multipart boundary is one parameter shared by every upload of a run.
- `GetActivity` (garmin/client.go:153-162) is not used by the synchronisation and is not modelled.
- Logging through logrus is not modelled.
- A nil header table (the `c.headers != nil` test) is not modelled. No caller ever installs one.
- Aliasing between `Auth`'s local header map and the stored table is not modelled. `Auth` installs each table before sending, so that aliasing never changes a request.
- Strings are sequences of characters, not bytes. Every marker and pattern is ASCII.
- The ticket pattern treats only `.` in the host as a metacharacter. Both hosts are letters and dots.
- A Go run-time panic is the value `Panic(reason)`, which propagates as an error would.
- Activity ids are unbounded integers rather than `int64`. Nothing adds to or multiplies them.
- Sync.Synchronize: the clients are created inside the method, so their final request logs are returned as ghost results rather than as fields. The list request's parameters are stated by `FetchBoth`, not restated here.
- Garmin.Client.Auth: states the number of requests, the replies consumed and the final header table. The content of each request is stated by `SignInPage`, `LogIn` and `ExchangeTicket`, not by `Auth`.
