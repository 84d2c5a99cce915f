/**
 * `SynchronizeLatestActivities`: log in to both accounts, fetch the latest
 * international activities and the latest CN activities, copy every
 * international activity the CN account does not already hold, and report
 * which ids were copied, which failed and which were skipped.
 */
module Sync {

  import opened Common
  import opened Text
  import opened Activity
  import opened Transport
  import opened Garmin

  /** How many international activities are fetched, from offset 0. */
  const IntlLimit: int := 3
  /** How many CN activities are fetched, from offset 0. */
  const CnLimit: int := 10

  // ---------------------------------------------------------------------------
  // Fetching both lists

  /** The list request `GetActivityList` makes once logged in: the decoded reply, or the read error. */
  function ListResult(reply: Reply, decode: string -> Result<seq<ActivityListItem>>): Result<seq<ActivityListItem>> {
    var text := ReadText(reply);
    if text.Ok? then decode(text.value) else Err(text.failure)
  }

  /**
   * What `getActivityList` gives for a client that is not logged in: the
   * handshake's error, or the list fetched with the fourth reply.
   */
  function FetchOutcome(s: Settings, replies: seq<Reply>, decode: string -> Result<seq<ActivityListItem>>)
    : Result<seq<ActivityListItem>>
  {
    var h := RunHandshake(s, replies);
    if h.err.Some? then Err(h.err.value) else ListResult(NextReply(Drop(replies, 3)), decode)
  }

  /**
   * A fetched list means the handshake passed all three of its steps, each of
   * its three replies and the list reply accepted, and the list decoded from
   * the fourth reply's body; an error is the handshake's error or the list
   * request's.
   */
  lemma FetchNeedsHandshake(s: Settings, replies: seq<Reply>, decode: string -> Result<seq<ActivityListItem>>)
    ensures FetchOutcome(s, replies, decode).Ok? ==>
      && RunHandshake(s, replies).err.None?
      && AcceptedReply(NextReply(replies))
      && AcceptedReply(NextReply(AfterReply(replies)))
      && AcceptedReply(NextReply(AfterReply(AfterReply(replies))))
      && AcceptedReply(NextReply(Drop(replies, 3)))
      && FetchOutcome(s, replies, decode) == decode(NextReply(Drop(replies, 3)).body)
    ensures FetchOutcome(s, replies, decode).Err? ==>
      RunHandshake(s, replies).err == Some(FetchOutcome(s, replies, decode).failure)
      || (RunHandshake(s, replies).err.None? && ListResult(NextReply(Drop(replies, 3)), decode).Err?)
  {
    if FetchOutcome(s, replies, decode).Ok? {
      HandshakeNeeds(s, replies);
    }
  }

  /** A reply that `requestText` reads: a response with status 200 or 201. */
  predicate AcceptedReply(reply: Reply) {
    reply.Response? && Accepted(reply.status)
  }

  /**
   * `getActivityList`: `Auth(false)`, then the list from offset 0 with at most
   * `limit` entries. A client already logged in goes straight to the list.
   */
  method FetchList(client: Client, limit: int, decode: string -> Result<seq<ActivityListItem>>)
    returns (r: Result<seq<ActivityListItem>>)
    modifies client`loggedIn, client.transport`headers, client.transport`replies, client.transport`sent
    ensures old(client.loggedIn) ==>
      && r == ListResult(NextReply(old(client.transport.replies)), decode)
      && client.transport.replies == AfterReply(old(client.transport.replies))
    ensures old(client.loggedIn) ==> client.loggedIn && client.transport.headers == old(client.transport.headers)
    ensures !old(client.loggedIn) ==>
      var h := RunHandshake(client.config, old(client.transport.replies));
      && client.loggedIn == h.err.None?
      && client.transport.headers == (if h.requests == 1 then BrowserHeaders() else LoginHeaders(client.config))
    ensures !old(client.loggedIn) ==>
      && r == FetchOutcome(client.config, old(client.transport.replies), decode)
      && (r.Ok? ==> client.transport.replies == AfterReply(Drop(old(client.transport.replies), 3)))
    ensures |client.transport.sent| <= |old(client.transport.sent)| + (if old(client.loggedIn) then 1 else 4)
    ensures r.Ok? ==>
      && |client.transport.sent| == |old(client.transport.sent)| + (if old(client.loggedIn) then 1 else 4)
      && client.transport.sent[|client.transport.sent| - 1].call.params == Some(ListParams(0, limit))
  {
    var err := client.Auth(false);
    if err.Some? {
      return Err(err.value);
    }
    r := client.GetActivityList(0, limit, decode);
  }

  /**
   * The fan-in of the two fetches: both lists, or an error. When both fetches
   * fail, the error that reaches the channel first wins; `intlFirst` stands
   * for that race.
   */
  function Join(intl: Result<seq<ActivityListItem>>, cn: Result<seq<ActivityListItem>>, intlFirst: bool)
    : Result<(seq<ActivityListItem>, seq<ActivityListItem>)>
  {
    if intl.Ok? && cn.Ok? then Ok((intl.value, cn.value))
    else if intl.Err? && (cn.Ok? || intlFirst) then Err(intl.failure)
    else Err(cn.failure)
  }

  /** The fan-in succeeds exactly when both fetches do, and otherwise reports one of their errors. */
  lemma JoinCases(intl: Result<seq<ActivityListItem>>, cn: Result<seq<ActivityListItem>>, intlFirst: bool)
    ensures var j := Join(intl, cn, intlFirst);
      && (j.Ok? <==> intl.Ok? && cn.Ok?)
      && (j.Ok? ==> j.value == (intl.value, cn.value))
      && (j.Err? ==> (intl.Err? && j.failure == intl.failure) || (cn.Err? && j.failure == cn.failure))
      && (intl.Err? && cn.Ok? ==> j == Err(intl.failure))
      && (intl.Ok? && cn.Err? ==> j == Err(cn.failure))
  {
  }

  // ---------------------------------------------------------------------------
  // The diff

  /** Some CN activity is `Equals` to `a`, compared as a value. */
  predicate Matched(a: ActivityListItem, cn: seq<ActivityListItem>) {
    exists j :: 0 <= j < |cn| && Equals(0, a, ItemValue(cn[j]))
  }

  /** What became of one international activity. */
  datatype Transfer =
    | Skipped
    | DownloadFailed(failure: Failure)
    | UploadFailed(file: Download, failure: Failure)
    | Uploaded(file: Download)

  /** The three lists the report names. */
  datatype Bucket = Succeeded | Failed | SkippedIds

  function BucketOf(t: Transfer): Bucket {
    match t
    case Skipped => SkippedIds
    case Uploaded(_) => Succeeded
    case _ => Failed
  }

  /** The file `DownloadActivity` makes of the reply `fetch`: the first entry of its archive. */
  function Fetched(fetch: Reply, unzip: string -> Result<seq<ZipEntry>>): Result<Download> {
    var fetched := ReadBytes(fetch);
    FirstEntry(unzip(if fetched.Ok? then fetched.value else ""))
  }

  /**
   * An unmatched activity: download its archive with the international
   * client's next reply, then upload the first file with the CN client's next
   * reply. A failed download sends no upload.
   */
  function Attempt(fetch: Reply, store: Reply, unzip: string -> Result<seq<ZipEntry>>): Transfer {
    var download := Fetched(fetch, unzip);
    if download.Err? then DownloadFailed(download.failure)
    else
      var text := ReadText(store);
      if text.Err? then UploadFailed(download.value, text.failure) else Uploaded(download.value)
  }

  /** What becomes of `act`: skipped when matched, attempted otherwise. */
  function Step(act: ActivityListItem, cn: seq<ActivityListItem>, intlReplies: seq<Reply>, cnReplies: seq<Reply>,
                unzip: string -> Result<seq<ZipEntry>>): Transfer
  {
    if Matched(act, cn) then Skipped else Attempt(NextReply(intlReplies), NextReply(cnReplies), unzip)
  }

  /** The international replies left after `t`: a download uses one. */
  function IntlAfter(t: Transfer, replies: seq<Reply>): seq<Reply> {
    if t.Skipped? then replies else AfterReply(replies)
  }

  /** The CN replies left after `t`: an upload uses one. */
  function CnAfter(t: Transfer, replies: seq<Reply>): seq<Reply> {
    if t.Skipped? || t.DownloadFailed? then replies else AfterReply(replies)
  }

  /**
   * The transfers of `acts`, in order, against the replies the two accounts
   * will give: a matched activity is skipped and uses no reply, an attempt
   * uses one international reply and, when the download worked, one CN reply.
   */
  function Plan(acts: seq<ActivityListItem>, cn: seq<ActivityListItem>, intlReplies: seq<Reply>,
                cnReplies: seq<Reply>, unzip: string -> Result<seq<ZipEntry>>): (ts: seq<Transfer>)
    ensures |ts| == |acts|
  {
    if acts == [] then []
    else
      var t := Step(acts[0], cn, intlReplies, cnReplies, unzip);
      [t] + Plan(acts[1..], cn, IntlAfter(t, intlReplies), CnAfter(t, cnReplies), unzip)
  }

  /** An activity is skipped exactly when some CN activity matches it; every other one is attempted. */
  lemma {:induction false} PlanSkipsExactlyMatched(acts: seq<ActivityListItem>, cn: seq<ActivityListItem>,
                                                  intlReplies: seq<Reply>, cnReplies: seq<Reply>,
                                                  unzip: string -> Result<seq<ZipEntry>>)
    ensures forall i :: 0 <= i < |acts| ==>
      (Plan(acts, cn, intlReplies, cnReplies, unzip)[i] == Skipped <==> Matched(acts[i], cn))
  {
    if acts != [] {
      var t := Step(acts[0], cn, intlReplies, cnReplies, unzip);
      PlanSkipsExactlyMatched(acts[1..], cn, IntlAfter(t, intlReplies), CnAfter(t, cnReplies), unzip);
      forall i | 1 <= i < |acts| ensures acts[i] == acts[1..][i - 1] { }
    }
  }

  /** The ids of the activities whose transfer ends in `b`, in list order. */
  function IdsIn(acts: seq<ActivityListItem>, ts: seq<Transfer>, b: Bucket): seq<int>
    requires |ts| == |acts|
  {
    if acts == [] then []
    else
      var n := |acts| - 1;
      IdsIn(acts[..n], ts[..n], b) + (if BucketOf(ts[n]) == b then [acts[n].activityId] else [])
  }

  /** All the ids of `acts`, in order. */
  function Ids(acts: seq<ActivityListItem>): seq<int> {
    if acts == [] then [] else Ids(acts[..|acts| - 1]) + [acts[|acts| - 1].activityId]
  }

  /** Every activity's id lands in exactly one of the three lists: together they are the ids of `acts`. */
  lemma {:induction false} BucketsPartition(acts: seq<ActivityListItem>, ts: seq<Transfer>)
    requires |ts| == |acts|
    ensures multiset(IdsIn(acts, ts, Succeeded)) + multiset(IdsIn(acts, ts, Failed)) + multiset(IdsIn(acts, ts, SkippedIds))
            == multiset(Ids(acts))
    ensures |IdsIn(acts, ts, Succeeded)| + |IdsIn(acts, ts, Failed)| + |IdsIn(acts, ts, SkippedIds)| == |acts|
  {
    if acts != [] {
      var n := |acts| - 1;
      BucketsPartition(acts[..n], ts[..n]);
    }
  }

  /**
   * The lists keep the order of the international list: the ids from an
   * earlier part of it come before those from a later part.
   */
  lemma {:induction false} IdsInConcat(a: seq<ActivityListItem>, b: seq<ActivityListItem>,
                                       ta: seq<Transfer>, tb: seq<Transfer>, k: Bucket)
    requires |ta| == |a| && |tb| == |b|
    ensures IdsIn(a + b, ta + tb, k) == IdsIn(a, ta, k) + IdsIn(b, tb, k)
  {
    if b == [] {
      assert a + b == a && ta + tb == ta;
    } else {
      var n := |b| - 1;
      IdsInConcat(a, b[..n], ta, tb[..n], k);
      assert (a + b)[..|a + b| - 1] == a + b[..n];
      assert (ta + tb)[..|ta + tb| - 1] == ta + tb[..n];
    }
  }

  /** A list is empty exactly when no transfer ends in its bucket. */
  lemma {:induction false} IdsInEmpty(acts: seq<ActivityListItem>, ts: seq<Transfer>, k: Bucket)
    requires |ts| == |acts|
    ensures IdsIn(acts, ts, k) == [] <==> forall i :: 0 <= i < |ts| ==> BucketOf(ts[i]) != k
  {
    if acts != [] {
      var n := |acts| - 1;
      IdsInEmpty(acts[..n], ts[..n], k);
      assert forall i :: 0 <= i < n ==> ts[..n][i] == ts[i];
    }
  }

  /** The ids of the activities a download request was sent for, in list order. */
  function Downloads(acts: seq<ActivityListItem>, ts: seq<Transfer>): seq<int>
    requires |ts| == |acts|
  {
    if acts == [] then []
    else
      var n := |acts| - 1;
      Downloads(acts[..n], ts[..n]) + (if ts[n].Skipped? then [] else [acts[n].activityId])
  }

  /** The files an upload request was sent with, in list order. */
  function UploadedFiles(ts: seq<Transfer>): seq<Download> {
    if ts == [] then []
    else
      var t := ts[|ts| - 1];
      UploadedFiles(ts[..|ts| - 1]) + (if t.Uploaded? || t.UploadFailed? then [t.file] else [])
  }

  /**
   * From position `from` on, `sent` holds exactly one download request per id
   * of `ids`, in order: a GET of that activity's archive with the header table `table`.
   */
  predicate DownloadsSent(sent: seq<Exchange>, from: nat, s: Settings, table: map<string, string>, ids: seq<int>) {
    && |sent| == from + |ids|
    && forall k :: 0 <= k < |ids| ==> sent[from + k].call == Call(table, MethodGet, DownloadUrl(s, ids[k]), None, None, None, false)
  }

  /** `c` is an upload request: a POST to the upload URL whose multipart body holds `file` as the field "file". */
  predicate IsUpload(c: Call, s: Settings, boundary: string, file: Download) {
    c.verb == MethodPost && c.url == UploadUrl(s) && c.rawBody == Some(Multipart(boundary, "file", file.name, file.content, map[]))
  }

  /** From position `from` on, `sent` holds exactly one upload request per file of `files`, in order. */
  predicate UploadsSent(sent: seq<Exchange>, from: nat, s: Settings, boundary: string, files: seq<Download>) {
    && |sent| == from + |files|
    && forall k :: 0 <= k < |files| ==> IsUpload(sent[from + k].call, s, boundary, files[k])
  }

  /** A log that keeps its first entries and gains a download request for `id` holds one more download. */
  lemma DownloadsSentGrow(sent: seq<Exchange>, sent': seq<Exchange>, from: nat, s: Settings, table: map<string, string>,
                          ids: seq<int>, id: int)
    requires DownloadsSent(sent, from, s, table, ids)
    requires |sent'| == |sent| + 1 && forall k :: 0 <= k < |sent| ==> sent'[k] == sent[k]
    requires sent'[|sent|].call == Call(table, MethodGet, DownloadUrl(s, id), None, None, None, false)
    ensures DownloadsSent(sent', from, s, table, ids + [id])
  {
    var ids' := ids + [id];
    forall k | 0 <= k < |ids'|
      ensures sent'[from + k].call == Call(table, MethodGet, DownloadUrl(s, ids'[k]), None, None, None, false)
    {
      if k < |ids| {
        assert ids'[k] == ids[k];
      }
    }
  }

  /** A log that keeps its first entries and gains an upload request for `file` holds one more upload. */
  lemma UploadsSentGrow(sent: seq<Exchange>, sent': seq<Exchange>, from: nat, s: Settings, boundary: string,
                        files: seq<Download>, file: Download)
    requires UploadsSent(sent, from, s, boundary, files)
    requires |sent'| == |sent| + 1 && forall k :: 0 <= k < |sent| ==> sent'[k] == sent[k]
    requires IsUpload(sent'[|sent|].call, s, boundary, file)
    ensures UploadsSent(sent', from, s, boundary, files + [file])
  {
    var files' := files + [file];
    forall k | 0 <= k < |files'| ensures IsUpload(sent'[from + k].call, s, boundary, files'[k]) {
      if k < |files| {
        assert files'[k] == files[k] && sent'[from + k] == sent[from + k];
      }
    }
  }

  /**
   * One pass of the transfer loop for `act`, seen from the two accounts: `t`
   * is the step the plan takes from the replies `intlReplies` and `cnReplies`;
   * each account used one reply per request; an attempt appended a GET of
   * the activity's archive to the international log, and a downloaded file
   * appended its upload to the CN log; nothing else was logged.
   */
  predicate Transferred(t: Transfer, act: ActivityListItem, cnActs: seq<ActivityListItem>,
                        unzip: string -> Result<seq<ZipEntry>>, boundary: string,
                        intlReplies: seq<Reply>, intlReplies': seq<Reply>, cnReplies: seq<Reply>, cnReplies': seq<Reply>,
                        intlSent: seq<Exchange>, intlSent': seq<Exchange>, cnSent: seq<Exchange>, cnSent': seq<Exchange>,
                        intlConfig: Settings, table: map<string, string>, cnConfig: Settings)
  {
    && t == Step(act, cnActs, intlReplies, cnReplies, unzip)
    && intlReplies' == IntlAfter(t, intlReplies) && cnReplies' == CnAfter(t, cnReplies)
    && |intlSent'| == |intlSent| + (if t.Skipped? then 0 else 1) && Keeps(intlSent, intlSent')
    && |cnSent'| == |cnSent| + (if t.Uploaded? || t.UploadFailed? then 1 else 0) && Keeps(cnSent, cnSent')
    && (!t.Skipped? ==>
          intlSent'[|intlSent|].call == Call(table, MethodGet, DownloadUrl(intlConfig, act.activityId), None, None, None, false))
    && (t.Uploaded? || t.UploadFailed? ==> IsUpload(cnSent'[|cnSent|].call, cnConfig, boundary, t.file))
  }

  /** `intlAct.Equals(cnAct)` over the CN list, stopping at the first match. */
  method FindMatch(a: ActivityListItem, cn: seq<ActivityListItem>) returns (found: bool)
    ensures found == Matched(a, cn)
  {
    found := false;
    var j := 0;
    while j < |cn| && !found
      invariant 0 <= j <= |cn|
      invariant found <==> exists jj :: 0 <= jj < j && Equals(0, a, ItemValue(cn[jj]))
    {
      if Equals(0, a, ItemValue(cn[j])) {
        found := true;
      }
      j := j + 1;
    }
  }

  /**
   * One pass of the transfer loop: skip `act` when a CN activity matches it;
   * otherwise download its archive with `intl` and, when that worked, upload
   * the archive's first file with `cn`. Each request uses its account's next
   * reply, and the downloaded file is the one the transfer records.
   */
  method TransferOne(intl: Client, cn: Client, act: ActivityListItem, cnActs: seq<ActivityListItem>,
                     unzip: string -> Result<seq<ZipEntry>>, boundary: string)
    returns (t: Transfer)
    requires intl.transport != cn.transport
    modifies intl.transport`replies, intl.transport`sent, cn.transport`headers, cn.transport`replies, cn.transport`sent
    ensures Transferred(t, act, cnActs, unzip, boundary,
                        old(intl.transport.replies), intl.transport.replies, old(cn.transport.replies), cn.transport.replies,
                        old(intl.transport.sent), intl.transport.sent, old(cn.transport.sent), cn.transport.sent,
                        intl.config, intl.transport.headers, cn.config)
    ensures t.Uploaded? || t.UploadFailed? ==>
      && cn.transport.sent[|old(cn.transport.sent)|].call
           == Call(cn.transport.headers, MethodPost, UploadUrl(cn.config), None, None,
                   Some(Multipart(boundary, "file", t.file.name, t.file.content, map[])), false)
      && cn.transport.headers
           == Overlay(old(cn.transport.headers), UploadHeaders(cn.config))[ContentType := "multipart/form-data; boundary=" + boundary]
    ensures !(t.Uploaded? || t.UploadFailed?) ==> cn.transport.headers == old(cn.transport.headers)
  {
    var found := FindMatch(act, cnActs);
    if found {
      return Skipped;
    }
    var download := intl.DownloadActivity(act.activityId, unzip);
    if download.Err? {
      return DownloadFailed(download.failure);
    }
    var err := cn.UploadActivity(download.value.name, Ok(download.value.content), boundary);
    if err.Some? {
      return UploadFailed(download.value, err.value);
    }
    return Uploaded(download.value);
  }

  /**
   * The transfer loop: every international activity is skipped, or downloaded
   * with `intl` and uploaded with `cn`, and its id appended to the matching
   * list. The lists are the plan's buckets; the international account
   * received one download request per attempted id, in order, and the CN
   * account one upload request per downloaded file, in order.
   */
  method Diff(intl: Client, cn: Client, acts: seq<ActivityListItem>, cnActs: seq<ActivityListItem>,
              unzip: string -> Result<seq<ZipEntry>>, boundary: string)
    returns (succeeded: seq<int>, failed: seq<int>, skipped: seq<int>)
    requires intl.transport != cn.transport
    modifies intl.transport`replies, intl.transport`sent, cn.transport`headers, cn.transport`replies, cn.transport`sent
    ensures var ts := Plan(acts, cnActs, old(intl.transport.replies), old(cn.transport.replies), unzip);
      && succeeded == IdsIn(acts, ts, Succeeded)
      && failed == IdsIn(acts, ts, Failed)
      && skipped == IdsIn(acts, ts, SkippedIds)
    ensures var ts := Plan(acts, cnActs, old(intl.transport.replies), old(cn.transport.replies), unzip);
      && DownloadsSent(intl.transport.sent, |old(intl.transport.sent)|, intl.config, intl.transport.headers, Downloads(acts, ts))
      && UploadsSent(cn.transport.sent, |old(cn.transport.sent)|, cn.config, boundary, UploadedFiles(ts))
    ensures Keeps(old(intl.transport.sent), intl.transport.sent) && Keeps(old(cn.transport.sent), cn.transport.sent)
  {
    ghost var plan := Plan(acts, cnActs, intl.transport.replies, cn.transport.replies, unzip);
    ghost var done: seq<Transfer> := [];
    succeeded, failed, skipped := [], [], [];
    for i := 0 to |acts|
      invariant |done| == i
      invariant DiffInv(acts, cnActs, unzip, boundary, plan, done, succeeded, failed, skipped,
                        intl.transport.replies, cn.transport.replies, old(intl.transport.sent), intl.transport.sent,
                        old(cn.transport.sent), cn.transport.sent, intl.config, intl.transport.headers, cn.config)
    {
      var t;
      succeeded, failed, skipped, t := DiffPass(intl, cn, acts, cnActs, unzip, boundary, i, succeeded, failed, skipped,
                                                plan, done, old(intl.transport.sent), old(cn.transport.sent));
      done := done + [t];
    }
    DiffDone(acts, cnActs, unzip, boundary, plan, done, succeeded, failed, skipped,
             intl.transport.replies, cn.transport.replies, old(intl.transport.sent), intl.transport.sent,
             old(cn.transport.sent), cn.transport.sent, intl.config, intl.transport.headers, cn.config);
  }

  /**
   * One pass of the loop in `Diff`: transfer the next activity, `acts[i]`,
   * and append its id to the list of the transfer's bucket; the loop's state
   * after `done` becomes its state after `done + [t]`.
   */
  method DiffPass(intl: Client, cn: Client, acts: seq<ActivityListItem>, cnActs: seq<ActivityListItem>,
                  unzip: string -> Result<seq<ZipEntry>>, boundary: string, i: nat,
                  succeeded: seq<int>, failed: seq<int>, skipped: seq<int>,
                  ghost plan: seq<Transfer>, ghost done: seq<Transfer>, ghost intlSent0: seq<Exchange>, ghost cnSent0: seq<Exchange>)
    returns (succeeded': seq<int>, failed': seq<int>, skipped': seq<int>, t: Transfer)
    requires intl.transport != cn.transport && i == |done| < |acts|
    requires DiffInv(acts, cnActs, unzip, boundary, plan, done, succeeded, failed, skipped,
                     intl.transport.replies, cn.transport.replies, intlSent0, intl.transport.sent,
                     cnSent0, cn.transport.sent, intl.config, intl.transport.headers, cn.config)
    modifies intl.transport`replies, intl.transport`sent, cn.transport`headers, cn.transport`replies, cn.transport`sent
    ensures DiffInv(acts, cnActs, unzip, boundary, plan, done + [t], succeeded', failed', skipped',
                    intl.transport.replies, cn.transport.replies, intlSent0, intl.transport.sent,
                    cnSent0, cn.transport.sent, intl.config, intl.transport.headers, cn.config)
  {
    ghost var intlReplies, cnReplies := intl.transport.replies, cn.transport.replies;
    ghost var intlSent, cnSent := intl.transport.sent, cn.transport.sent;
    var act := acts[i];
    t := TransferOne(intl, cn, act, cnActs, unzip, boundary);
    succeeded', failed', skipped' := succeeded, failed, skipped;
    match t {
      case Skipped => skipped' := skipped + [act.activityId];
      case Uploaded(_) => succeeded' := succeeded + [act.activityId];
      case _ => failed' := failed + [act.activityId];
    }
    DiffAdvance(acts, cnActs, unzip, boundary, plan, done, t, succeeded, failed, skipped, succeeded', failed', skipped',
                intlReplies, cnReplies, intl.transport.replies, cn.transport.replies,
                intlSent0, intlSent, intl.transport.sent, cnSent0, cnSent, cn.transport.sent,
                intl.config, intl.transport.headers, cn.config);
  }

  /** `sent` keeps the entries of `sent0` in place. */
  predicate Keeps(sent0: seq<Exchange>, sent: seq<Exchange>) {
    |sent0| <= |sent| && forall k :: 0 <= k < |sent0| ==> sent[k] == sent0[k]
  }

  /**
   * The state of the transfer loop after the transfers `done`: the rest of
   * the plan is planned from the replies left, the lists and the request logs
   * are those of `done`, and the requests sent before the loop are kept.
   */
  predicate DiffInv(acts: seq<ActivityListItem>, cnActs: seq<ActivityListItem>, unzip: string -> Result<seq<ZipEntry>>,
                    boundary: string, plan: seq<Transfer>, done: seq<Transfer>,
                    succeeded: seq<int>, failed: seq<int>, skipped: seq<int>, intlReplies: seq<Reply>, cnReplies: seq<Reply>,
                    intlSent0: seq<Exchange>, intlSent: seq<Exchange>, cnSent0: seq<Exchange>, cnSent: seq<Exchange>,
                    intlConfig: Settings, table: map<string, string>, cnConfig: Settings)
  {
    && |done| <= |acts|
    && plan == done + Plan(acts[|done|..], cnActs, intlReplies, cnReplies, unzip)
    && Tallied(acts, done, succeeded, failed, skipped)
    && Logged(acts, done, intlSent, cnSent, |intlSent0|, |cnSent0|, intlConfig, table, cnConfig, boundary)
    && Keeps(intlSent0, intlSent) && Keeps(cnSent0, cnSent)
  }

  /** One pass of the transfer loop, as `TransferOne` and the list update describe it, keeps `DiffInv`. */
  lemma DiffAdvance(acts: seq<ActivityListItem>, cnActs: seq<ActivityListItem>, unzip: string -> Result<seq<ZipEntry>>,
                    boundary: string, plan: seq<Transfer>, done: seq<Transfer>, t: Transfer,
                    succeeded: seq<int>, failed: seq<int>, skipped: seq<int>,
                    succeeded': seq<int>, failed': seq<int>, skipped': seq<int>,
                    intlReplies: seq<Reply>, cnReplies: seq<Reply>, intlReplies': seq<Reply>, cnReplies': seq<Reply>,
                    intlSent0: seq<Exchange>, intlSent: seq<Exchange>, intlSent': seq<Exchange>,
                    cnSent0: seq<Exchange>, cnSent: seq<Exchange>, cnSent': seq<Exchange>,
                    intlConfig: Settings, table: map<string, string>, cnConfig: Settings)
    requires |done| < |acts|
    requires DiffInv(acts, cnActs, unzip, boundary, plan, done, succeeded, failed, skipped, intlReplies, cnReplies,
                     intlSent0, intlSent, cnSent0, cnSent, intlConfig, table, cnConfig)
    requires Transferred(t, acts[|done|], cnActs, unzip, boundary, intlReplies, intlReplies', cnReplies, cnReplies',
                         intlSent, intlSent', cnSent, cnSent', intlConfig, table, cnConfig)
    requires succeeded' == succeeded + (if t.Uploaded? then [acts[|done|].activityId] else [])
    requires failed' == failed + (if t.DownloadFailed? || t.UploadFailed? then [acts[|done|].activityId] else [])
    requires skipped' == skipped + (if t.Skipped? then [acts[|done|].activityId] else [])
    ensures DiffInv(acts, cnActs, unzip, boundary, plan, done + [t], succeeded', failed', skipped', intlReplies', cnReplies',
                    intlSent0, intlSent', cnSent0, cnSent', intlConfig, table, cnConfig)
  {
    PlanAdvances(acts, |done|, cnActs, intlReplies, cnReplies, unzip, plan, done);
    TalliedAdvance(acts, done, t, succeeded, failed, skipped, succeeded', failed', skipped');
    LogsAdvance(acts, done, t, intlSent, intlSent', cnSent, cnSent', |intlSent0|, |cnSent0|, intlConfig, table, cnConfig, boundary);
  }

  /** When every activity is done, the done part is the whole plan, and the lists and logs are the plan's. */
  lemma DiffDone(acts: seq<ActivityListItem>, cnActs: seq<ActivityListItem>, unzip: string -> Result<seq<ZipEntry>>,
                 boundary: string, plan: seq<Transfer>, done: seq<Transfer>,
                 succeeded: seq<int>, failed: seq<int>, skipped: seq<int>, intlReplies: seq<Reply>, cnReplies: seq<Reply>,
                 intlSent0: seq<Exchange>, intlSent: seq<Exchange>, cnSent0: seq<Exchange>, cnSent: seq<Exchange>,
                 intlConfig: Settings, table: map<string, string>, cnConfig: Settings)
    requires |done| == |acts|
    requires DiffInv(acts, cnActs, unzip, boundary, plan, done, succeeded, failed, skipped, intlReplies, cnReplies,
                     intlSent0, intlSent, cnSent0, cnSent, intlConfig, table, cnConfig)
    ensures && succeeded == IdsIn(acts, plan, Succeeded)
            && failed == IdsIn(acts, plan, Failed)
            && skipped == IdsIn(acts, plan, SkippedIds)
    ensures && DownloadsSent(intlSent, |intlSent0|, intlConfig, table, Downloads(acts, plan))
            && UploadsSent(cnSent, |cnSent0|, cnConfig, boundary, UploadedFiles(plan))
  {
    assert acts[|acts|..] == [] && acts[..|acts|] == acts;
    assert plan == done + [] == done;
  }

  /** One pass of the loop moves the first remaining transfer of the plan to the done part. */
  lemma PlanAdvances(acts: seq<ActivityListItem>, i: nat, cn: seq<ActivityListItem>, intlReplies: seq<Reply>,
                     cnReplies: seq<Reply>, unzip: string -> Result<seq<ZipEntry>>, plan: seq<Transfer>, done: seq<Transfer>)
    requires i < |acts|
    requires plan == done + Plan(acts[i..], cn, intlReplies, cnReplies, unzip)
    ensures var t := Step(acts[i], cn, intlReplies, cnReplies, unzip);
      plan == done + [t] + Plan(acts[i + 1..], cn, IntlAfter(t, intlReplies), CnAfter(t, cnReplies), unzip)
  {
    var rest := acts[i..];
    assert rest[0] == acts[i] && rest[1..] == acts[i + 1..];
  }

  /** The three lists after the transfers `done` of the first `|done|` activities: those transfers' buckets. */
  predicate Tallied(acts: seq<ActivityListItem>, done: seq<Transfer>, succeeded: seq<int>, failed: seq<int>, skipped: seq<int>) {
    && |done| <= |acts|
    && succeeded == IdsIn(acts[..|done|], done, Succeeded)
    && failed == IdsIn(acts[..|done|], done, Failed)
    && skipped == IdsIn(acts[..|done|], done, SkippedIds)
  }

  /** The request logs after the transfers `done`: one download per attempted id, one upload per downloaded file. */
  predicate Logged(acts: seq<ActivityListItem>, done: seq<Transfer>, intlSent: seq<Exchange>, cnSent: seq<Exchange>,
                   intlFrom: nat, cnFrom: nat, intlConfig: Settings, table: map<string, string>, cnConfig: Settings,
                   boundary: string)
  {
    && |done| <= |acts|
    && DownloadsSent(intlSent, intlFrom, intlConfig, table, Downloads(acts[..|done|], done))
    && UploadsSent(cnSent, cnFrom, cnConfig, boundary, UploadedFiles(done))
  }

  /** One pass of the loop appends the transfer's id to the list of its bucket. */
  lemma TalliedAdvance(acts: seq<ActivityListItem>, done: seq<Transfer>, t: Transfer,
                       succeeded: seq<int>, failed: seq<int>, skipped: seq<int>,
                       succeeded': seq<int>, failed': seq<int>, skipped': seq<int>)
    requires |done| < |acts| && Tallied(acts, done, succeeded, failed, skipped)
    requires succeeded' == succeeded + (if t.Uploaded? then [acts[|done|].activityId] else [])
    requires failed' == failed + (if t.DownloadFailed? || t.UploadFailed? then [acts[|done|].activityId] else [])
    requires skipped' == skipped + (if t.Skipped? then [acts[|done|].activityId] else [])
    ensures Tallied(acts, done + [t], succeeded', failed', skipped')
  {
    TalliesAdvance(acts, |done|, done, t, Succeeded);
    TalliesAdvance(acts, |done|, done, t, Failed);
    TalliesAdvance(acts, |done|, done, t, SkippedIds);
  }

  /**
   * One pass of the loop extends the two request logs by the transfer's
   * download and upload requests, if it made them.
   */
  lemma LogsAdvance(acts: seq<ActivityListItem>, done: seq<Transfer>, t: Transfer,
                    intlSent: seq<Exchange>, intlSent': seq<Exchange>, cnSent: seq<Exchange>, cnSent': seq<Exchange>,
                    intlFrom: nat, cnFrom: nat, intlConfig: Settings, table: map<string, string>, cnConfig: Settings,
                    boundary: string)
    requires |done| < |acts|
    requires Logged(acts, done, intlSent, cnSent, intlFrom, cnFrom, intlConfig, table, cnConfig, boundary)
    requires |intlSent'| == |intlSent| + (if t.Skipped? then 0 else 1) && Keeps(intlSent, intlSent')
    requires |cnSent'| == |cnSent| + (if t.Uploaded? || t.UploadFailed? then 1 else 0) && Keeps(cnSent, cnSent')
    requires !t.Skipped? ==>
      intlSent'[|intlSent|].call == Call(table, MethodGet, DownloadUrl(intlConfig, acts[|done|].activityId), None, None, None, false)
    requires t.Uploaded? || t.UploadFailed? ==> IsUpload(cnSent'[|cnSent|].call, cnConfig, boundary, t.file)
    ensures Logged(acts, done + [t], intlSent', cnSent', intlFrom, cnFrom, intlConfig, table, cnConfig, boundary)
  {
    DownloadsAdvance(acts, done, t, intlSent, intlSent', intlFrom, intlConfig, table);
    UploadsAdvance(done, t, cnSent, cnSent', cnFrom, cnConfig, boundary);
  }

  /** One pass of the loop appends its download request, if it made one, to the international log. */
  lemma DownloadsAdvance(acts: seq<ActivityListItem>, done: seq<Transfer>, t: Transfer,
                         intlSent: seq<Exchange>, intlSent': seq<Exchange>, intlFrom: nat, intlConfig: Settings,
                         table: map<string, string>)
    requires |done| < |acts|
    requires DownloadsSent(intlSent, intlFrom, intlConfig, table, Downloads(acts[..|done|], done))
    requires |intlSent'| == |intlSent| + (if t.Skipped? then 0 else 1) && Keeps(intlSent, intlSent')
    requires !t.Skipped? ==>
      intlSent'[|intlSent|].call == Call(table, MethodGet, DownloadUrl(intlConfig, acts[|done|].activityId), None, None, None, false)
    ensures DownloadsSent(intlSent', intlFrom, intlConfig, table, Downloads(acts[..|done| + 1], done + [t]))
  {
    var i := |done|;
    TalliesAdvance(acts, i, done, t, Succeeded);
    if !t.Skipped? {
      DownloadsSentGrow(intlSent, intlSent', intlFrom, intlConfig, table, Downloads(acts[..i], done), acts[i].activityId);
    } else {
      assert intlSent' == intlSent;
    }
  }

  /** One pass of the loop appends its upload request, if it made one, to the CN log. */
  lemma UploadsAdvance(done: seq<Transfer>, t: Transfer, cnSent: seq<Exchange>, cnSent': seq<Exchange>,
                       cnFrom: nat, cnConfig: Settings, boundary: string)
    requires UploadsSent(cnSent, cnFrom, cnConfig, boundary, UploadedFiles(done))
    requires |cnSent'| == |cnSent| + (if t.Uploaded? || t.UploadFailed? then 1 else 0) && Keeps(cnSent, cnSent')
    requires t.Uploaded? || t.UploadFailed? ==> IsUpload(cnSent'[|cnSent|].call, cnConfig, boundary, t.file)
    ensures UploadsSent(cnSent', cnFrom, cnConfig, boundary, UploadedFiles(done + [t]))
  {
    assert (done + [t])[..|done|] == done;
    if t.Uploaded? || t.UploadFailed? {
      UploadsSentGrow(cnSent, cnSent', cnFrom, cnConfig, boundary, UploadedFiles(done), t.file);
    } else {
      assert cnSent' == cnSent;
    }
  }

  /** Appending one transfer to the done part appends its id to its bucket's list and counts its requests. */
  lemma TalliesAdvance(acts: seq<ActivityListItem>, i: nat, done: seq<Transfer>, t: Transfer, k: Bucket)
    requires i < |acts| && |done| == i
    ensures IdsIn(acts[..i + 1], done + [t], k)
      == IdsIn(acts[..i], done, k) + (if BucketOf(t) == k then [acts[i].activityId] else [])
    ensures Downloads(acts[..i + 1], done + [t]) == Downloads(acts[..i], done) + (if t.Skipped? then [] else [acts[i].activityId])
    ensures UploadedFiles(done + [t]) == UploadedFiles(done) + (if t.Uploaded? || t.UploadFailed? then [t.file] else [])
  {
    assert acts[..i + 1][..i] == acts[..i];
    assert (done + [t])[..i] == done;
  }

  // ---------------------------------------------------------------------------
  // The report

  /** The overall verdict: false exactly when nothing was copied and something failed. */
  function Success(succeeded: seq<int>, failed: seq<int>): bool {
    !(|succeeded| == 0 && |failed| != 0)
  }

  /** The run failed exactly when no transfer ended in an upload and at least one transfer failed. */
  lemma SuccessRule(acts: seq<ActivityListItem>, ts: seq<Transfer>)
    requires |ts| == |acts|
    ensures !Success(IdsIn(acts, ts, Succeeded), IdsIn(acts, ts, Failed)) <==>
      (forall i :: 0 <= i < |ts| ==> !ts[i].Uploaded?)
      && (exists i :: 0 <= i < |ts| && (ts[i].DownloadFailed? || ts[i].UploadFailed?))
  {
    IdsInEmpty(acts, ts, Succeeded);
    IdsInEmpty(acts, ts, Failed);
  }

  /** One sentence of the summary: `id[%v] <outcome>.` for one list. */
  function Sentence(ids: seq<int>, outcome: string): string {
    "id[" + FormatIntSlice(ids) + "] " + outcome + "."
  }

  /** `fmt.Sprintf("id[%v] succeeded. id[%v] failed. id[%v] skipped.", ...)`: three sentences separated by spaces. */
  function Summary(succeeded: seq<int>, failed: seq<int>, skipped: seq<int>): string {
    Sentence(succeeded, "succeeded") + " " + Sentence(failed, "failed") + " " + Sentence(skipped, "skipped")
  }

  /**
   * The summary names the three lists exactly: two runs give the same summary
   * only when they copied, failed and skipped the same ids in the same order.
   */
  lemma SummaryInjective(succeeded: seq<int>, failed: seq<int>, skipped: seq<int>,
                         succeeded': seq<int>, failed': seq<int>, skipped': seq<int>)
    ensures Summary(succeeded, failed, skipped) == Summary(succeeded', failed', skipped') <==>
      succeeded == succeeded' && failed == failed' && skipped == skipped'
  {
    if Summary(succeeded, failed, skipped) == Summary(succeeded', failed', skipped') {
      SummaryParts(succeeded, failed, skipped);
      SummaryParts(succeeded', failed', skipped');
      var last, last' := Sentence(skipped, "skipped") + [], Sentence(skipped', "skipped") + [];
      var mid, mid' := Sentence(failed, "failed") + (" " + last), Sentence(failed', "failed") + (" " + last');
      SentenceSplit(succeeded, succeeded', "succeeded", " " + mid, " " + mid');
      assert mid == (" " + mid)[1..] == (" " + mid')[1..] == mid';
      SentenceSplit(failed, failed', "failed", " " + last, " " + last');
      assert last == (" " + last)[1..] == (" " + last')[1..] == last';
      SentenceSplit(skipped, skipped', "skipped", [], []);
    }
  }

  /** The summary as its three sentences, each followed by the rest of the text. */
  lemma SummaryParts(succeeded: seq<int>, failed: seq<int>, skipped: seq<int>)
    ensures Summary(succeeded, failed, skipped)
      == Sentence(succeeded, "succeeded") + (" " + (Sentence(failed, "failed") + (" " + (Sentence(skipped, "skipped") + []))))
  {
  }

  /** A sentence is read back from the front of a text: the same outcome followed by text gives the same ids and rest. */
  lemma SentenceSplit(ids: seq<int>, ids': seq<int>, outcome: string, rest: string, rest': string)
    requires Sentence(ids, outcome) + rest == Sentence(ids', outcome) + rest'
    ensures ids == ids' && rest == rest'
  {
    var tail := "] " + outcome + ".";
    SentenceShape(ids, outcome, rest);
    SentenceShape(ids', outcome, rest');
    JoinIntsChars(ids);
    JoinIntsChars(ids');
    SplitAt(']', JoinInts(ids), JoinInts(ids'), tail + rest, tail + rest');
    assert rest == (tail + rest)[|tail|..] == (tail + rest')[|tail|..] == rest';
    JoinIntsInjective(ids, ids');
  }

  /** Past its opening `id[[`, a sentence followed by `rest` is the joined ids, `]` and what follows. */
  lemma SentenceShape(ids: seq<int>, outcome: string, rest: string)
    ensures |Sentence(ids, outcome) + rest| >= 4
    ensures (Sentence(ids, outcome) + rest)[4..] == JoinInts(ids) + [']'] + ("] " + outcome + "." + rest)
  {
    var after := "] " + outcome + "." + rest;
    var s := Sentence(ids, outcome) + rest;
    SentenceAfterId(ids, outcome, rest);
    SliceAfterBracket(ids, after);
    assert s[4..] == s[3..][1..];
  }

  /** Past its `id[`, a sentence followed by `rest` is the printed list and what follows it. */
  lemma SentenceAfterId(ids: seq<int>, outcome: string, rest: string)
    ensures |Sentence(ids, outcome) + rest| >= 3
    ensures (Sentence(ids, outcome) + rest)[3..] == FormatIntSlice(ids) + ("] " + outcome + "." + rest)
  {
    var s := Sentence(ids, outcome) + rest;
    assert s == "id[" + (FormatIntSlice(ids) + ("] " + outcome + "." + rest));
  }

  /** Past its `[`, a printed list followed by `after` is the joined ids, `]` and `after`. */
  lemma SliceAfterBracket(ids: seq<int>, after: string)
    ensures (FormatIntSlice(ids) + after)[1..] == JoinInts(ids) + [']'] + after
  {
    assert FormatIntSlice(ids) + after == "[" + (JoinInts(ids) + [']'] + after);
  }

  /** Two copied, none failed, one skipped. */
  lemma SummaryExample()
    ensures Summary([1, 2], [], [3]) == "id[[1 2]] succeeded. id[[]] failed. id[[3]] skipped."
  {
    SentenceExamples();
    SpacedExample();
  }

  /** The three sentences of the example. */
  lemma SentenceExamples()
    ensures Sentence([1, 2], "succeeded") == "id[[1 2]] succeeded."
    ensures Sentence([], "failed") == "id[[]] failed."
    ensures Sentence([3], "skipped") == "id[[3]] skipped."
  {
    SliceExamples();
  }

  /** The example's sentences joined by single spaces. */
  lemma SpacedExample()
    ensures "id[[1 2]] succeeded." + " " + "id[[]] failed." + " " + "id[[3]] skipped."
         == "id[[1 2]] succeeded. id[[]] failed. id[[3]] skipped."
  {
  }

  /** `%v` on the three lists of the example. */
  lemma SliceExamples()
    ensures FormatIntSlice([1, 2]) == "[1 2]" && FormatIntSlice([]) == "[]" && FormatIntSlice([3]) == "[3]"
  {
    assert FormatInt(1) == "1" && FormatInt(2) == "2" && FormatInt(3) == "3";
    assert JoinInts([1, 2]) == "1 2" by { assert [1, 2][1..] == [2]; }
  }

  // ---------------------------------------------------------------------------
  // The whole run

  /** The account of one side: an e-mail address and a password. */
  datatype UserInfo = UserInfo(email: string, password: string)

  /** The options `NewClient` is given for the international account. */
  function IntlOptions(u: UserInfo): seq<ClientOption> {
    [Credentials(u.email, u.password), SetEnv(ApiServiceHost, SsoPrefix)]
  }

  /** The options `NewClient` is given for the CN account. */
  function CnOptions(u: UserInfo): seq<ClientOption> {
    [Credentials(u.email, u.password), SetEnv(ApiServiceHostCn, SsoPrefixCn)]
  }

  /**
   * The fan-in of `SynchronizeLatestActivities`: both lists are fetched by
   * clients that are not logged in yet, and joined; `intlFirst` stands for
   * the race between the two error sends. Once both lists are in, each
   * account has received its handshake and one list request, and the
   * international client carries the login headers.
   */
  method FetchBoth(intl: Client, cn: Client, decode: string -> Result<seq<ActivityListItem>>, intlFirst: bool)
    returns (lists: Result<(seq<ActivityListItem>, seq<ActivityListItem>)>)
    requires intl != cn && intl.transport != cn.transport && !intl.loggedIn && !cn.loggedIn
    modifies intl`loggedIn, intl.transport`headers, intl.transport`replies, intl.transport`sent
    modifies cn`loggedIn, cn.transport`headers, cn.transport`replies, cn.transport`sent
    ensures lists == Join(FetchOutcome(intl.config, old(intl.transport.replies), decode),
                          FetchOutcome(cn.config, old(cn.transport.replies), decode), intlFirst)
    ensures lists.Err? ==>
      |intl.transport.sent| <= |old(intl.transport.sent)| + 4 && |cn.transport.sent| <= |old(cn.transport.sent)| + 4
    ensures lists.Ok? ==>
      && intl.transport.replies == AfterReply(Drop(old(intl.transport.replies), 3))
      && cn.transport.replies == AfterReply(Drop(old(cn.transport.replies), 3))
      && intl.transport.headers == LoginHeaders(intl.config)
      && |intl.transport.sent| == |old(intl.transport.sent)| + 4
      && |cn.transport.sent| == |old(cn.transport.sent)| + 4
      && intl.transport.sent[|old(intl.transport.sent)| + 3].call.params == Some(ListParams(0, IntlLimit))
      && cn.transport.sent[|old(cn.transport.sent)| + 3].call.params == Some(ListParams(0, CnLimit))
  {
    var intlList := FetchList(intl, IntlLimit, decode);
    var cnList := FetchList(cn, CnLimit, decode);
    lists := Join(intlList, cnList, intlFirst);
  }

  /**
   * The body of `SynchronizeLatestActivities` once both clients exist:
   * fetch both lists, then transfer what the CN list lacks. Stated over the
   * clients' settings and the replies their networks will give.
   */
  method SyncClients(intl: Client, cn: Client, decode: string -> Result<seq<ActivityListItem>>,
                     unzip: string -> Result<seq<ZipEntry>>, boundary: string, intlFirst: bool)
    returns (ok: bool, summary: string, err: Option<Failure>)
    requires intl != cn && intl.transport != cn.transport && !intl.loggedIn && !cn.loggedIn
    requires intl.transport.sent == [] && cn.transport.sent == []
    modifies intl`loggedIn, intl.transport`headers, intl.transport`replies, intl.transport`sent
    modifies cn`loggedIn, cn.transport`headers, cn.transport`replies, cn.transport`sent
    ensures var lists := Join(FetchOutcome(intl.config, old(intl.transport.replies), decode),
                              FetchOutcome(cn.config, old(cn.transport.replies), decode), intlFirst);
      && (lists.Err? ==> !ok && summary == "" && err == Some(lists.failure)
                         && |intl.transport.sent| <= 4 && |cn.transport.sent| <= 4)
      && (lists.Ok? ==>
            var ts := Plan(lists.value.0, lists.value.1, AfterReply(Drop(old(intl.transport.replies), 3)),
                           AfterReply(Drop(old(cn.transport.replies), 3)), unzip);
            && err.None?
            && ok == Success(IdsIn(lists.value.0, ts, Succeeded), IdsIn(lists.value.0, ts, Failed))
            && summary == Summary(IdsIn(lists.value.0, ts, Succeeded), IdsIn(lists.value.0, ts, Failed),
                                  IdsIn(lists.value.0, ts, SkippedIds))
            && DownloadsSent(intl.transport.sent, 4, intl.config, LoginHeaders(intl.config), Downloads(lists.value.0, ts))
            && UploadsSent(cn.transport.sent, 4, cn.config, boundary, UploadedFiles(ts)))
  {
    var lists := FetchBoth(intl, cn, decode, intlFirst);
    if lists.Err? {
      return false, "", Some(lists.failure);
    }
    var succeeded, failed, skipped := Diff(intl, cn, lists.value.0, lists.value.1, unzip, boundary);
    ok := Success(succeeded, failed);
    summary := Summary(succeeded, failed, skipped);
    err := None;
  }

  /**
   * `SynchronizeLatestActivities` against the replies the two accounts'
   * networks will give. A failed fetch returns `(false, "", err)` before any
   * transfer; otherwise the verdict and the summary describe the plan of the
   * fetched lists, and the error is nil. `intlSent` and `cnSent` are the
   * requests each account received: the handshake's three, the list request
   * (3 international activities, 10 CN ones, from offset 0), and then one
   * download per attempted id with the login headers, and one upload per
   * downloaded file.
   */
  method Synchronize(intlUser: UserInfo, cnUser: UserInfo, intlReplies: seq<Reply>, cnReplies: seq<Reply>,
                     decode: string -> Result<seq<ActivityListItem>>, unzip: string -> Result<seq<ZipEntry>>,
                     boundary: string, intlFirst: bool)
    returns (ok: bool, summary: string, err: Option<Failure>, ghost intlSent: seq<Exchange>, ghost cnSent: seq<Exchange>)
    ensures var intl := FetchOutcome(ApplyAll(Unset, IntlOptions(intlUser)), intlReplies, decode);
      var cn := FetchOutcome(ApplyAll(Unset, CnOptions(cnUser)), cnReplies, decode);
      var lists := Join(intl, cn, intlFirst);
      && (lists.Err? ==> !ok && summary == "" && err == Some(lists.failure))
      && (lists.Ok? ==>
            var ts := Plan(lists.value.0, lists.value.1, AfterReply(Drop(intlReplies, 3)), AfterReply(Drop(cnReplies, 3)), unzip);
            && err.None?
            && ok == Success(IdsIn(lists.value.0, ts, Succeeded), IdsIn(lists.value.0, ts, Failed))
            && summary == Summary(IdsIn(lists.value.0, ts, Succeeded), IdsIn(lists.value.0, ts, Failed),
                                  IdsIn(lists.value.0, ts, SkippedIds)))
    ensures var intlConfig, cnConfig := ApplyAll(Unset, IntlOptions(intlUser)), ApplyAll(Unset, CnOptions(cnUser));
      var lists := Join(FetchOutcome(intlConfig, intlReplies, decode), FetchOutcome(cnConfig, cnReplies, decode), intlFirst);
      && (lists.Err? ==> |intlSent| <= 4 && |cnSent| <= 4)
      && (lists.Ok? ==>
            var ts := Plan(lists.value.0, lists.value.1, AfterReply(Drop(intlReplies, 3)), AfterReply(Drop(cnReplies, 3)), unzip);
            && DownloadsSent(intlSent, 4, intlConfig, LoginHeaders(intlConfig), Downloads(lists.value.0, ts))
            && UploadsSent(cnSent, 4, cnConfig, boundary, UploadedFiles(ts)))
  {
    var clientIntl := new Client(IntlOptions(intlUser), intlReplies);
    var clientCn := new Client(CnOptions(cnUser), cnReplies);
    ok, summary, err := SyncClients(clientIntl, clientCn, decode, unzip, boundary, intlFirst);
    intlSent, cnSent := clientIntl.transport.sent, clientCn.transport.sent;
  }
}
