/**
 * The ticket-URL scraper of the sign-in handshake. The source compiles the
 * pattern
 *     https:\\\/\\\/ + host + \\\/modern(\\\/)?\?ticket=(([a-zA-Z0-9]|-)*)
 * which matches, literally, `https:\/\/`, then the host text read as a pattern
 * (each `.` matches any one character except a newline), then `\/modern`, an
 * optional `\/`, `?ticket=` and the longest run of letters, digits and hyphens.
 * This module is a matcher for that one pattern, the leftmost-match search, and
 * the un-escaping of `\/` that follows it.
 */
module Ticket {

  import opened Common
  import opened Text

  const SchemeEscaped: string := "https:\\/\\/"
  const ModernEscaped: string := "\\/modern"
  const SlashEscaped: string := "\\/"
  const TicketQuery: string := "?ticket="

  /** A character of the ticket value: `[a-zA-Z0-9]` or `-`. */
  predicate TicketChar(c: char) {
    'a' <= c <= 'z' || 'A' <= c <= 'Z' || '0' <= c <= '9' || c == '-'
  }

  /** `text` matches the host interpolated into the pattern: each `.` is a wildcard for any character but a newline. */
  predicate HostMatches(text: string, host: string) {
    |text| == |host| &&
    forall k :: 0 <= k < |host| ==> if host[k] == '.' then text[k] != '\n' else text[k] == host[k]
  }

  /** The end of the longest run of ticket characters in `s` starting at `j`. */
  function RunEnd(s: string, j: nat): (e: nat)
    requires j <= |s|
    decreases |s| - j
    ensures j <= e <= |s|
    ensures forall k :: j <= k < e ==> TicketChar(s[k])
    ensures e == |s| || !TicketChar(s[e])
  {
    if j == |s| || !TicketChar(s[j]) then j else RunEnd(s, j + 1)
  }

  /**
   * Where the match starting at `i` ends, if one starts there: the pattern is
   * deterministic (the optional `\/` and the following `?` cannot both start at
   * the same place) and its final star is greedy.
   */
  function MatchAt(s: string, host: string, i: nat): Option<nat>
    requires i <= |s|
  {
    if !OccursAt(s, SchemeEscaped, i) then None
    else
      var h := i + |SchemeEscaped|;
      if h + |host| > |s| || !HostMatches(s[h..h + |host|], host) then None
      else
        var m := h + |host|;
        if !OccursAt(s, ModernEscaped, m) then None
        else
          var o := m + |ModernEscaped|;
          var q := if OccursAt(s, SlashEscaped, o) then o + |SlashEscaped| else o;
          if !OccursAt(s, TicketQuery, q) then None
          else Some(RunEnd(s, q + |TicketQuery|))
  }

  /** The text of a match, taken apart: `https:\/\/`, the host text, `\/modern`, the optional `\/`, `?ticket=` and the ticket. */
  predicate MatchShape(t: string, host: string, hostText: string, slash: string, ticket: string) {
    && t == SchemeEscaped + hostText + ModernEscaped + slash + TicketQuery + ticket
    && HostMatches(hostText, host)
    && (slash == "" || slash == SlashEscaped)
    && forall k :: 0 <= k < |ticket| ==> TicketChar(ticket[k])
  }

  /** Every match has the shape the pattern describes, and its ticket cannot be extended. */
  lemma MatchAtShape(s: string, host: string, i: nat) returns (hostText: string, slash: string, ticket: string)
    requires i <= |s| && MatchAt(s, host, i).Some?
    ensures i <= MatchAt(s, host, i).value <= |s|
    ensures MatchShape(s[i..MatchAt(s, host, i).value], host, hostText, slash, ticket)
    ensures MatchAt(s, host, i).value == |s| || !TicketChar(s[MatchAt(s, host, i).value])
  {
    var e := MatchAt(s, host, i).value;
    var h := i + |SchemeEscaped|;
    var m := h + |host|;
    var o := m + |ModernEscaped|;
    var q := if OccursAt(s, SlashEscaped, o) then o + |SlashEscaped| else o;
    var r := q + |TicketQuery|;
    assert s[i..h] == SchemeEscaped;
    assert HostMatches(s[h..m], host);
    assert s[m..o] == ModernEscaped;
    assert s[q..r] == TicketQuery;
    assert e == RunEnd(s, r);
    hostText, slash, ticket := s[h..m], s[o..q], s[r..e];
    assert slash == "" || slash == SlashEscaped;
    assert forall k :: 0 <= k < |ticket| ==> TicketChar(ticket[k]) by {
      forall k | 0 <= k < |ticket| ensures TicketChar(ticket[k]) {
        assert ticket[k] == s[r + k];
      }
    }
    SplitSlice(s, i, h, m);
    SplitSlice(s, i, m, o);
    SplitSlice(s, i, o, q);
    SplitSlice(s, i, q, r);
    SplitSlice(s, i, r, e);
  }

  /**
   * The converse: wherever the text has the pattern's shape and the ticket
   * run cannot be extended, the pattern matches there and ends there.
   */
  lemma ShapeMatches(s: string, host: string, i: nat, e: nat, hostText: string, slash: string, ticket: string)
    requires i <= e <= |s|
    requires MatchShape(s[i..e], host, hostText, slash, ticket)
    requires e == |s| || !TicketChar(s[e])
    ensures MatchAt(s, host, i) == Some(e)
  {
    var h := i + |SchemeEscaped|;
    var m := h + |hostText|;
    var o := m + |ModernEscaped|;
    var q := o + |slash|;
    var r := q + |TicketQuery|;
    ShapeParts(s, i, e, hostText, slash, ticket);
    assert OccursAt(s, SchemeEscaped, i);
    assert HostMatches(s[h..h + |host|], host);
    assert OccursAt(s, ModernEscaped, m);
    assert (if OccursAt(s, SlashEscaped, o) then o + |SlashEscaped| else o) == q by {
      if slash == "" {
        assert s[o] == s[q..r][0] == '?';
      } else {
        assert OccursAt(s, SlashEscaped, o);
      }
    }
    assert OccursAt(s, TicketQuery, q);
    TicketRun(s, r, e, ticket);
  }

  /** A ticket that sits in the text and cannot be extended there is the run `RunEnd` finds. */
  lemma TicketRun(s: string, r: nat, e: nat, ticket: string)
    requires r <= e <= |s| && s[r..e] == ticket
    requires forall k :: 0 <= k < |ticket| ==> TicketChar(ticket[k])
    requires e == |s| || !TicketChar(s[e])
    ensures RunEnd(s, r) == e
  {
    forall k | r <= k < e ensures TicketChar(s[k]) {
      assert s[k] == s[r..e][k - r];
    }
    RunEndAt(s, r, e);
  }

  /** Where each part of a slice of the pattern's shape lies in the text. */
  lemma ShapeParts(s: string, i: nat, e: nat, hostText: string, slash: string, ticket: string)
    requires i <= e <= |s| && s[i..e] == SchemeEscaped + hostText + ModernEscaped + slash + TicketQuery + ticket
    ensures var h := i + |SchemeEscaped|;
      var m := h + |hostText|;
      var o := m + |ModernEscaped|;
      var q := o + |slash|;
      var r := q + |TicketQuery|;
      && r + |ticket| == e
      && s[i..h] == SchemeEscaped && s[h..m] == hostText && s[m..o] == ModernEscaped
      && s[o..q] == slash && s[q..r] == TicketQuery && s[r..e] == ticket
  {
    var q := i + |SchemeEscaped| + |hostText| + |ModernEscaped| + |slash|;
    SliceParts(s, i, e, SchemeEscaped + hostText + ModernEscaped + slash + TicketQuery, ticket);
    SliceParts(s, i, q + |TicketQuery|, SchemeEscaped + hostText + ModernEscaped + slash, TicketQuery);
    SliceParts(s, i, q, SchemeEscaped + hostText + ModernEscaped, slash);
    SliceParts(s, i, q - |slash|, SchemeEscaped + hostText, ModernEscaped);
    SliceParts(s, i, i + |SchemeEscaped| + |hostText|, SchemeEscaped, hostText);
  }

  /** A run of ticket characters from `j` to `e` that cannot be extended is the one `RunEnd` finds. */
  lemma {:induction false} RunEndAt(s: string, j: nat, e: nat)
    requires j <= e <= |s|
    requires forall k :: j <= k < e ==> TicketChar(s[k])
    requires e == |s| || !TicketChar(s[e])
    ensures RunEnd(s, j) == e
    decreases e - j
  {
    if j < e {
      RunEndAt(s, j + 1, e);
    }
  }

  /** A slice that is the concatenation of two strings has the first at its start and the second after it. */
  lemma SliceParts(s: string, i: nat, e: nat, a: string, b: string)
    requires i <= e <= |s| && s[i..e] == a + b
    ensures i + |a| <= e && s[i..i + |a|] == a && s[i + |a|..e] == b
  {
    assert s[i..i + |a|] == s[i..e][..|a|];
    assert s[i + |a|..e] == s[i..e][|a|..];
  }

  /** A slice is the concatenation of its two halves. */
  lemma SplitSlice(s: string, a: nat, b: nat, c: nat)
    requires a <= b <= c <= |s|
    ensures s[a..c] == s[a..b] + s[b..c]
  {
  }

  /** The leftmost match at or after `i`: its start and end. */
  function FindFrom(s: string, host: string, i: nat): (r: Option<(nat, nat)>)
    requires i <= |s|
    decreases |s| - i
    ensures r.None? <==> forall j :: i <= j <= |s| ==> MatchAt(s, host, j).None?
    ensures r.Some? ==>
      && i <= r.value.0 <= |s|
      && MatchAt(s, host, r.value.0) == Some(r.value.1)
      && forall j :: i <= j < r.value.0 ==> MatchAt(s, host, j).None?
  {
    match MatchAt(s, host, i)
    case Some(e) => Some((i, e))
    case None => if i == |s| then None else FindFrom(s, host, i + 1)
  }

  /** `strings.Replace(t, "\\/", "/", -1)`: every `\/`, read left to right without overlap, becomes `/`. */
  function Unescape(t: string): string {
    if |t| >= 2 && t[0] == '\\' && t[1] == '/' then "/" + Unescape(t[2..])
    else if t == [] then []
    else [t[0]] + Unescape(t[1..])
  }

  /** Un-escaping leaves a text without backslashes as it is. */
  lemma {:induction false} UnescapePlain(t: string)
    requires '\\' !in t
    ensures Unescape(t) == t
  {
    if t != [] {
      assert t[0] in t;
      assert forall c :: c in t[1..] ==> c in t;
      UnescapePlain(t[1..]);
    }
  }

  /** Un-escaping distributes over a split that does not cut a `\/` in two. */
  lemma {:induction false} UnescapeConcat(a: string, b: string)
    requires a == [] || a[|a| - 1] != '\\'
    ensures Unescape(a + b) == Unescape(a) + Unescape(b)
  {
    var ab := a + b;
    if a == [] {
      assert ab == b;
    } else if |a| >= 2 && a[0] == '\\' && a[1] == '/' {
      assert ab[0] == '\\' && ab[1] == '/';
      assert ab[2..] == a[2..] + b;
      UnescapeConcat(a[2..], b);
      assert Unescape(ab) == "/" + Unescape(ab[2..]);
      assert Unescape(a) == "/" + Unescape(a[2..]);
      assert "/" + (Unescape(a[2..]) + Unescape(b)) == ("/" + Unescape(a[2..])) + Unescape(b);
    } else {
      assert ab[0] == a[0];
      assert !(|ab| >= 2 && ab[0] == '\\' && ab[1] == '/') by {
        if |a| >= 2 { assert ab[1] == a[1]; } else { assert a[0] != '\\'; }
      }
      assert ab[1..] == a[1..] + b;
      UnescapeConcat(a[1..], b);
      assert Unescape(ab) == [ab[0]] + Unescape(ab[1..]);
      assert Unescape(a) == [a[0]] + Unescape(a[1..]);
      assert [a[0]] + (Unescape(a[1..]) + Unescape(b)) == ([a[0]] + Unescape(a[1..])) + Unescape(b);
    }
  }

  /** The escaped scheme becomes `https://`. */
  lemma UnescapeScheme()
    ensures Unescape(SchemeEscaped) == "https://"
  {
    var head, pairs := "https:", SlashEscaped + SlashEscaped;
    assert SchemeEscaped == head + pairs;
    UnescapePlain(head);
    UnescapeConcat(head, pairs);
    UnescapePairs();
  }

  /** Two escaped slashes become two slashes. */
  lemma UnescapePairs()
    ensures Unescape(SlashEscaped + SlashEscaped) == "//"
  {
    var pair := SlashEscaped;
    assert (pair + pair)[2..] == pair && pair[2..] == [];
  }

  /** A ticket URL: `https://`, then anything, then `?ticket=` followed by letters, digits and hyphens only. */
  predicate TicketUrlShape(url: string) {
    && StartsWith(url, "https://")
    && exists j :: 0 <= j <= |url| - |TicketQuery| && OccursAt(url, TicketQuery, j)
         && forall k :: j + |TicketQuery| <= k < |url| ==> TicketChar(url[k])
  }

  /**
   * `extractTicketUrl`: the leftmost match of the pattern for `apiHost`, with
   * `\/` un-escaped, or "wrong credentials" when the result is empty.
   */
  function ExtractTicketUrl(body: string, apiHost: string): Result<string> {
    var ticketUrl := match FindFrom(body, apiHost, 0)
      case None => ""
      case Some(span) => Unescape(body[span.0..span.1]);
    if ticketUrl == "" then Err(Error("wrong credentials")) else Ok(ticketUrl)
  }

  /**
   * The ticket scraper fails, always with "wrong credentials", exactly when
   * the pattern matches nowhere in the body; what it returns otherwise is a
   * ticket URL.
   */
  lemma TicketUrlCases(body: string, apiHost: string)
    ensures var r := ExtractTicketUrl(body, apiHost);
      && (r.Err? <==> forall i :: 0 <= i <= |body| ==> MatchAt(body, apiHost, i).None?)
      && (r.Err? ==> r.failure == Error("wrong credentials"))
      && (r.Ok? ==> TicketUrlShape(r.value))
  {
    MatchedUrlShape(body, apiHost);
  }

  /** A body holding the pattern's shape, with a ticket run that cannot be extended, yields a ticket URL. */
  lemma ShapedBodyGivesUrl(body: string, apiHost: string, i: nat, e: nat, hostText: string, slash: string, ticket: string)
    requires i <= e <= |body|
    requires MatchShape(body[i..e], apiHost, hostText, slash, ticket)
    requires e == |body| || !TicketChar(body[e])
    ensures ExtractTicketUrl(body, apiHost).Ok?
  {
    ShapeMatches(body, apiHost, i, e, hostText, slash, ticket);
    TicketUrlCases(body, apiHost);
  }

  /** A leftmost match, once un-escaped, is a non-empty ticket URL. */
  lemma MatchedUrlShape(body: string, apiHost: string)
    ensures FindFrom(body, apiHost, 0).Some? ==>
      var span := FindFrom(body, apiHost, 0).value;
      span.0 <= span.1 <= |body| && TicketUrlShape(Unescape(body[span.0..span.1]))
  {
    if FindFrom(body, apiHost, 0).Some? {
      var span := FindFrom(body, apiHost, 0).value;
      var hostText, slash, ticket := MatchAtShape(body, apiHost, span.0);
      UnescapedShape(hostText, slash, ticket);
    }
  }

  /** The un-escaped text of any match of the pattern's shape is a ticket URL. */
  lemma UnescapedShape(hostText: string, slash: string, ticket: string)
    requires slash == "" || slash == SlashEscaped
    requires forall k :: 0 <= k < |ticket| ==> TicketChar(ticket[k])
    ensures TicketUrlShape(Unescape(SchemeEscaped + hostText + ModernEscaped + slash + TicketQuery + ticket))
  {
    var middle := UnescapeMatchText(hostText, slash, ticket);
    ShapeOfUrl(middle, ticket);
  }

  /** Un-escaping a match touches neither the scheme's meaning nor the query and ticket that end it. */
  lemma UnescapeMatchText(hostText: string, slash: string, ticket: string) returns (middle: string)
    requires slash == "" || slash == SlashEscaped
    requires forall k :: 0 <= k < |ticket| ==> TicketChar(ticket[k])
    ensures Unescape(SchemeEscaped + hostText + ModernEscaped + slash + TicketQuery + ticket)
      == "https://" + middle + (TicketQuery + ticket)
  {
    var inner := hostText + ModernEscaped + slash;
    var tail := TicketQuery + ticket;
    assert '\\' !in tail by {
      forall k | 0 <= k < |tail| ensures tail[k] != '\\' {
        if k >= |TicketQuery| { assert TicketChar(ticket[k - |TicketQuery|]); }
      }
    }
    UnescapePlain(tail);
    assert inner[|inner| - 1] != '\\';
    var front := SchemeEscaped + inner;
    assert front[|front| - 1] != '\\';
    UnescapeConcat(front, tail);
    UnescapeConcat(SchemeEscaped, inner);
    UnescapeScheme();
    Regroup(SchemeEscaped, hostText, ModernEscaped, slash, TicketQuery, ticket);
    middle := Unescape(inner);
  }

  /** `https://`, anything, `?ticket=` and a run of ticket characters make a ticket URL. */
  lemma ShapeOfUrl(middle: string, ticket: string)
    requires forall k :: 0 <= k < |ticket| ==> TicketChar(ticket[k])
    ensures TicketUrlShape("https://" + middle + (TicketQuery + ticket))
  {
    var pre := "https://" + middle;
    var url := pre + (TicketQuery + ticket);
    var j := |pre|;
    assert url[..8] == "https://";
    assert url[j..j + |TicketQuery|] == TicketQuery;
    assert OccursAt(url, TicketQuery, j);
    TailIndex(pre, TicketQuery, ticket);
  }

  /** Regrouping a six-part concatenation as prefix, middle and tail. */
  lemma Regroup(a: string, b: string, c: string, d: string, e: string, f: string)
    ensures a + b + c + d + e + f == (a + (b + c + d)) + (e + f)
  {
  }

  /** The characters after `pre + q` in `pre + (q + t)` are those of `t`. */
  lemma TailIndex(pre: string, q: string, t: string)
    ensures forall k :: |pre| + |q| <= k < |pre + (q + t)| ==> (pre + (q + t))[k] == t[k - |pre| - |q|]
  {
  }
}
