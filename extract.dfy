/**
 * The two marker-and-slice scrapers of the sign-in handshake: the CSRF token of
 * the sign-in page and the social-profile blob of the page the ticket leads to.
 */
module Extract {

  import opened Common
  import opened Text

  const CsrfStart: string := "<input type=\"hidden\" name=\"_csrf\" value=\""
  const CsrfEnd: string := "\" />"
  const ProfileStart: string := "window.VIEWER_SOCIAL_PROFILE = JSON.parse(\""
  const ProfileEnd: string := "\");"

  /** What slicing a body between an opening and a closing marker gives. */
  datatype Slice =
    | Missing                                   // the opening marker does not occur
    | Unterminated                              // no closing marker at or after the opening one
    | Inverted(low: nat, high: nat)             // the closing marker begins inside the opening one: low > high
    | Found(text: string)

  /**
   * The rule both scrapers follow: find the first `open`, then the first `close`
   * at or after it, and take what lies between the end of `open` and that `close`.
   * When that `close` starts inside `open` the Go slice bounds are inverted.
   */
  function Between(body: string, open: string, close: string): Slice
    requires close != []
  {
    var p := IndexOf(body, open);
    if p == -1 then Missing
    else
      var e := IndexOf(body[p..], close);
      if e == -1 then Unterminated
      else if e < |open| then Inverted(|open|, e)
      else Found(body[p..][|open|..e])
  }

  /**
   * The slice is missing exactly when `open` does not occur, unterminated
   * exactly when no `close` follows the first `open`, inverted when the first
   * `close` after it begins inside `open` (the slice would end there), and
   * otherwise it is the text between the first `open` and the first `close`
   * after it, which holds no `close`.
   */
  lemma BetweenCases(body: string, open: string, close: string)
    requires close != []
    ensures var r := Between(body, open, close);
      && (r == Missing <==> forall i :: !OccursAt(body, open, i))
      && (r == Unterminated <==>
            IndexOf(body, open) != -1 && forall i :: IndexOf(body, open) <= i ==> !OccursAt(body, close, i))
      && (r.Inverted? ==>
            var p := IndexOf(body, open);
            && r.low == |open| > r.high
            && OccursAt(body, close, p + r.high)
            && forall i :: p <= i < p + r.high ==> !OccursAt(body, close, i))
      && (r.Found? ==>
            var p := IndexOf(body, open);
            var q := p + |open| + |r.text|;
            && OccursAt(body, open, p)
            && OccursAt(body, close, q)
            && body[p + |open|..q] == r.text
            && (forall i :: p <= i < q ==> !OccursAt(body, close, i))
            && (forall i :: !OccursAt(r.text, close, i)))
  {
    BetweenEnds(body, open, close);
    BetweenInverted(body, open, close);
    BetweenFound(body, open, close);
  }

  /** The first two clauses of `BetweenCases`: when the slice is missing or unterminated. */
  lemma BetweenEnds(body: string, open: string, close: string)
    requires close != []
    ensures var r := Between(body, open, close);
      && (r == Missing <==> forall i :: !OccursAt(body, open, i))
      && (r == Unterminated <==>
            IndexOf(body, open) != -1 && forall i :: IndexOf(body, open) <= i ==> !OccursAt(body, close, i))
  {
    var p := IndexOf(body, open);
    if p != -1 {
      CloseAfter(body, close, p, IndexOf(body[p..], close));
    }
  }

  /** The third clause of `BetweenCases`: where the closing marker of an inverted slice lies. */
  lemma BetweenInverted(body: string, open: string, close: string)
    requires close != []
    ensures var r := Between(body, open, close);
      r.Inverted? ==>
        var p := IndexOf(body, open);
        && r.low == |open| > r.high
        && OccursAt(body, close, p + r.high)
        && forall i :: p <= i < p + r.high ==> !OccursAt(body, close, i)
  {
    var p := IndexOf(body, open);
    if p != -1 {
      CloseAfter(body, close, p, IndexOf(body[p..], close));
    }
  }

  /** The last clause of `BetweenCases`: what a found slice is. */
  lemma BetweenFound(body: string, open: string, close: string)
    requires close != []
    ensures var r := Between(body, open, close);
      r.Found? ==>
        var p := IndexOf(body, open);
        var q := p + |open| + |r.text|;
        && OccursAt(body, open, p)
        && OccursAt(body, close, q)
        && body[p + |open|..q] == r.text
        && (forall i :: p <= i < q ==> !OccursAt(body, close, i))
        && (forall i :: !OccursAt(r.text, close, i))
  {
    var p := IndexOf(body, open);
    if p != -1 {
      var e := IndexOf(body[p..], close);
      CloseAfter(body, close, p, e);
      if |open| <= e {
        var t := body[p..][|open|..e];
        assert Between(body, open, close) == Found(t);
        FoundFacts(body, open, close, p, e, t);
      }
    }
  }

  /** Where the first `close` of the suffix `body[p..]` lies, stated on `body` itself. */
  lemma CloseAfter(body: string, close: string, p: nat, e: int)
    requires p <= |body| && e == IndexOf(body[p..], close)
    ensures e == -1 ==> forall i :: p <= i ==> !OccursAt(body, close, i)
    ensures e != -1 ==> OccursAt(body, close, p + e) && forall i :: p <= i < p + e ==> !OccursAt(body, close, i)
  {
    if e == -1 {
      forall i | p <= i ensures !OccursAt(body, close, i) {
        OccursInSuffix(body, close, p, i - p);
      }
    } else {
      OccursInSuffix(body, close, p, e);
      forall i | p <= i < p + e ensures !OccursAt(body, close, i) {
        OccursInSuffix(body, close, p, i - p);
      }
    }
  }

  /** The first `open` in `body` has a `close` after it and none beginning inside it. */
  ghost predicate SliceTaken(body: string, open: string, close: string) {
    var p := IndexOf(body, open);
    && p != -1
    && (forall i :: p <= i < p + |open| ==> !OccursAt(body, close, i))
    && exists j :: p + |open| <= j && OccursAt(body, close, j)
  }

  /**
   * Which of the two remaining outcomes occurs: the slice is found exactly
   * when a `close` follows the first `open` and none begins inside it, and
   * inverted exactly when one begins inside it.
   */
  lemma BetweenOverlap(body: string, open: string, close: string)
    requires close != []
    ensures var p, r := IndexOf(body, open), Between(body, open, close);
      && (r.Found? <==> SliceTaken(body, open, close))
      && (r.Inverted? <==> p != -1 && exists j :: p <= j < p + |open| && OccursAt(body, close, j))
  {
    BetweenCases(body, open, close);
    var p, r := IndexOf(body, open), Between(body, open, close);
    if r.Found? {
      assert OccursAt(body, close, p + |open| + |r.text|);
    } else if r.Inverted? {
      assert OccursAt(body, close, p + r.high);
    }
  }

  /** The facts about a successful slice, proved from the first-occurrence property of `IndexOf`. */
  lemma FoundFacts(body: string, open: string, close: string, p: nat, e: nat, t: string)
    requires close != []
    requires p == IndexOf(body, open) && p + |open| <= |body|
    requires OccursAt(body, open, p)
    requires e == IndexOf(body[p..], close) && |open| <= e
    requires t == body[p..][|open|..e]
    requires OccursAt(body, close, p + e)
    ensures OccursAt(body, close, p + |open| + |t|)
    ensures body[p + |open|..p + |open| + |t|] == t
    ensures forall i :: p <= i < p + |open| + |t| ==> !OccursAt(body, close, i)
    ensures forall i :: !OccursAt(t, close, i)
  {
    var rest := body[p..];
    assert |t| == e - |open|;
    assert body[p + |open|..p + |open| + |t|] == t;
    forall i | p <= i < p + |open| + |t| ensures !OccursAt(body, close, i) {
      OccursInSuffix(body, close, p, i - p);
    }
    forall i | OccursAt(t, close, i) ensures false {
      OccursInSlice(rest, close, |open|, e, i);
    }
  }

  /** The Go runtime's message for the slice `s[low:high]` with `low > high`. */
  function SlicePanic(low: nat, high: nat): Failure {
    Panic("runtime error: slice bounds out of range [" + FormatInt(low) + ":" + FormatInt(high) + "]")
  }

  /**
   * `extractCSRFToken`: the value of the hidden `_csrf` input of the sign-in
   * page. Fails when the input is absent or never closed, and panics when the
   * closing `" />` overlaps the quote that ends the opening fragment.
   */
  function ExtractCSRFToken(body: string): Result<string> {
    match Between(body, CsrfStart, CsrfEnd)
    case Missing => Err(Error("CSRF token not found"))
    case Unterminated => Err(Error("invalid CSRF token end"))
    case Inverted(low, high) => Err(SlicePanic(low, high))
    case Found(token) => Ok(token)
  }

  /**
   * The CSRF scraper reports "CSRF token not found" exactly when the opening
   * fragment is absent, "invalid CSRF token end" exactly when no closing
   * marker follows its first occurrence, and panics exactly when a closing
   * marker begins inside that occurrence. Otherwise it returns the text
   * between the fragment and the first closing marker after it.
   */
  lemma CsrfTokenCases(body: string)
    ensures var r := ExtractCSRFToken(body);
      && (r == Err(Error("CSRF token not found")) <==> forall i :: !OccursAt(body, CsrfStart, i))
      && (r == Err(Error("invalid CSRF token end")) <==>
            IndexOf(body, CsrfStart) != -1 && forall i :: IndexOf(body, CsrfStart) <= i ==> !OccursAt(body, CsrfEnd, i))
      && (r.Err? && r.failure.Panic? <==>
            var p := IndexOf(body, CsrfStart);
            p != -1 && exists j :: p <= j < p + |CsrfStart| && OccursAt(body, CsrfEnd, j))
      && (r.Ok? <==> SliceTaken(body, CsrfStart, CsrfEnd))
      && (r.Ok? ==>
            var p := IndexOf(body, CsrfStart);
            && OccursAt(body, CsrfStart, p)
            && OccursAt(body, r.value + CsrfEnd, p + |CsrfStart|)
            && forall i :: !OccursAt(r.value, CsrfEnd, i))
  {
    BetweenCases(body, CsrfStart, CsrfEnd);
    BetweenOverlap(body, CsrfStart, CsrfEnd);
    if ExtractCSRFToken(body).Ok? {
      CsrfTokenFound(body);
    }
  }

  /** A token that was found sits right after the opening fragment and is followed by the closing marker. */
  lemma CsrfTokenFound(body: string)
    requires Between(body, CsrfStart, CsrfEnd).Found?
    ensures var p, t := IndexOf(body, CsrfStart), Between(body, CsrfStart, CsrfEnd).text;
      OccursAt(body, CsrfStart, p) && OccursAt(body, t + CsrfEnd, p + |CsrfStart|)
  {
    BetweenCases(body, CsrfStart, CsrfEnd);
    var p, t := IndexOf(body, CsrfStart), Between(body, CsrfStart, CsrfEnd).text;
    ConcatOccurs(body, t, CsrfEnd, p + |CsrfStart|);
  }

  /** `t` followed by `u` occurs at `i` when `t` does and `u` occurs right after it. */
  lemma ConcatOccurs(s: string, t: string, u: string, i: nat)
    requires i + |t| <= |s| && s[i..i + |t|] == t && OccursAt(s, u, i + |t|)
    ensures OccursAt(s, t + u, i)
  {
    assert s[i..i + |t + u|] == s[i..i + |t|] + s[i + |t|..i + |t| + |u|];
  }

  /** `strings.Replace(s, "\\", "", -1)`: `s` with every backslash deleted. */
  function StripBackslashes(s: string): string {
    if s == [] then []
    else if s[0] == '\\' then StripBackslashes(s[1..]) else [s[0]] + StripBackslashes(s[1..])
  }

  /** Deleting backslashes leaves none, and keeps every other character as often as it occurred. */
  lemma {:induction false} StripBackslashesDeletes(s: string)
    ensures '\\' !in StripBackslashes(s)
    ensures forall c :: c != '\\' ==> multiset(StripBackslashes(s))[c] == multiset(s)[c]
  {
    if s != [] {
      assert s == [s[0]] + s[1..];
      StripBackslashesDeletes(s[1..]);
    }
  }

  /** Deleting backslashes keeps the order of what remains and changes nothing when there is none. */
  lemma {:induction false} StripBackslashesIdentity(s: string)
    requires '\\' !in s
    ensures StripBackslashes(s) == s
  {
    if s != [] {
      assert s[0] in s;
      assert forall c :: c in s[1..] ==> c in s;
      StripBackslashesIdentity(s[1..]);
    }
  }

  /** Deleting backslashes works piece by piece: what remains of `a + b` is what remains of `a`, then of `b`, in order. */
  lemma {:induction false} StripBackslashesConcat(a: string, b: string)
    ensures StripBackslashes(a + b) == StripBackslashes(a) + StripBackslashes(b)
  {
    if a == [] {
      assert a + b == b;
    } else {
      assert (a + b)[0] == a[0] && (a + b)[1..] == a[1..] + b;
      StripBackslashesConcat(a[1..], b);
    }
  }

  /**
   * `extractSocialProfile`: the JSON text passed to `JSON.parse` for the
   * `window.VIEWER_SOCIAL_PROFILE` assignment, with its backslashes deleted.
   * Same not-found, unterminated and panic cases as the CSRF scraper.
   */
  function ExtractSocialProfile(body: string): Result<string> {
    match Between(body, ProfileStart, ProfileEnd)
    case Missing => Err(Error("social profile not found"))
    case Unterminated => Err(Error("invalid social profile end"))
    case Inverted(low, high) => Err(SlicePanic(low, high))
    case Found(text) => Ok(StripBackslashes(text))
  }

  /**
   * The profile scraper reports "social profile not found" exactly when the
   * assignment is absent, "invalid social profile end" exactly when no `");`
   * follows it, and panics exactly when a `");` begins inside the
   * assignment's text. It returns a profile exactly when a `");` follows
   * the assignment and none begins inside it: the text between them with no
   * backslash left in it.
   */
  lemma SocialProfileCases(body: string)
    ensures var r := ExtractSocialProfile(body);
      && (r == Err(Error("social profile not found")) <==> forall i :: !OccursAt(body, ProfileStart, i))
      && (r == Err(Error("invalid social profile end")) <==>
            IndexOf(body, ProfileStart) != -1 && forall i :: IndexOf(body, ProfileStart) <= i ==> !OccursAt(body, ProfileEnd, i))
      && (r.Err? && r.failure.Panic? <==>
            var p := IndexOf(body, ProfileStart);
            p != -1 && exists j :: p <= j < p + |ProfileStart| && OccursAt(body, ProfileEnd, j))
      && (r.Ok? <==> SliceTaken(body, ProfileStart, ProfileEnd))
      && (r.Ok? ==>
            && '\\' !in r.value
            && Between(body, ProfileStart, ProfileEnd).Found?
            && r.value == StripBackslashes(Between(body, ProfileStart, ProfileEnd).text))
  {
    BetweenCases(body, ProfileStart, ProfileEnd);
    BetweenOverlap(body, ProfileStart, ProfileEnd);
    if ExtractSocialProfile(body).Ok? {
      StripBackslashesDeletes(Between(body, ProfileStart, ProfileEnd).text);
    }
  }

  /**
   * A sign-in page whose `_csrf` fragment is followed directly by ` />` makes
   * the closing marker overlap the fragment's final quote: the slice bounds
   * are inverted and the scraper panics instead of returning an error.
   */
  lemma CsrfOverlapPanics()
    ensures ExtractCSRFToken(CsrfStart + " />").Err?
    ensures ExtractCSRFToken(CsrfStart + " />").failure.Panic?
  {
    var body := CsrfStart + " />";
    assert OccursAt(body, CsrfStart, 0);
    assert IndexOf(body, CsrfStart) == 0;
    assert body[0..] == body;
    assert OccursAt(body, CsrfEnd, |CsrfStart| - 1);
    var e := IndexOf(body, CsrfEnd);
    assert e != -1 && e <= |CsrfStart| - 1;
  }
}
