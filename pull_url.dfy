/** The link check at the head of `verify` (src/verify.js:7-9): the anchored pattern
      ^https://github.com/([\w-]+)/([\w-]+)/pull/(\d+)$
    written out as a matcher. The `.` of "github.com" is not escaped, so it stands for
    any one character other than a line terminator. The pattern has no `u` flag, so
    it runs over UTF-16 code units: a character outside the Basic Multilingual Plane
    takes two units and cannot be matched by the single `.`. */
module PullUrl {
  import opened Wrappers

  /** The three capture groups. The pull number stays text: it is only spliced into
      the API path. */
  datatype PullRef = PullRef(owner: string, repo: string, number: string)

  /** `[\w-]`: ASCII letter, digit, underscore or hyphen. */
  predicate IsWordChar(c: char)
  {
    'a' <= c <= 'z' || 'A' <= c <= 'Z' || '0' <= c <= '9' || c == '_' || c == '-'
  }

  /** `\d`: an ASCII digit. */
  predicate IsDigit(c: char)
  {
    '0' <= c <= '9'
  }

  /** `.` without the `s` and `u` flags: one UTF-16 unit that is not a line terminator. */
  predicate IsDotChar(c: char)
  {
    c != '\n' && c != '\r' && c != '\U{2028}' && c != '\U{2029}' && c as int < 0x1_0000
  }

  predicate AllWordChars(s: string)
  {
    forall i :: 0 <= i < |s| ==> IsWordChar(s[i])
  }

  predicate AllDigits(s: string)
  {
    forall i :: 0 <= i < |s| ==> IsDigit(s[i])
  }

  /** What the three groups can hold: `+` makes each non-empty. */
  predicate WellFormed(r: PullRef)
  {
    && |r.owner| > 0 && AllWordChars(r.owner)
    && |r.repo| > 0 && AllWordChars(r.repo)
    && |r.number| > 0 && AllDigits(r.number)
  }

  /** The fixed head of a match, given the character standing for the `.`. */
  function HostPrefix(dot: char): string
  {
    "https://github" + [dot] + "com/"
  }

  /** The part after the head: owner, repository and pull number. */
  function PathOf(r: PullRef): string
  {
    r.owner + ("/" + (r.repo + ("/pull/" + r.number)))
  }

  /** The text the pattern matches for given groups. */
  function Render(dot: char, r: PullRef): string
  {
    HostPrefix(dot) + PathOf(r)
  }

  /** Reference meaning of "the pattern matches the whole link". */
  ghost predicate IsPullUrl(url: string)
  {
    exists dot, r :: IsDotChar(dot) && WellFormed(r) && url == Render(dot, r)
  }

  /** Length of the longest prefix of `[\w-]` characters (the greedy `[\w-]+`). */
  function WordRun(s: string): (n: nat)
    ensures n <= |s|
    ensures forall i :: 0 <= i < n ==> IsWordChar(s[i])
    ensures n < |s| ==> !IsWordChar(s[n])
    decreases |s|
  {
    if |s| == 0 || !IsWordChar(s[0]) then 0 else 1 + WordRun(s[1..])
  }

  /** The matcher: `Some` of the capture groups, or `None` where `url.match` gives `null`.
      Neither group can contain `/`, so taking the longest run is the only way to match. */
  function Parse(url: string): Option<PullRef>
  {
    if |url| < 19 || !IsDotChar(url[14]) || url[..19] != HostPrefix(url[14]) then None
    else ParsePath(url[19..])
  }

  /** `([\w-]+)/` followed by the rest of the path. */
  function ParsePath(path: string): Option<PullRef>
  {
    var o := WordRun(path);
    if o == 0 || o == |path| || path[o] != '/' then None
    else ParseRest(path[..o], path[o + 1..])
  }

  /** `([\w-]+)/pull/(\d+)$`, the owner already matched. */
  function ParseRest(owner: string, tail: string): Option<PullRef>
  {
    var p := WordRun(tail);
    var after := tail[p..];
    if p == 0 || |after| < 7 || after[..6] != "/pull/" || !AllDigits(after[6..]) then None
    else Some(PullRef(owner, tail[..p], after[6..]))
  }

  lemma HostPrefixShape(dot: char)
    ensures |HostPrefix(dot)| == 19 && HostPrefix(dot)[14] == dot
  {
  }

  lemma ParseRestSound(owner: string, tail: string, r: PullRef)
    requires ParseRest(owner, tail) == Some(r)
    ensures r.owner == owner && |r.repo| > 0 && AllWordChars(r.repo) && |r.number| > 0 && AllDigits(r.number)
    ensures tail == r.repo + ("/pull/" + r.number)
  {
    var p := WordRun(tail);
    var after := tail[p..];
    assert after == "/pull/" + after[6..];
    assert tail == tail[..p] + after;
  }

  lemma ParsePathSound(path: string, r: PullRef)
    requires ParsePath(path) == Some(r)
    ensures WellFormed(r) && path == PathOf(r)
  {
    var o := WordRun(path);
    var owner, tail := path[..o], path[o + 1..];
    assert AllWordChars(owner) by {
      forall k | 0 <= k < |owner| ensures IsWordChar(owner[k]) {
        assert owner[k] == path[k];
      }
    }
    assert path == owner + ("/" + tail);
    ParseRestSound(owner, tail, r);
  }

  /** Whatever the matcher accepts is a link of the pattern's shape, rebuilt from its groups. */
  lemma ParseSound(url: string)
    requires Parse(url).Some?
    ensures |url| > 14 && IsDotChar(url[14])
    ensures WellFormed(Parse(url).value)
    ensures url == Render(url[14], Parse(url).value)
  {
    ParsePathSound(url[19..], Parse(url).value);
    assert url == url[..19] + url[19..];
  }

  /** A greedy run stops exactly at the first non-word character. */
  lemma WordRunStops(a: string, b: string)
    requires AllWordChars(a)
    requires |b| > 0 && !IsWordChar(b[0])
    ensures WordRun(a + b) == |a|
  {
    var s := a + b;
    assert s[|a|] == b[0];
    assert forall i :: 0 <= i < |a| ==> s[i] == a[i];
  }

  lemma ParseRestComplete(r: PullRef)
    requires WellFormed(r)
    ensures ParseRest(r.owner, r.repo + ("/pull/" + r.number)) == Some(r)
  {
    var after := "/pull/" + r.number;
    var tail := r.repo + after;
    WordRunStops(r.repo, after);
    assert tail[..|r.repo|] == r.repo;
    assert tail[|r.repo|..] == after;
    assert after[..6] == "/pull/";
    assert after[6..] == r.number;
  }

  lemma ParsePathComplete(r: PullRef)
    requires WellFormed(r)
    ensures ParsePath(PathOf(r)) == Some(r)
  {
    var tail := r.repo + ("/pull/" + r.number);
    var path := PathOf(r);
    WordRunStops(r.owner, "/" + tail);
    assert path[..|r.owner|] == r.owner;
    assert path[|r.owner|] == '/';
    assert path[|r.owner| + 1..] == tail;
    ParseRestComplete(r);
  }

  /** Every link of the pattern's shape is accepted, with exactly its groups. */
  lemma ParseComplete(dot: char, r: PullRef)
    requires IsDotChar(dot) && WellFormed(r)
    ensures Parse(Render(dot, r)) == Some(r)
  {
    var url := Render(dot, r);
    HostPrefixShape(dot);
    assert url[..19] == HostPrefix(dot);
    assert url[19..] == PathOf(r);
    ParsePathComplete(r);
  }

  /** The matcher decides the pattern: it succeeds exactly on links of the pattern's shape. */
  lemma ParseIff(url: string)
    ensures Parse(url).Some? <==> IsPullUrl(url)
  {
    if Parse(url).Some? {
      ParseSound(url);
    }
    if IsPullUrl(url) {
      var dot, r :| IsDotChar(dot) && WellFormed(r) && url == Render(dot, r);
      ParseComplete(dot, r);
    }
  }
}
