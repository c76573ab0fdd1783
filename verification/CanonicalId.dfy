/**
  CanonicalVideoID of url.go over an already parsed URL.
 */
module CanonicalId {
  import opened Options
  import opened Text

  /** The parts of url.URL that matter; `bare` is its text without query and fragment, `v` its first v parameter. */
  datatype Url = Url(host: string, path: string, v: string, bare: string)

  function Lower(c: char): char {
    if 'A' <= c <= 'Z' then (c as int + 32) as char else c
  }

  /** strings.ToLower on ASCII. */
  function ToLower(s: string): (r: string)
    ensures |r| == |s| && forall i | 0 <= i < |s| :: r[i] == Lower(s[i])
  {
    seq(|s|, i requires 0 <= i < |s| => Lower(s[i]))
  }

  predicate OccursAt(s: string, sub: string, i: nat) {
    i + |sub| <= |s| && s[i..i + |sub|] == sub
  }

  predicate Contains(s: string, sub: string) {
    exists i: nat | i <= |s| :: OccursAt(s, sub, i)
  }

  function DropTrailingSlashes(s: string): string {
    if s != "" && s[|s| - 1] == '/' then DropTrailingSlashes(s[..|s| - 1]) else s
  }

  /** What follows the last slash. */
  function LastElement(s: string): string {
    if s == "" || s[|s| - 1] == '/' then "" else LastElement(s[..|s| - 1]) + [s[|s| - 1]]
  }

  /** path.Base. */
  function Base(path: string): string {
    if path == "" then "." else
      var p := DropTrailingSlashes(path);
      if p == "" then "/" else LastElement(p)
  }

  function TrimLeadingSlashes(s: string): string {
    if s != "" && s[0] == '/' then TrimLeadingSlashes(s[1..]) else s
  }

  /** strings.Trim(s, "/"). */
  function TrimSlashes(s: string): string {
    DropTrailingSlashes(TrimLeadingSlashes(s))
  }

  predicate OnYouTube(u: Url) {
    Contains(ToLower(u.host), "youtube.com")
  }

  predicate OnShortener(u: Url) {
    Contains(ToLower(u.host), "youtu.be")
  }

  function CanonicalOf(u: Url): string {
    if OnYouTube(u) && u.v != "" then "yt:" + u.v
    else if OnYouTube(u) && "/shorts/" <= ToLower(u.path) then "yt:" + Base(u.path)
    else if OnShortener(u) && TrimSlashes(Base(u.path)) != "" then "yt:" + TrimSlashes(Base(u.path))
    else u.bare
  }

  /** CanonicalVideoID; `parsed` is the outcome of url.Parse on the trimmed text. */
  function CanonicalVideoID(raw: string, parsed: Option<Url>): string {
    if TrimSpace(raw) == "" || parsed.None? then TrimSpace(raw) else CanonicalOf(parsed.value)
  }

  predicate AllSlashes(s: string) {
    forall i | 0 <= i < |s| :: s[i] == '/'
  }

  // --------------------------------------------------- what path.Base computes

  /** `id` is the part of the path between its last slash, trailing ones apart, and its end. */
  predicate NamesElement(path: string, id: string, from: nat, to: nat) {
    && from < to <= |path| && path[from..to] == id && '/' !in id
    && (from == 0 || path[from - 1] == '/') && AllSlashes(path[to..])
  }

  /** The last element of a path; an empty path has ".", and one of slashes only has "/". */
  ghost predicate IsLastElement(path: string, id: string) {
    if path == "" then id == "."
    else if AllSlashes(path) then id == "/"
    else exists from: nat, to: nat :: NamesElement(path, id, from, to)
  }

  lemma {:induction false} DroppedSlashes(s: string) returns (k: nat)
    ensures k <= |s| && DropTrailingSlashes(s) == s[..k] && AllSlashes(s[k..])
    ensures k == 0 || s[k - 1] != '/'
    decreases |s|
  {
    k := |s|;
    if s != "" && s[|s| - 1] == '/' {
      k := DroppedSlashes(s[..|s| - 1]);
      assert s[..|s| - 1][..k] == s[..k];
      assert forall i | k <= i < |s| - 1 :: s[i] == s[..|s| - 1][k..][i - k];
    }
  }

  lemma {:induction false} LastElementIs(s: string) returns (from: nat)
    ensures from <= |s| && LastElement(s) == s[from..] && '/' !in s[from..]
    ensures from == 0 || s[from - 1] == '/'
    decreases |s|
  {
    from := |s|;
    if s != "" && s[|s| - 1] != '/' {
      var n := |s| - 1;
      from := LastElementIs(s[..n]);
      assert s[from..] == s[..n][from..] + [s[n]];
    }
  }

  lemma ElementUnique(path: string, id: string, id': string, from: nat, to: nat, from': nat, to': nat)
    requires NamesElement(path, id, from, to) && NamesElement(path, id', from', to')
    ensures id == id'
  {
    assert forall i | to <= i < |path| :: path[i] == path[to..][i - to];
    assert forall i | to' <= i < |path| :: path[i] == path[to'..][i - to'];
    assert forall i | from <= i < to :: path[i] == id[i - from] && id[i - from] != '/';
    assert forall i | from' <= i < to' :: path[i] == id'[i - from'] && id'[i - from'] != '/';
    assert path[to - 1] != '/' && path[to' - 1] != '/';
    assert to == to' && from == from';
  }

  /** path.Base returns the last element, and nothing else is one. */
  lemma BaseIsLastElement(path: string, id: string)
    ensures Base(path) == id <==> IsLastElement(path, id)
  {
    if path != "" {
      var k := DroppedSlashes(path);
      if k == 0 {
        assert path[0..] == path;
      } else {
        assert !AllSlashes(path);
        var from := LastElementIs(path[..k]);
        assert path[..k][from..] == path[from..k];
        assert path[k - 1] != '/' ==> from < k;
        assert NamesElement(path, Base(path), from, k);
        if IsLastElement(path, id) {
          var f: nat, t: nat :| NamesElement(path, id, f, t);
          ElementUnique(path, id, Base(path), f, t, from, k);
        }
      }
    }
  }

  lemma TrimOfElement(id: string)
    ensures '/' !in id ==> TrimSlashes(id) == id
    ensures id == "/" ==> TrimSlashes(id) == ""
  {
    if id != "" && '/' !in id {
      assert id[0] in id && id[|id| - 1] in id;
    }
    if id == "/" {
      assert id[1..] == "";
      assert TrimLeadingSlashes(id) == "";
    }
  }

  // -------------------------------------------------------------- which video?

  /** What the URL says about its video: the v parameter, else the last element of a shorts or short path. */
  ghost predicate NamesVideo(u: Url, id: string) {
    || (OnYouTube(u) && u.v != "" && id == u.v)
    || (OnYouTube(u) && u.v == "" && "/shorts/" <= ToLower(u.path) && IsLastElement(u.path, id))
    || (OnShortener(u) && !(OnYouTube(u) && (u.v != "" || "/shorts/" <= ToLower(u.path)))
        && id != "/" && IsLastElement(u.path, id))
  }

  lemma MarkedIdsDiffer(id: string, other: string)
    ensures "yt:" + other == "yt:" + id <==> other == id
  {
    assert ("yt:" + other)[3..] == other && ("yt:" + id)[3..] == id;
  }

  lemma ElementHasNoSlash(path: string, id: string)
    requires IsLastElement(path, id)
    ensures id != "" && (id == "/" || '/' !in id)
  {
  }

  /** The canonical id of a URL that names a video is that video's, and that of any other URL is its bare text. */
  lemma CanonicalOfExact(u: Url, id: string)
    ensures NamesVideo(u, id) ==> CanonicalOf(u) == "yt:" + id
    ensures (forall other :: !NamesVideo(u, other)) ==> CanonicalOf(u) == u.bare
  {
    BaseIsLastElement(u.path, id);
    BaseIsLastElement(u.path, Base(u.path));
    ElementHasNoSlash(u.path, Base(u.path));
    TrimOfElement(Base(u.path));
    if CanonicalOf(u) != u.bare {
      assert NamesVideo(u, if OnYouTube(u) && u.v != "" then u.v else Base(u.path));
    }
  }

  /**
    CanonicalVideoID, exactly: a text that does not parse is only trimmed, a URL that names a video
    gets the id of that video alone, and any other its bare text.
   */
  lemma CanonicalVideoIDExact(raw: string, parsed: Option<Url>, id: string)
    ensures var c := CanonicalVideoID(raw, parsed);
      if TrimSpace(raw) == "" || parsed.None? then c == TrimSpace(raw)
      else if exists other :: NamesVideo(parsed.value, other) then c == "yt:" + id <==> NamesVideo(parsed.value, id)
      else c == parsed.value.bare
  {
    if TrimSpace(raw) != "" && parsed.Some? {
      var u := parsed.value;
      CanonicalOfExact(u, id);
      if other :| NamesVideo(u, other) {
        CanonicalOfExact(u, other);
        MarkedIdsDiffer(id, other);
      }
    }
  }

  predicate WatchUrl(u: Url, id: string) {
    OnYouTube(u) && u.v == id
  }

  predicate ShortsUrl(u: Url, id: string) {
    OnYouTube(u) && u.v == "" && exists n: nat | n <= |u.path| :: AllSlashes(u.path[n..]) && u.path[..n] == "/shorts/" + id
  }

  predicate ShortUrl(u: Url, id: string) {
    OnShortener(u) && !OnYouTube(u) && exists n: nat | n <= |u.path| :: AllSlashes(u.path[n..]) && u.path[..n] == "/" + id
  }

  lemma LowerKeepsPrefix(path: string, prefix: string)
    requires prefix <= path && forall i | 0 <= i < |prefix| :: Lower(prefix[i]) == prefix[i]
    ensures prefix <= ToLower(path)
  {
    forall i | 0 <= i < |prefix| ensures ToLower(path)[i] == prefix[i] {
      assert path[i] == prefix[i];
    }
  }

  /** An id behind a prefix that ends in a slash, and before slashes only, is the last element. */
  lemma IdIsLastElement(path: string, prefix: string, id: string, n: nat)
    requires id != "" && '/' !in id && prefix != "" && prefix[|prefix| - 1] == '/'
    requires n <= |path| && path[..n] == prefix + id && AllSlashes(path[n..])
    ensures IsLastElement(path, id) && prefix <= path
  {
    assert path[..|prefix|] == path[..n][..|prefix|] == prefix;
    assert path[|prefix| - 1] == path[..n][|prefix| - 1] == '/';
    assert path[|prefix|..n] == path[..n][|prefix|..] == id;
    assert path[|prefix|] == id[0] && id[0] in id;
    assert NamesElement(path, id, |prefix|, n);
  }

  lemma ShortsNamesVideo(u: Url, id: string)
    requires id != "" && '/' !in id && ShortsUrl(u, id)
    ensures NamesVideo(u, id)
  {
    var n :| 0 <= n <= |u.path| && AllSlashes(u.path[n..]) && u.path[..n] == "/shorts/" + id;
    IdIsLastElement(u.path, "/shorts/", id, n);
    LowerKeepsPrefix(u.path, "/shorts/");
  }

  lemma ShortLinkNamesVideo(u: Url, id: string)
    requires id != "" && '/' !in id && ShortUrl(u, id)
    ensures NamesVideo(u, id)
  {
    var n :| 0 <= n <= |u.path| && AllSlashes(u.path[n..]) && u.path[..n] == "/" + id;
    IdIsLastElement(u.path, "/", id, n);
    assert id[0] != '/';
  }

  /**
    The three shapes of URL that name one video share one canonical id, trailing slashes or
    not, and different videos have different ones; so a video has one asset, whatever link is used.
   */
  lemma ShapesOfOneVideo(u: Url, id: string)
    requires id != "" && '/' !in id && (WatchUrl(u, id) || ShortsUrl(u, id) || ShortUrl(u, id))
    ensures forall other :: CanonicalOf(u) == "yt:" + other <==> other == id
  {
    if ShortsUrl(u, id) {
      ShortsNamesVideo(u, id);
    } else if ShortUrl(u, id) {
      ShortLinkNamesVideo(u, id);
    }
    CanonicalOfExact(u, id);
    forall other ensures "yt:" + other == "yt:" + id <==> other == id {
      MarkedIdsDiffer(id, other);
    }
  }

  // ------------------------------------------------------------- which hosts?

  lemma ContainsExact(s: string, sub: string)
    ensures Contains(s, sub) <==> exists a, b :: s == a + sub + b
  {
    if Contains(s, sub) {
      var i: nat :| i <= |s| && OccursAt(s, sub, i);
      assert s == s[..i] + sub + s[i + |sub|..];
    }
    if a, b :| s == a + sub + b {
      assert s[|a|..|a| + |sub|] == sub;
      assert OccursAt(s, sub, |a|);
    }
  }

  /** Upper-case ASCII letters get the lower-case letter of the same place in the alphabet; the rest stays. */
  lemma LowerExact(c: char)
    ensures 'A' <= c <= 'Z' ==> 'a' <= Lower(c) <= 'z' && Lower(c) as int - 'a' as int == c as int - 'A' as int
    ensures c < 'A' || 'Z' < c ==> Lower(c) == c
  {
  }

  /** A v parameter at any host that contains youtube.com, in whatever case, is the video. */
  lemma WatchId(u: Url, a: string, b: string)
    requires ToLower(u.host) == a + "youtube.com" + b && u.v != ""
    ensures forall id :: CanonicalOf(u) == "yt:" + id <==> id == u.v
  {
    ContainsExact(ToLower(u.host), "youtube.com");
    forall id ensures "yt:" + id == "yt:" + u.v <==> id == u.v {
      MarkedIdsDiffer(u.v, id);
    }
  }

  /** Without one, a path under /shorts/ at such a host names it by its last element. */
  lemma ShortsId(u: Url, a: string, b: string, id: string)
    requires ToLower(u.host) == a + "youtube.com" + b && u.v == ""
    requires "/shorts/" <= ToLower(u.path) && IsLastElement(u.path, id)
    ensures CanonicalOf(u) == "yt:" + id
  {
    ContainsExact(ToLower(u.host), "youtube.com");
    BaseIsLastElement(u.path, id);
  }

  /** At a host that contains youtu.be and not youtube.com, any last element but a bare slash names it. */
  lemma ShortLinkId(u: Url, a: string, b: string, id: string)
    requires ToLower(u.host) == a + "youtu.be" + b && forall c, d :: ToLower(u.host) != c + "youtube.com" + d
    requires IsLastElement(u.path, id)
    ensures CanonicalOf(u) == if id == "/" then u.bare else "yt:" + id
  {
    ContainsExact(ToLower(u.host), "youtu.be");
    ContainsExact(ToLower(u.host), "youtube.com");
    BaseIsLastElement(u.path, id);
    ElementHasNoSlash(u.path, id);
    TrimOfElement(id);
  }

  /** And without either, a youtube.com page has no id but its bare text. */
  lemma PlainPageId(u: Url)
    requires u.v == "" && !("/shorts/" <= ToLower(u.path)) && forall a, b :: ToLower(u.host) != a + "youtu.be" + b
    ensures CanonicalOf(u) == u.bare
  {
    ContainsExact(ToLower(u.host), "youtu.be");
  }

  /** At any other host the whole bare text is the id. */
  lemma OtherHostId(u: Url)
    requires forall a, b :: ToLower(u.host) != a + "youtube.com" + b
    requires forall a, b :: ToLower(u.host) != a + "youtu.be" + b
    ensures CanonicalOf(u) == u.bare
  {
    ContainsExact(ToLower(u.host), "youtube.com");
    ContainsExact(ToLower(u.host), "youtu.be");
  }

  /** White space around the text makes no difference. */
  lemma CanonicalIgnoresSpace(a: string, raw: string, b: string, parsed: Option<Url>)
    requires AllSpace(a) && AllSpace(b)
    ensures CanonicalVideoID(a + raw + b, parsed) == CanonicalVideoID(raw, parsed)
  {
    SpaceIsIgnored(a, raw, b);
  }
}
