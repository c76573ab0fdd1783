/**
  The key that identifies a converted variant, and the file names built from hashes.
 */
module VariantKey {
  import opened Text
  import opened ClipBounds

  /** The parameters of a convert request. */
  datatype Clip = Clip(quality: string, start: string, end: string)

  /** asset|quality|start|end, the text that is hashed into the variant hash. */
  function Key(asset: string, c: Clip): string {
    asset + "|" + c.quality + "|" + c.start + "|" + c.end
  }

  predicate IsHexDigit(c: char) {
    '0' <= c <= '9' || 'a' <= c <= 'f'
  }

  /** hex.EncodeToString of a SHA-1 sum. */
  predicate IsDigest(s: string) {
    |s| == 40 && forall i | 0 <= i < 40 :: IsHexDigit(s[i])
  }

  /** The bounds of the clip passed ParseClipBounds for some video length. */
  predicate Readable(c: Clip) {
    Seconds(c.start).Some? && Seconds(c.end).Some?
  }

  lemma ReadableByCheck(c: Clip, maxSeconds: int, total: int)
    ensures ParseClipBounds(c.start, c.end, maxSeconds, total).Some? ==> Readable(c)
  {
  }

  lemma NoSeparatorAfter(a: string, b: string, i: int)
    requires '|' !in b && |a| < i <= |a| + |b|
    ensures (a + "|" + b)[i] != '|'
  {
    assert (a + "|" + b)[i] == b[i - |a| - 1];
  }

  /** The tail of a text after its last separator is determined by the text. */
  lemma LastFieldUnique(a: string, b: string, a': string, b': string)
    requires a + "|" + b == a' + "|" + b' && '|' !in b && '|' !in b'
    ensures a == a' && b == b'
  {
    var t := a + "|" + b;
    assert t[|a|] == '|' && t[|a'|] == '|';
    assert |t| == |a| + 1 + |b| == |a'| + 1 + |b'|;
    var n, n' := |a|, |a'|;
    if n < n' {
      NoSeparatorAfter(a, b, n');
    }
    if n' < n {
      NoSeparatorAfter(a', b', n);
    }
    assert a == t[..|a|] && a' == t[..|a'|];
    assert b == t[|a| + 1..] && b' == t[|a'| + 1..];
  }

  lemma FirstFieldUnique(a: string, q: string, a': string, q': string)
    requires |a| == |a'| && a + "|" + q == a' + "|" + q'
    ensures a == a' && q == q'
  {
    var t := a + "|" + q;
    assert a == t[..|a|] && a' == t[..|a'|];
    assert q == t[|a| + 1..] && q' == t[|a'| + 1..];
  }

  /** Neither bound contains the separator of the key. */
  predicate Unseparated(c: Clip) {
    '|' !in c.start && '|' !in c.end
  }

  lemma ReadableIsUnseparated(c: Clip)
    requires Readable(c)
    ensures Unseparated(c)
  {
    AcceptedTextIsClock(c.start);
    AcceptedTextIsClock(c.end);
    assert !ClockChar('|');
  }

  /**
    The key determines all four fields, whatever the quality text contains: the asset hash has
    a fixed length, and accepted bounds contain no separator.
   */
  lemma KeyIsInjective(asset: string, c: Clip, asset': string, c': Clip)
    requires |asset| == |asset'| && Readable(c) && Readable(c')
    ensures Key(asset, c) == Key(asset', c') ==> asset == asset' && c == c'
  {
    ReadableIsUnseparated(c);
    ReadableIsUnseparated(c');
    if Key(asset, c) == Key(asset', c') {
      SplitKeys(asset, c, asset', c');
    }
  }

  lemma SplitKeys(asset: string, c: Clip, asset': string, c': Clip)
    requires |asset| == |asset'| && Key(asset, c) == Key(asset', c')
    requires Unseparated(c) && Unseparated(c')
    ensures asset == asset' && c == c'
  {
    LastFieldUnique(asset + "|" + c.quality + "|" + c.start, c.end,
                    asset' + "|" + c'.quality + "|" + c'.start, c'.end);
    LastFieldUnique(asset + "|" + c.quality, c.start, asset' + "|" + c'.quality, c'.start);
    FirstFieldUnique(asset, c.quality, asset', c'.quality);
  }

  /** A separator in a bound would break this: two different requests with one key. */
  lemma BoundsMatter()
    ensures exists a, c, c' :: c != c' && Key(a, c) == Key(a, c')
  {
    var c, c' := Clip("x|y", "z", ""), Clip("x", "y|z", "");
    assert Key("", c) == "|x|y|z|" == Key("", c');
  }

  /** An empty path, a source under streams/ or an output under outputs/, each named after a hash. */
  datatype Path = NoPath | Source(hash: string) | Output(hash: string)

  /** filepath.Join on clean parts. */
  function Render(dir: string, p: Path): string {
    match p
    case NoPath => ""
    case Source(h) => dir + "/streams/" + h + ".source"
    case Output(v) => dir + "/outputs/" + v + ".mp3"
  }

  lemma FrameUnique(prefix: string, h: string, h': string, suffix: string)
    requires prefix + h + suffix == prefix + h' + suffix
    ensures h == h'
  {
    var t := prefix + h + suffix;
    assert |h| == |h'|;
    assert h == t[|prefix|..|prefix| + |h|];
    assert h' == t[|prefix|..|prefix| + |h'|];
  }

  lemma FoldersDiffer(dir: string, h: string, v: string)
    ensures Render(dir, Source(h)) != Render(dir, Output(v))
  {
    var p, q := Render(dir, Source(h)), Render(dir, Output(v));
    assert p == dir + ("/streams/" + h + ".source") && q == dir + ("/outputs/" + v + ".mp3");
    assert p[|dir| + 1] == 's' && q[|dir| + 1] == 'o';
  }

  /** Different paths are different files. */
  lemma RenderIsInjective(dir: string, p: Path, q: Path)
    ensures Render(dir, p) == Render(dir, q) ==> p == q
  {
    match (p, q)
    case (Source(h), Source(h')) =>
      if Render(dir, p) == Render(dir, q) {
        FrameUnique(dir + "/streams/", h, h', ".source");
      }
    case (Output(v), Output(v')) =>
      if Render(dir, p) == Render(dir, q) {
        FrameUnique(dir + "/outputs/", v, v', ".mp3");
      }
    case (Source(h), Output(v)) => FoldersDiffer(dir, h, v);
    case (Output(v), Source(h)) => FoldersDiffer(dir, h, v);
    case _ =>
  }
}
