/**
 * The two POSIX path helpers the downloader calls: `os.path.splitext`, which the
 * MP3 pass uses to name the converted file, and `os.path.join`, which places the
 * output template inside the chosen directory.
 */
module Paths {
  import opened Text

  /**
   * Index `i` starts the extension of `p`: it holds a dot, no dot or slash comes
   * after it, and the last path component has a character other than a dot
   * before it (so the dots leading a name such as ".profile" never start one).
   */
  predicate ExtensionAt(p: string, i: int) {
    0 <= i < |p| && p[i] == '.'
    && (forall k :: i < k < |p| ==> p[k] != '.' && p[k] != '/')
    && exists k :: 0 <= k < i && p[k] != '.' && NoSlashBetween(p, k, i)
  }

  predicate NoSlashBetween(p: string, lo: int, hi: int)
    requires 0 <= lo <= hi <= |p|
  {
    forall m :: lo <= m < hi ==> p[m] != '/'
  }

  /** Some character of `p` at an index in `lo..hi` is not a dot. */
  predicate HasNonDotBetween(p: string, lo: int, hi: int) {
    exists k :: lo <= k < hi && 0 <= k < |p| && p[k] != '.'
  }

  /** An extension, when there is one, starts at the last dot, after the last slash. */
  lemma ExtensionIsLastDot(p: string, i: int)
    requires ExtensionAt(p, i)
    ensures i == RFind(p, '.') && RFind(p, '/') < i
    ensures HasNonDotBetween(p, RFind(p, '/') + 1, i)
  {
    var k :| 0 <= k < i && p[k] != '.' && NoSlashBetween(p, k, i);
    var sep := RFind(p, '/');
    assert p[k] != '.' && sep < k by {
      assert forall m :: k <= m < |p| ==> p[m] != '/';
    }
  }

  /** `os.path.splitext(p)` on POSIX: the root and the extension, which concatenate to `p`. */
  function SplitExt(p: string): (r: (string, string))
    ensures r.0 + r.1 == p
    ensures r.1 != [] <==> exists i :: ExtensionAt(p, i)
    ensures r.1 != [] ==> ExtensionAt(p, |r.0|)
  {
    var sepIndex := RFind(p, '/');
    var dotIndex := RFind(p, '.');
    if dotIndex > sepIndex && HasNonDotBetween(p, sepIndex + 1, dotIndex) then
      var k :| sepIndex + 1 <= k < dotIndex && 0 <= k < |p| && p[k] != '.';
      assert NoSlashBetween(p, k, dotIndex);
      assert ExtensionAt(p, dotIndex);
      (p[..dotIndex], p[dotIndex..])
    else
      assert forall i :: ExtensionAt(p, i) ==> false by {
        forall i | ExtensionAt(p, i) ensures false {
          ExtensionIsLastDot(p, i);
        }
      }
      (p, [])
  }

  /**
   * `s.endswith('.mp3')`, written out character by character (case-sensitive, as
   * Python compares).
   */
  predicate IsMp3Name(s: string) {
    |s| >= 4 && s[|s| - 4] == '.' && s[|s| - 3] == 'm' && s[|s| - 2] == 'p' && s[|s| - 1] == '3'
  }

  /** The character-by-character test is `endswith` for the suffix ".mp3". */
  lemma IsMp3NameIsEndsWith(s: string)
    ensures IsMp3Name(s) <==> EndsWith(s, ".mp3")
  {
    var suffix := ".mp3";
    assert suffix[0] == '.' && suffix[1] == 'm' && suffix[2] == 'p' && suffix[3] == '3';
    if IsMp3Name(s) {
      forall k | 0 <= k < 4 ensures s[|s| - 4 + k] == suffix[k] {
      }
    }
    if EndsWith(s, suffix) {
      assert s[|s| - 4 + 0] == suffix[0] && s[|s| - 4 + 1] == suffix[1];
      assert s[|s| - 4 + 2] == suffix[2] && s[|s| - 4 + 3] == suffix[3];
    }
  }

  /**
   * The target of the MP3 conversion: `os.path.splitext(p)[0] + '.mp3'`. It always
   * ends in ".mp3", and it differs from `p` whenever `p` does not, so removing the
   * source after the export never removes the converted file.
   */
  function Mp3Path(p: string): (r: string)
    ensures IsMp3Name(r)
    ensures !IsMp3Name(p) ==> r != p
  {
    var parts := SplitExt(p);
    assert parts.0 + ".mp3" == p ==> parts.1 == ".mp3";
    parts.0 + ".mp3"
  }

  /** The extension, when there is one, is what ".mp3" replaces. */
  lemma Mp3PathReplacesExtension(p: string, i: int)
    requires ExtensionAt(p, i)
    ensures Mp3Path(p) == p[..i] + ".mp3"
  {
    ExtensionIsLastDot(p, i);
    assert |SplitExt(p).0| == i;
  }

  /** Without an extension, ".mp3" is appended to the whole path. */
  lemma Mp3PathAppendsWithoutExtension(p: string)
    requires forall i :: !ExtensionAt(p, i)
    ensures Mp3Path(p) == p + ".mp3"
  {
  }

  /**
   * `os.path.join(a, b)` on POSIX for two components: an absolute `b` replaces `a`;
   * otherwise `b` follows `a`, with one slash added between them unless `a` is
   * empty or already ends in a slash.
   */
  function Join(a: string, b: string): (r: string)
    ensures EndsWith(r, b)
    ensures b != [] && b[0] == '/' ==> r == b
    ensures (b == [] || b[0] != '/') ==> |a| + |b| <= |r| && r[..|a|] == a
    ensures (b == [] || b[0] != '/') && a != [] ==> r[|r| - |b| - 1] == '/'
    ensures (b == [] || b[0] != '/') && (a == [] || EndsWith(a, "/")) ==> r == a + b
    ensures (b == [] || b[0] != '/') && a != [] && !EndsWith(a, "/") ==> r == a + "/" + b
  {
    if b != [] && b[0] == '/' then b
    else if a == [] || a[|a| - 1] == '/' then a + b
    else a + "/" + b
  }
}
