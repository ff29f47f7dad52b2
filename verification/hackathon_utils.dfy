/** The Hackathon helper functions: file kinds, e-mail and video-link checks. */
module HackathonUtils {
  import opened Wrappers
  import opened Strings

  // ------------------------------------------------------------ file names

  /**
   * `filename.split('.').pop()?.toLowerCase() || ''`: the lower-cased text
   * after the last dot, empty for a name ending in a dot, and the whole
   * name lower-cased when it has no dot.
   */
  function FileExtension(filename: string): (ext: string)
    ensures forall k | 0 <= k < |filename| && filename[k] == '.' && (forall j | k < j < |filename| :: filename[j] != '.') ::
              ext == LowerStr(filename[k + 1..])
    ensures |filename| > 0 && filename[|filename| - 1] == '.' ==> ext == ""
    ensures (forall j | 0 <= j < |filename| :: filename[j] != '.') ==> ext == LowerStr(filename)
  {
    var parts := Split(filename, ".");
    assert "." == ['.'];
    forall k | 0 <= k < |filename| && filename[k] == '.' && (forall j | k < j < |filename| :: filename[j] != '.')
      ensures parts[|parts| - 1] == filename[k + 1..]
    {
      LastPiece(filename, '.', k);
    }
    assert (forall j | 0 <= j < |filename| :: filename[j] != '.') ==> parts == [filename] by {
      if forall j | 0 <= j < |filename| :: filename[j] != '.' {
        NoPiecesWithout(filename, '.');
      }
    }
    LowerStr(parts[|parts| - 1])
  }

  const ImageExtensions := ["jpg", "jpeg", "png", "gif", "webp", "svg"]
  const VideoExtensions := ["mp4", "avi", "mov", "wmv", "flv", "webm"]
  const AudioExtensions := ["mp3", "wav", "ogg", "aac", "flac"]
  const DocumentExtensions := ["pdf", "doc", "docx", "ppt", "pptx", "xls", "xlsx", "txt"]

  predicate IsImageFile(filename: string) { FileExtension(filename) in ImageExtensions }
  predicate IsVideoFile(filename: string) { FileExtension(filename) in VideoExtensions }
  predicate IsAudioFile(filename: string) { FileExtension(filename) in AudioExtensions }
  predicate IsDocumentFile(filename: string) { FileExtension(filename) in DocumentExtensions }

  /** The four extension lists share no entry, so a file is of at most one kind. */
  lemma AtMostOneKind(filename: string)
    ensures IsImageFile(filename) ==> !IsVideoFile(filename) && !IsAudioFile(filename) && !IsDocumentFile(filename)
    ensures IsVideoFile(filename) ==> !IsAudioFile(filename) && !IsDocumentFile(filename)
    ensures IsAudioFile(filename) ==> !IsDocumentFile(filename)
  {
    KindsDisjoint(FileExtension(filename));
  }

  /** No extension is on two of the lists. */
  lemma KindsDisjoint(ext: string)
    ensures ext in ImageExtensions ==> ext !in VideoExtensions && ext !in AudioExtensions && ext !in DocumentExtensions
    ensures ext in VideoExtensions ==> ext !in AudioExtensions && ext !in DocumentExtensions
    ensures ext in AudioExtensions ==> ext !in DocumentExtensions
  {
  }

  // ------------------------------------------------------------ e-mail

  /** A character of the class `[^\s@]`. */
  predicate IsPlain(c: char) { !IsSpace(c) && c != '@' }

  predicate AllPlain(s: string) { forall i :: 0 <= i < |s| ==> IsPlain(s[i]) }

  /**
   * `/^[^\s@]+@[^\s@]+\.[^\s@]+$/.test(s)`: a plain run, '@' at `a`, a
   * plain run, '.' at `d`, a plain run.
   */
  predicate IsValidEmail(s: string) {
    exists a, d | 0 < a && a + 1 < d < |s| - 1 ::
      s[a] == '@' && s[d] == '.' && AllPlain(s[..a]) && AllPlain(s[a + 1..d]) && AllPlain(s[d + 1..])
  }

  /** The address read as a whole: no blank, one '@' after a non-empty local part, an inner dot after it. */
  predicate EmailShape(s: string) {
    (forall i :: 0 <= i < |s| ==> !IsSpace(s[i]))
    && exists a | 0 < a < |s| ::
         s[a] == '@'
         && (forall i :: 0 <= i < |s| && s[i] == '@' ==> i == a)
         && exists d | a + 1 < d < |s| - 1 :: s[d] == '.'
  }

  /** A match of the pattern has the shape. */
  lemma ValidEmailHasShape(s: string)
    requires IsValidEmail(s)
    ensures EmailShape(s)
  {
    var a, d :| 0 < a && a + 1 < d < |s| - 1 && s[a] == '@' && s[d] == '.'
      && AllPlain(s[..a]) && AllPlain(s[a + 1..d]) && AllPlain(s[d + 1..]);
    forall i | 0 <= i < |s| && i != a ensures IsPlain(s[i]) {
      if i < a { assert s[..a][i] == s[i]; }
      else if i < d { assert s[a + 1..d][i - a - 1] == s[i]; }
      else if i > d { assert s[d + 1..][i - d - 1] == s[i]; }
    }
    assert s[a] == '@' && (forall i :: 0 <= i < |s| && s[i] == '@' ==> i == a);
  }

  /** An address of that shape matches the pattern. */
  lemma ShapeIsValidEmail(s: string)
    requires EmailShape(s)
    ensures IsValidEmail(s)
  {
    var a :| 0 < a < |s| && s[a] == '@'
      && (forall i :: 0 <= i < |s| && s[i] == '@' ==> i == a)
      && exists d | a + 1 < d < |s| - 1 :: s[d] == '.';
    var d :| a + 1 < d < |s| - 1 && s[d] == '.';
    assert AllPlain(s[..a]);
    assert AllPlain(s[a + 1..d]);
    assert AllPlain(s[d + 1..]);
  }

  /** The pattern accepts exactly the addresses of that shape. */
  lemma EmailCharacterised(s: string)
    ensures IsValidEmail(s) <==> EmailShape(s)
  {
    if IsValidEmail(s) {
      ValidEmailHasShape(s);
    }
    if EmailShape(s) {
      ShapeIsValidEmail(s);
    }
  }

  // ------------------------------------------------------------ video links

  const VideoPrefixes: seq<string> := ["youtube.com/watch?v=", "youtu.be/", "youtube.com/embed/"]

  /** A character of the class `[^&\n?#]`. */
  predicate IsIdChar(c: char) { c != '&' && c != '\n' && c != '?' && c != '#' }

  /** The capture when the pattern is tried at `j`, alternatives from `k` on in order. */
  function MatchFrom(s: string, j: nat, k: nat): (r: Option<string>)
    requires j <= |s|
    decreases |VideoPrefixes| - k
    ensures r.Some? ==> |r.value| > 0 && forall c :: 0 <= c < |r.value| ==> IsIdChar(r.value[c])
  {
    if k >= |VideoPrefixes| then None
    else
      var p := VideoPrefixes[k];
      if OccursAt(s, p, j) && RunLength(s[j + |p|..], IsIdChar) > 0 then
        Some(s[j + |p|..][..RunLength(s[j + |p|..], IsIdChar)])
      else MatchFrom(s, j, k + 1)
  }

  /** The capture when the pattern is tried at `j`; nothing past the end. */
  function MatchAt(s: string, j: nat): (r: Option<string>)
    ensures r.Some? ==> j <= |s| && |r.value| > 0 && forall c :: 0 <= c < |r.value| ==> IsIdChar(r.value[c])
  {
    if j > |s| then None else MatchFrom(s, j, 0)
  }

  /** `m` at the first position from `i` to `n` where it gives a value. */
  function Leftmost<T>(n: nat, i: nat, m: nat -> Option<T>): Option<T>
    decreases n - i
  {
    if i > n then None
    else match m(i)
      case Some(v) => Some(v)
      case None => Leftmost(n, i + 1, m)
  }

  /** `Leftmost` finds nothing exactly when no position gives a value, and otherwise the first that does. */
  lemma {:induction false} LeftmostIsFirst<T>(n: nat, i: nat, m: nat -> Option<T>)
    decreases n - i
    ensures Leftmost(n, i, m).None? <==> forall j :: i <= j <= n ==> m(j).None?
    ensures Leftmost(n, i, m).Some? ==>
              exists j :: i <= j <= n && m(j) == Leftmost(n, i, m) && forall j' :: i <= j' < j ==> m(j').None?
  {
    if i <= n && m(i).None? {
      LeftmostIsFirst(n, i + 1, m);
      if Leftmost(n, i, m).Some? {
        var j :| i + 1 <= j <= n && m(j) == Leftmost(n, i + 1, m)
                 && forall j' :: i + 1 <= j' < j ==> m(j').None?;
        assert forall j' :: i <= j' < j ==> m(j').None?;
      }
    }
  }

  /** `url.match(regex)?.[1] ?? null`: the capture at the leftmost matching position. */
  function ExtractYouTubeId(url: string): (r: Option<string>)
    ensures r.None? <==> forall j :: 0 <= j <= |url| ==> MatchAt(url, j).None?
    ensures r.Some? ==> exists j :: 0 <= j <= |url| && MatchAt(url, j) == r
                         && forall j' :: 0 <= j' < j ==> MatchAt(url, j').None?
  {
    var m := (j: nat) => MatchAt(url, j);
    assert forall j: nat :: m(j) == MatchAt(url, j);
    LeftmostIsFirst(|url|, 0, m);
    Leftmost(|url|, 0, m)
  }

  /** An extracted id is non-empty and holds none of '&', '?', '#' or a line break. */
  lemma ExtractedIdChars(url: string)
    ensures ExtractYouTubeId(url).Some? ==>
              var id := ExtractYouTubeId(url).value;
              |id| > 0 && forall c :: 0 <= c < |id| ==> IsIdChar(id[c])
  {
    if ExtractYouTubeId(url).Some? {
      var j :| 0 <= j <= |url| && MatchAt(url, j) == ExtractYouTubeId(url);
    }
  }

  /** After a prefix, the capture of an id followed by the end or a delimiter is the id. */
  lemma CaptureAfter(p: string, id: string, tail: string)
    requires forall c :: 0 <= c < |id| ==> IsIdChar(id[c])
    requires tail == [] || !IsIdChar(tail[0])
    ensures OccursAt(p + id + tail, p, 0)
    ensures (p + id + tail)[|p|..] == id + tail
    ensures RunLength(id + tail, IsIdChar) == |id| && (id + tail)[..|id|] == id
  {
    var s := p + id + tail;
    assert s[..|p|] == p;
    assert s[|p|..] == id + tail;
    var n := RunLength(id + tail, IsIdChar);
    assert forall c :: 0 <= c < |id| ==> (id + tail)[c] == id[c];
    assert tail != [] ==> (id + tail)[|id|] == tail[0];
  }

  /** A text that starts with `q` does not start with a `p` that differs from `q` at `c`. */
  lemma NotBoth(s: string, p: string, q: string, c: nat)
    requires OccursAt(s, q, 0) && c < |p| && c < |q| && p[c] != q[c]
    ensures !OccursAt(s, p, 0)
  {
    assert s[..|q|][c] == s[c];
  }

  /** A bare link followed by the end or a delimiter yields its id. */
  lemma LinkRoundTrip(k: nat, id: string, tail: string)
    requires k < |VideoPrefixes| && |id| > 0
    requires forall c :: 0 <= c < |id| ==> IsIdChar(id[c])
    requires tail == [] || !IsIdChar(tail[0])
    ensures ExtractYouTubeId(VideoPrefixes[k] + id + tail) == Some(id)
  {
    var p := VideoPrefixes[k];
    var s := p + id + tail;
    CaptureAfter(p, id, tail);
    // "youtube.com/watch?v=" and "youtu.be/" differ at index 5, the two youtube.com forms at index 12.
    if k == 1 {
      NotBoth(s, VideoPrefixes[0], p, 5);
    } else if k == 2 {
      NotBoth(s, VideoPrefixes[0], p, 12);
      NotBoth(s, VideoPrefixes[1], p, 5);
    }
    assert MatchFrom(s, 0, k) == Some(id);
    assert MatchAt(s, 0) == Some(id);
  }

  // ------------------------------------------------------------ constants

  /** The placeholder contrast computation: the WCAG AA threshold for every pair. */
  function ContrastRatio(foreground: string, background: string): (r: real)
    ensures r == 4.5
  {
    4.5
  }

  /**
   * `formatFileSize`, up to its logarithm branch: `Some` for the text it
   * returns, `None` where the result comes from a floating-point logarithm.
   */
  function FormatFileSize(bytes: nat): (r: Option<string>)
    ensures r == Some("0 Bytes") <==> bytes == 0
  {
    if bytes == 0 then Some("0 Bytes") else None
  }
}
