/**
 * The two string validators of the web app: the upload extension filter and the
 * YouTube id extractor, whose regular expression is written out as a search over
 * start positions.
 */
module Validators {
  import opened Wrappers
  import opened Text

  // ---------------------------------------------------------------- allowed_file

  /** The accepted upload extensions. */
  const AllowedExtensions: set<string> := {"mp4", "avi", "mov", "mkv"}

  /** The index of the last '.' of a string, if it has one. */
  function LastDot(s: string): (r: Option<nat>)
    ensures r.None? <==> forall j :: 0 <= j < |s| ==> s[j] != '.'
    ensures r.Some? ==> r.value < |s| && s[r.value] == '.'
                        && forall j :: r.value < j < |s| ==> s[j] != '.'
  {
    if s == [] then None
    else if s[|s| - 1] == '.' then Some(|s| - 1)
    else
      var r := LastDot(s[..|s| - 1]);
      assert forall j :: 0 <= j < |s| - 1 ==> s[..|s| - 1][j] == s[j];
      r
  }

  /**
   * `allowed_file`: the name holds a '.', and the text after the last '.', lower-cased,
   * is an accepted extension.
   */
  function AllowedFile(filename: string): (ok: bool)
    ensures ok ==> 4 <= |filename| && filename[|filename| - 4] == '.' && Lower(filename[|filename| - 3..]) in AllowedExtensions
  {
    match LastDot(filename)
    case None => false
    case Some(i) => Lower(filename[i + 1..]) in AllowedExtensions
  }

  /** A name without a '.' is refused. */
  lemma AllowedFileNeedsDot(filename: string)
    requires forall j :: 0 <= j < |filename| ==> filename[j] != '.'
    ensures !AllowedFile(filename)
  {
  }

  /**
   * Every name with a '.' splits as stem + "." + ext with no '.' in ext, and it is
   * accepted exactly when ext, lower-cased, is one of the four extensions, whatever the stem.
   */
  lemma AllowedFileByExtension(stem: string, ext: string)
    requires forall j :: 0 <= j < |ext| ==> ext[j] != '.'
    ensures AllowedFile(stem + "." + ext) <==> Lower(ext) in AllowedExtensions
  {
    var name := stem + "." + ext;
    assert name[|stem|] == '.';
    assert forall j :: |stem| < j < |name| ==> name[j] == ext[j - |stem| - 1];
    var d := LastDot(name);
    assert d == Some(|stem|);
    assert name[|stem| + 1..] == ext;
  }

  /** Only the last extension counts: "clip.mp4.exe" is refused. */
  lemma AllowedFileLastExtension()
    ensures !AllowedFile("clip.mp4.exe")
  {
    AllowedFileByExtension("clip.mp4", "exe");
    assert "clip.mp4" + "." + "exe" == "clip.mp4.exe";
    assert Lower("exe") == "exe";
  }

  /** The extension is compared lower-cased: "Match.MP4" is accepted. */
  lemma AllowedFileIgnoresCase()
    ensures AllowedFile("Match.MP4")
  {
    AllowedFileByExtension("Match", "MP4");
    assert "Match" + "." + "MP4" == "Match.MP4";
    assert Lower("MP4") == "mp4";
  }

  // ---------------------------------------------------------------- yt_id

  /** The four alternatives before the id, in the order the pattern tries them. */
  const Prefixes: seq<string> := ["youtu.be/", "youtube.com/watch?v=", "youtube.com/embed/", "youtube.com/shorts/"]

  /** The character class `[A-Za-z0-9_-]`. */
  predicate IdChar(c: char) {
    ('A' <= c <= 'Z') || ('a' <= c <= 'z') || ('0' <= c <= '9') || c == '_' || c == '-'
  }

  /** The length of the longest run of id characters at the start of a string. */
  function IdRun(s: string): (n: nat)
    ensures n <= |s|
    ensures forall j :: 0 <= j < n ==> IdChar(s[j])
    ensures n < |s| ==> !IdChar(s[n])
  {
    if s != [] && IdChar(s[0]) then
      var n := 1 + IdRun(s[1..]);
      assert forall j :: 1 <= j < n ==> s[j] == s[1..][j - 1];
      n
    else 0
  }

  /** The id a match starting with one of `prefixes` at the front of `s` captures: the greedy run, if it is at least six long. */
  function MatchPrefixes(s: string, prefixes: seq<string>): (r: Option<string>)
    ensures r.Some? ==> 6 <= |r.value| && (forall j :: 0 <= j < |r.value| ==> IdChar(r.value[j]))
                        && exists k :: 0 <= k < |prefixes| && StartsWith(s, prefixes[k] + r.value)
  {
    if prefixes == [] then None
    else
      var p := prefixes[0];
      if StartsWith(s, p) && IdRun(s[|p|..]) >= 6 then
        var id := s[|p|..][..IdRun(s[|p|..])];
        assert s[..|p + id|] == p + id;
        Some(id)
      else
        var r := MatchPrefixes(s, prefixes[1..]);
        assert forall k :: 0 <= k < |prefixes| - 1 ==> prefixes[1..][k] == prefixes[k + 1];
        r
  }

  /** Whether the pattern matches at position `i` of `url`, and the id it captures. */
  function MatchAt(url: string, i: nat): Option<string>
    requires i <= |url|
  {
    MatchPrefixes(url[i..], Prefixes)
  }

  /** The search from position `i` on: the capture of the leftmost position that matches. */
  function SearchFrom(url: string, i: nat): (r: Option<string>)
    requires i <= |url|
    ensures r.Some? ==> exists m :: i <= m <= |url| && MatchAt(url, m) == r
                          && forall j :: i <= j < m ==> MatchAt(url, j).None?
    ensures r.Some? ==> 6 <= |r.value| && forall j :: 0 <= j < |r.value| ==> IdChar(r.value[j])
    ensures r.None? <==> forall j :: i <= j <= |url| ==> MatchAt(url, j).None?
    decreases |url| - i
  {
    var here := MatchAt(url, i);
    if here.Some? then here
    else if i == |url| then None
    else SearchFrom(url, i + 1)
  }

  /** `yt_id`: the captured id of the leftmost match, or nothing when the pattern matches nowhere. */
  function YtId(url: string): (r: Option<string>)
    ensures r.None? <==> forall j :: 0 <= j <= |url| ==> MatchAt(url, j).None?
    ensures r.Some? ==> 6 <= |r.value| && forall j :: 0 <= j < |r.value| ==> IdChar(r.value[j])
  {
    SearchFrom(url, 0)
  }

  /** ... and that run follows one of the four prefixes in the url. */
  lemma YtIdFollowsPrefix(url: string)
    requires YtId(url).Some?
    ensures exists k :: 0 <= k < |Prefixes| && Contains(url, Prefixes[k] + YtId(url).value)
  {
    var id := YtId(url).value;
    var m :| 0 <= m <= |url| && MatchAt(url, m) == YtId(url);
    var k :| 0 <= k < |Prefixes| && StartsWith(url[m..], Prefixes[k] + id);
    SuffixPrefixIsContained(url, m, Prefixes[k] + id);
  }

  /** A run of id characters followed by a non-id character (or the end) is exactly one run. */
  lemma {:induction false} IdRunOfId(id: string, rest: string)
    requires forall j :: 0 <= j < |id| ==> IdChar(id[j])
    requires rest == [] || !IdChar(rest[0])
    ensures IdRun(id + rest) == |id|
  {
    if id != [] {
      assert (id + rest)[0] == id[0];
      assert (id + rest)[1..] == id[1..] + rest;
      IdRunOfId(id[1..], rest);
    } else {
      assert id + rest == rest;
    }
  }

  /** The alternatives are tried in order: the first one that starts `s` and is followed by six id characters wins. */
  lemma {:induction false} MatchPrefixesAt(s: string, prefixes: seq<string>, k: nat)
    requires k < |prefixes|
    requires forall j :: 0 <= j < k ==> !StartsWith(s, prefixes[j])
    requires StartsWith(s, prefixes[k]) && IdRun(s[|prefixes[k]|..]) >= 6
    ensures MatchPrefixes(s, prefixes) == Some(s[|prefixes[k]|..][..IdRun(s[|prefixes[k]|..])])
  {
    if k > 0 {
      MatchPrefixesAt(s, prefixes[1..], k - 1);
    }
  }

  /** No alternative tried before the k-th one starts a string that the k-th one starts. */
  lemma EarlierPrefixesFail(url: string, k: nat)
    requires k < |Prefixes| && StartsWith(url, Prefixes[k])
    ensures forall j :: 0 <= j < k ==> !StartsWith(url, Prefixes[j])
  {
    var p := Prefixes[k];
    assert url[..|p|] == p;
    forall j | 0 <= j < k
      ensures !StartsWith(url, Prefixes[j])
    {
      if j == 0 {
        assert url[5] == p[5];
      } else {
        assert url[12] == p[12];
      }
    }
  }

  /** The pattern matches at the start of such a url and captures exactly the id. */
  lemma MatchAtStart(k: nat, id: string, rest: string)
    requires k < |Prefixes|
    requires 6 <= |id| && forall j :: 0 <= j < |id| ==> IdChar(id[j])
    requires rest == [] || !IdChar(rest[0])
    ensures MatchPrefixes(Prefixes[k] + id + rest, Prefixes) == Some(id)
  {
    var p := Prefixes[k];
    var url := p + id + rest;
    assert url == p + (id + rest);
    assert url[|p|..] == id + rest;
    assert url[..|p|] == p;
    IdRunOfId(id, rest);
    assert (id + rest)[..|id|] == id;
    EarlierPrefixesFail(url, k);
    MatchPrefixesAt(url, Prefixes, k);
  }

  /**
   * A url that starts with one of the prefixes and an id of at least six id characters
   * (ended by the end of the url or a non-id character) yields that id.
   */
  lemma YtIdRoundTrip(k: nat, id: string, rest: string)
    requires k < |Prefixes|
    requires 6 <= |id| && forall j :: 0 <= j < |id| ==> IdChar(id[j])
    requires rest == [] || !IdChar(rest[0])
    ensures YtId(Prefixes[k] + id + rest) == Some(id)
  {
    var url := Prefixes[k] + id + rest;
    MatchAtStart(k, id, rest);
    assert url[0..] == url;
  }
}
