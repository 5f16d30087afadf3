/**
 * `getYoutubeVideoInfo`: find the 11-character video id in a YouTube link
 * and build the watch and thumbnail URLs from it.
 *
 * The id is what the first capture of the pattern
 *   (?:youtube\.com\/(?:[^\/]+\/.+\/|(?:v|e(?:mbed)?)\/|.*[?&]v=)|youtu\.be\/)([^"&?\/ ]{11})
 * holds under JavaScript's matching rules: the leftmost position where the
 * pattern matches wins, alternatives are tried in order, and a greedy `.+`
 * or `.*` settles on the longest run (without line terminators) that lets
 * the rest match. Each branch is written as a search for that run.
 */
module VideoInfo {
  import opened Wrappers

  const IdLength: nat := 11
  const WatchPrefix: string := "https://www.youtube.com/watch?v="
  const ThumbnailPrefix: string := "https://img.youtube.com/vi/"
  const ThumbnailSuffix: string := "/mqdefault.jpg"

  /** `[^"&?\/ ]`. */
  predicate IdChar(c: char) {
    c != '"' && c != '&' && c != '?' && c != '/' && c != ' '
  }

  /** The characters `.` does not match. */
  predicate IsLineTerminator(c: char) {
    c == '\n' || c == '\r' || c == '\U{2028}' || c == '\U{2029}'
  }

  predicate ValidId(id: string) {
    |id| == IdLength && forall k | 0 <= k < |id| :: IdChar(id[k])
  }

  /** Eleven id characters start at `q`. */
  predicate IdAt(s: string, q: int) {
    0 <= q && q + IdLength <= |s| && forall k | q <= k < q + IdLength :: IdChar(s[k])
  }

  /** No line terminator in `s[i..j]`. */
  predicate NoTerminator(s: string, i: int, j: int)
    requires 0 <= i && j <= |s|
  {
    forall k | i <= k < j :: !IsLineTerminator(s[k])
  }

  /** The literal `lit` occurs at `p`. */
  predicate HasAt(s: string, p: int, lit: string) {
    0 <= p && p + |lit| <= |s| && s[p..p + |lit|] == lit
  }

  /** The first `/` at or after `i`. */
  function FirstSlash(s: string, i: int): (r: Option<int>)
    requires 0 <= i <= |s|
    ensures r.Some? ==> i <= r.value < |s| && s[r.value] == '/'
                        && forall k | i <= k < r.value :: s[k] != '/'
    ensures r.None? ==> forall k | i <= k < |s| :: s[k] != '/'
    decreases |s| - i
  {
    if i == |s| then None
    else if s[i] == '/' then Some(i)
    else FirstSlash(s, i + 1)
  }

  // ---------------------------------------------------------------------
  // `[^\/]+\/.+\/` followed by the id: `[^\/]+` can only stop at the first
  // slash, and the greedy `.+` then takes the last slash that an id follows.
  // ---------------------------------------------------------------------

  /** The id could start at `q` once the first slash is at `f`. */
  predicate PathOk(s: string, f: int, q: int) {
    && 0 <= f && f + 3 <= q && IdAt(s, q)
    && s[q - 1] == '/' && NoTerminator(s, f + 1, q - 1)
  }

  /** The largest `q` in `[f+3, top]` with `PathOk`. */
  function LastPath(s: string, f: int, top: int): (r: Option<int>)
    requires 0 <= f
    ensures r.Some? ==> f + 3 <= r.value <= top && PathOk(s, f, r.value)
                        && forall q | r.value < q <= top :: !PathOk(s, f, q)
    ensures r.None? ==> forall q | f + 3 <= q <= top :: !PathOk(s, f, q)
    decreases top - f
  {
    if top < f + 3 then None
    else if PathOk(s, f, top) then Some(top)
    else LastPath(s, f, top - 1)
  }

  function PathBranch(s: string, b: int): (r: Option<int>)
    requires 0 <= b <= |s|
    ensures r.Some? ==> IdAt(s, r.value)
  {
    var f := FirstSlash(s, b);
    if f.None? || f.value == b then None
    else LastPath(s, f.value, |s| - IdLength)
  }

  // ---------------------------------------------------------------------
  // `(?:v|e(?:mbed)?)\/` followed by the id.
  // ---------------------------------------------------------------------

  function PrefixBranch(s: string, b: int): (r: Option<int>)
    requires 0 <= b <= |s|
    ensures r.Some? ==> IdAt(s, r.value)
  {
    if HasAt(s, b, "v/") && IdAt(s, b + 2) then Some(b + 2)
    else if HasAt(s, b, "embed/") && IdAt(s, b + 6) then Some(b + 6)
    else if HasAt(s, b, "e/") && IdAt(s, b + 2) then Some(b + 2)
    else None
  }

  // ---------------------------------------------------------------------
  // `.*[?&]v=` followed by the id: the greedy `.*` takes the last `?v=` or
  // `&v=` that an id follows.
  // ---------------------------------------------------------------------

  /** A `?v=` or `&v=` at `e`, reachable from `b` without a line terminator, with an id after it. */
  predicate QueryOk(s: string, b: int, e: int) {
    && 0 <= b <= e && IdAt(s, e + 3)
    && (s[e] == '?' || s[e] == '&') && s[e + 1] == 'v' && s[e + 2] == '='
    && NoTerminator(s, b, e)
  }

  /** The largest `e` in `[b, top]` with `QueryOk`. */
  function LastQuery(s: string, b: int, top: int): (r: Option<int>)
    requires 0 <= b
    ensures r.Some? ==> b <= r.value <= top && QueryOk(s, b, r.value)
                        && forall e | r.value < e <= top :: !QueryOk(s, b, e)
    ensures r.None? ==> forall e | b <= e <= top :: !QueryOk(s, b, e)
    decreases top - b
  {
    if top < b then None
    else if QueryOk(s, b, top) then Some(top)
    else LastQuery(s, b, top - 1)
  }

  function QueryBranch(s: string, b: int): (r: Option<int>)
    requires 0 <= b <= |s|
    ensures r.Some? ==> IdAt(s, r.value)
  {
    var e := LastQuery(s, b, |s| - IdLength - 3);
    if e.None? then None else Some(e.value + 3)
  }

  // ---------------------------------------------------------------------
  // The whole pattern
  // ---------------------------------------------------------------------

  /** Where the id starts when the pattern matches at `p`, trying the alternatives in order. */
  function MatchAt(s: string, p: int): (r: Option<int>)
    requires 0 <= p <= |s|
    ensures r.Some? ==> IdAt(s, r.value)
  {
    if HasAt(s, p, "youtube.com/") then
      var b := p + 12;
      var path := PathBranch(s, b);
      if path.Some? then path
      else
        var prefix := PrefixBranch(s, b);
        if prefix.Some? then prefix else QueryBranch(s, b)
    else if HasAt(s, p, "youtu.be/") && IdAt(s, p + 9) then Some(p + 9)
    else None
  }

  /** The leftmost position at or after `i` where the pattern matches. */
  function FirstMatch(s: string, i: int): (r: Option<int>)
    requires 0 <= i <= |s|
    ensures r.Some? ==> i <= r.value <= |s| && MatchAt(s, r.value).Some?
                        && forall p | i <= p < r.value :: MatchAt(s, p).None?
    ensures r.None? ==> forall p | i <= p <= |s| :: MatchAt(s, p).None?
    decreases |s| - i
  {
    if MatchAt(s, i).Some? then Some(i)
    else if i == |s| then None
    else FirstMatch(s, i + 1)
  }

  /** The captured id, or nothing for a missing or empty URL and for no match. */
  function ExtractId(url: Option<string>): (r: Option<string>)
    ensures r.Some? ==> ValidId(r.value)
  {
    if url.None? || url.value == "" then None
    else
      var s := url.value;
      var p := FirstMatch(s, 0);
      if p.None? then None
      else
        var q := MatchAt(s, p.value).value;
        Some(s[q..q + IdLength])
  }

  datatype VideoLinks = VideoLinks(watchUrl: string, thumbnailUrl: string)

  function WatchUrl(id: string): string {
    WatchPrefix + id
  }

  function ThumbnailUrl(id: string): string {
    ThumbnailPrefix + id + ThumbnailSuffix
  }

  function GetYoutubeVideoInfo(url: Option<string>): Option<VideoLinks> {
    var id := ExtractId(url);
    if id.None? then None else Some(VideoLinks(WatchUrl(id.value), ThumbnailUrl(id.value)))
  }

  // ---------------------------------------------------------------------
  // Properties
  // ---------------------------------------------------------------------

  /** Both URLs carry the same valid id, at fixed places. */
  lemma LinksShareId(url: Option<string>)
    requires GetYoutubeVideoInfo(url).Some?
    ensures var links := GetYoutubeVideoInfo(url).value;
            var id := links.watchUrl[|WatchPrefix|..];
            && |links.watchUrl| == |WatchPrefix| + IdLength
            && links.watchUrl[..|WatchPrefix|] == WatchPrefix
            && ValidId(id)
            && links.thumbnailUrl == ThumbnailPrefix + id + ThumbnailSuffix
  {
    var id := ExtractId(url).value;
    assert (WatchPrefix + id)[|WatchPrefix|..] == id;
  }

  /** A position holding neither `y` of the two literal prefixes cannot start a match. */
  lemma NoMatchWithoutY(s: string, p: int)
    requires 0 <= p < |s| && s[p] != 'y'
    ensures MatchAt(s, p).None?
  {
    assert "youtube.com/"[0] == 'y' && "youtu.be/"[0] == 'y';
    assert !HasAt(s, p, "youtube.com/") && !HasAt(s, p, "youtu.be/");
  }

  /** Nothing matches inside `https://www.`. */
  lemma SkipHost(rest: string)
    ensures FirstMatch("https://www." + rest, 0) == FirstMatch("https://www." + rest, 12)
  {
    var host := "https://www.";
    var s := host + rest;
    forall p | 0 <= p < 12 ensures MatchAt(s, p).None? {
      assert s[p] == host[p];
      NoMatchWithoutY(s, p);
    }
    SkipNonMatches(s, 0, 12);
  }

  /** Positions without a match can be skipped. */
  lemma {:induction false} SkipNonMatches(s: string, i: int, j: int)
    requires 0 <= i <= j <= |s|
    requires forall p | i <= p < j :: MatchAt(s, p).None?
    ensures FirstMatch(s, i) == FirstMatch(s, j)
    decreases j - i
  {
    if i < j {
      SkipNonMatches(s, i + 1, j);
    }
  }

  /** The short link form yields its id. */
  lemma ShortLinkYieldsId(id: string)
    requires ValidId(id)
    ensures ExtractId(Some("youtu.be/" + id)) == Some(id)
  {
    var s := "youtu.be/" + id;
    assert s[5] == '.';
    assert !HasAt(s, 0, "youtube.com/");
    assert s[0..9] == "youtu.be/";
    assert IdAt(s, 9);
    assert MatchAt(s, 0) == Some(9);
    assert s[9..20] == id;
  }

  /** After the host, `youtube.com/embed/` followed by an id matches by the second branch. */
  lemma EmbedMatch(s: string, id: string)
    requires ValidId(id)
    requires s == "https://www." + ("youtube.com/" + ("embed/" + id))
    ensures MatchAt(s, 12) == Some(30) && s[30..41] == id
  {
    assert s[12..24] == "youtube.com/";
    assert s[29] == '/';
    assert forall k | 24 <= k < 29 :: s[k] != '/';
    assert FirstSlash(s, 24) == Some(29);
    assert PathBranch(s, 24).None?;
    assert !HasAt(s, 24, "v/");
    assert s[24..30] == "embed/";
    assert IdAt(s, 30);
    assert s[30..41] == id;
  }

  /** The embed form yields its id. */
  lemma EmbedLinkYieldsId(id: string)
    requires ValidId(id)
    ensures ExtractId(Some("https://www.youtube.com/embed/" + id)) == Some(id)
  {
    var s := "https://www." + ("youtube.com/" + ("embed/" + id));
    assert "https://www.youtube.com/embed/" + id == s;
    SkipHost("youtube.com/" + ("embed/" + id));
    EmbedMatch(s, id);
  }

  /** After the host, `youtube.com/watch?v=` followed by an id matches by the third branch. */
  lemma WatchMatch(s: string, id: string)
    requires ValidId(id)
    requires s == "https://www." + ("youtube.com/" + ("watch?v=" + id))
    ensures MatchAt(s, 12) == Some(32) && s[32..43] == id
  {
    assert s[12..24] == "youtube.com/";
    assert forall k | 24 <= k < |s| :: s[k] != '/';
    assert PathBranch(s, 24).None?;
    assert s[24] == 'w';
    assert "v/"[0] == 'v' && "embed/"[0] == 'e' && "e/"[0] == 'e';
    assert !HasAt(s, 24, "v/") && !HasAt(s, 24, "embed/") && !HasAt(s, 24, "e/");
    assert QueryOk(s, 24, 29);
    assert s[32..43] == id;
  }

  /** The watch URL the function builds yields its id. */
  lemma WatchUrlYieldsId(id: string)
    requires ValidId(id)
    ensures ExtractId(Some(WatchUrl(id))) == Some(id)
  {
    var s := "https://www." + ("youtube.com/" + ("watch?v=" + id));
    assert WatchUrl(id) == s;
    SkipHost("youtube.com/" + ("watch?v=" + id));
    WatchMatch(s, id);
  }

  /** Feeding the produced watch URL back in gives the same links. */
  lemma InfoIdempotent(url: Option<string>)
    requires GetYoutubeVideoInfo(url).Some?
    ensures GetYoutubeVideoInfo(Some(GetYoutubeVideoInfo(url).value.watchUrl)) == GetYoutubeVideoInfo(url)
  {
    WatchUrlYieldsId(ExtractId(url).value);
  }
}
