/**
 * Proof-of-concept collection of backend/internal/analyzer/poc.go: matching
 * rows of the Exploit-DB CSV index, the GitHub code-search loop with its
 * extension filter and 10-file cap, the `Link` header's "next" relation
 * (section 3 of RFC 8288), the rate-limit throttle, and the status handling
 * of a file download.
 */
module Poc {
  import opened Wrappers
  import opened Text

  /** One collected proof of concept. */
  datatype PoCData = PoCData(cveId: string, source: string, repoUrl: string, fileUrl: string, content: string)

  // ---------------------------------------------------------------------
  // fetchExploitDBPoC
  // ---------------------------------------------------------------------

  const ExploitDbRepoPrefix := "https://www.exploit-db.com/exploits/"
  const ExploitDbRawPrefix := "https://gitlab.com/exploit-database/exploitdb/-/raw/main/"
  const UnreadableFileContent := "[RETRY_REQUIRED: failed to read local file]"

  /** The CSV index as the reader delivered it. */
  datatype CsvFile = OpenFailed(openError: string) | Unreadable(readError: string) | Records(rows: seq<seq<string>>)

  /** Some entry, trimmed, is exactly the CVE id. */
  predicate SomeTrimmedIs(parts: seq<string>, cveId: string) {
    exists i :: 0 <= i < |parts| && TrimSpace(parts[i]) == cveId
  }

  /** Some `;`-separated entry of the column, trimmed, is exactly the CVE id. */
  predicate ListsCve(column: string, cveId: string) {
    SomeTrimmedIs(Split(column, ';'), cveId)
  }

  /** A data row (not the header) with at least 12 columns whose column 11 lists the CVE. */
  predicate RowMatches(rows: seq<seq<string>>, idx: nat, cveId: string)
    requires idx < |rows|
  {
    idx != 0 && |rows[idx]| >= 12 && ListsCve(rows[idx][11], cveId)
  }

  /** The entry for a matching row; `readFile` is the local file system under the base directory. */
  function ExploitDbEntry(cveId: string, row: seq<string>, readFile: string -> Option<string>): PoCData
    requires |row| >= 2
  {
    var content := match readFile(row[1]) case Some(c) => c case None => UnreadableFileContent;
    PoCData(cveId, "Exploit-DB", ExploitDbRepoPrefix + row[0], ExploitDbRawPrefix + row[1], content)
  }

  /** The entries for the first |rows| rows of the index, in CSV order. */
  function ExploitDbEntries(cveId: string, rows: seq<seq<string>>, readFile: string -> Option<string>)
    : (r: seq<PoCData>)
    ensures |r| <= |rows|
    ensures forall i :: 0 <= i < |r| ==> r[i].cveId == cveId && r[i].source == "Exploit-DB"
    decreases |rows|
  {
    if |rows| == 0 then []
    else
      var k := |rows| - 1;
      var last := if RowMatches(rows, k, cveId) then [ExploitDbEntry(cveId, rows[k], readFile)] else [];
      assert forall i :: 0 <= i < |last| ==> last[i].cveId == cveId && last[i].source == "Exploit-DB";
      ExploitDbEntries(cveId, rows[..k], readFile) + last
  }

  /** One more row of the index adds that row's entry when it matches. */
  lemma EntriesStep(cveId: string, rows: seq<seq<string>>, idx: nat, readFile: string -> Option<string>)
    requires idx < |rows|
    ensures ExploitDbEntries(cveId, rows[..idx + 1], readFile) ==
            ExploitDbEntries(cveId, rows[..idx], readFile) +
            (if RowMatches(rows, idx, cveId) then [ExploitDbEntry(cveId, rows[idx], readFile)] else [])
  {
    var prefix := rows[..idx + 1];
    assert prefix[..idx] == rows[..idx];
    assert prefix[idx] == rows[idx];
  }

  /** The number of matching rows. */
  function MatchCount(cveId: string, rows: seq<seq<string>>): nat
    decreases |rows|
  {
    if |rows| == 0 then 0
    else MatchCount(cveId, rows[..|rows| - 1]) + (if RowMatches(rows, |rows| - 1, cveId) then 1 else 0)
  }

  /**
   * One entry per matching row, each an Exploit-DB entry for this CVE whose
   * URLs are built from some matching row's id and path.
   */
  lemma {:induction false} ExploitDbEntriesShape(cveId: string, rows: seq<seq<string>>, readFile: string -> Option<string>)
    ensures var es := ExploitDbEntries(cveId, rows, readFile);
            |es| == MatchCount(cveId, rows) &&
            forall p :: p in es ==> (p.source == "Exploit-DB" && p.cveId == cveId &&
              exists i :: 0 <= i < |rows| && RowMatches(rows, i, cveId) &&
                          p.repoUrl == ExploitDbRepoPrefix + rows[i][0] &&
                          p.fileUrl == ExploitDbRawPrefix + rows[i][1])
    decreases |rows|
  {
    if |rows| > 0 {
      var k := |rows| - 1;
      var init := rows[..k];
      ExploitDbEntriesShape(cveId, init, readFile);
      assert forall i :: 0 <= i < k ==> init[i] == rows[i];
      assert forall i :: 0 <= i < k ==> RowMatches(init, i, cveId) == RowMatches(rows, i, cveId);
      assert MatchCount(cveId, init) == MatchCount(cveId, rows[..|rows| - 1]);
    }
  }

  /** The header row is never matched: replacing it changes nothing. */
  lemma {:induction false} HeaderIgnored(cveId: string, rows: seq<seq<string>>, header: seq<string>,
                                          readFile: string -> Option<string>)
    requires |rows| >= 1
    ensures ExploitDbEntries(cveId, [header] + rows[1..], readFile) == ExploitDbEntries(cveId, rows, readFile)
    decreases |rows|
  {
    var other := [header] + rows[1..];
    if |rows| > 1 {
      var k := |rows| - 1;
      HeaderIgnored(cveId, rows[..k], header, readFile);
      assert other[..k] == [header] + rows[..k][1..];
      assert other[k] == rows[k];
    } else {
      assert other[..0] == rows[..0];
    }
  }

  /** The inner loop of fetchExploitDBPoC: does some trimmed entry equal the id? */
  method AnyTrimmedIs(cveList: seq<string>, cveId: string) returns (matched: bool)
    ensures matched <==> SomeTrimmedIs(cveList, cveId)
  {
    matched := false;
    for i := 0 to |cveList|
      invariant !matched <==> forall j :: 0 <= j < i ==> TrimSpace(cveList[j]) != cveId
    {
      if TrimSpace(cveList[i]) == cveId {
        matched := true;
        break;
      }
    }
  }

  /** fetchExploitDBPoC: the entries of every matching row, or the CSV's open/read error. */
  method FetchExploitDbPoC(cveId: string, csv: CsvFile, readFile: string -> Option<string>)
    returns (r: Result<seq<PoCData>>)
    ensures csv.OpenFailed? ==> r == Err("failed to open CSV: " + csv.openError)
    ensures csv.Unreadable? ==> r == Err("failed to read CSV: " + csv.readError)
    ensures csv.Records? ==> r == Ok(ExploitDbEntries(cveId, csv.rows, readFile))
  {
    match csv
    case OpenFailed(e) => return Err("failed to open CSV: " + e);
    case Unreadable(e) => return Err("failed to read CSV: " + e);
    case Records(rows) =>
      var results := [];
      for idx := 0 to |rows|
        invariant results == ExploitDbEntries(cveId, rows[..idx], readFile)
      {
        EntriesStep(cveId, rows, idx, readFile);
        if idx == 0 || |rows[idx]| < 12 {
          continue;
        }
        var matched := AnyTrimmedIs(Split(rows[idx][11], ';'), cveId);
        if !matched {
          continue;
        }
        var row := rows[idx];
        var content := "";
        match readFile(row[1]) {
          case None => content := UnreadableFileContent;
          case Some(c) => content := c;
        }
        results := results + [PoCData(cveId, "Exploit-DB", ExploitDbRepoPrefix + row[0], ExploitDbRawPrefix + row[1], content)];
      }
      assert rows[..|rows|] == rows;
      return Ok(results);
  }

  // ---------------------------------------------------------------------
  // filepath.Ext and the extension filter
  // ---------------------------------------------------------------------

  /** filepath.Ext: from the last '.' of the last path element, or "" when it has none. */
  function Ext(path: string): (r: string)
    ensures |r| <= |path| && r == path[|path| - |r|..]
    ensures r != "" ==> r[0] == '.' && forall i :: 1 <= i < |r| ==> r[i] != '.' && r[i] != '/'
    ensures r == "" ==> forall i :: 0 <= i < |path| && path[i] == '.' ==>
                          exists k :: i < k < |path| && path[k] == '/'
    decreases |path|
  {
    if |path| == 0 || path[|path| - 1] == '/' then ""
    else if path[|path| - 1] == '.' then path[|path| - 1..]
    else
      var init := path[..|path| - 1];
      var e := Ext(init);
      assert forall i :: 0 <= i < |init| ==> init[i] == path[i];
      if e == "" then "" else e + [path[|path| - 1]]
  }

  /** The extensions fetchGitHubPoC accepts. */
  predicate AllowedExt(ext: string) {
    ext in {".py", ".rb", ".sh", ".yaml", ".yml", ".go", ".c", ".cpp", ".php"}
  }

  // ---------------------------------------------------------------------
  // fetchGitHubFileContent
  // ---------------------------------------------------------------------

  const RateLimitedContent := "[RETRY_REQUIRED: rate limit exceeded"

  datatype Metadata = MetadataParsed(downloadUrl: string) | MetadataUnparsable(jsonError: string)

  datatype RawAnswer = RawFailed(transportError: string) | RawAnswered(rawStatus: nat, body: Result<string>)

  /** What the metadata request and the download of one search item gave. */
  datatype ContentAnswer =
    | ContentRequestInvalid(requestError: string)
    | MetadataFailed(transportError: string)
    | MetadataAnswered(status: nat, remaining: string, meta: Metadata, raw: RawAnswer)

  /** fetchGitHubFileContent, on the answers of its two requests. */
  function FileContent(a: ContentAnswer): (r: Result<string>)
    ensures r == Ok(RateLimitedContent) <==>
              a.MetadataAnswered? && ((a.status == 403 && a.remaining == "0") ||
                                      (a.status == 200 && a.meta.MetadataParsed? && a.meta.downloadUrl != "" &&
                                       a.raw.RawAnswered? && a.raw.rawStatus == 200 &&
                                       a.raw.body == Ok(RateLimitedContent)))
    ensures r.Ok? && r.value != RateLimitedContent ==>
              a.MetadataAnswered? && a.status == 200 && a.meta.MetadataParsed? && a.meta.downloadUrl != "" &&
              a.raw.RawAnswered? && a.raw.rawStatus == 200 && a.raw.body == r
    ensures a.MetadataAnswered? && a.status != 200 && !(a.status == 403 && a.remaining == "0") ==>
              r == Err("metadata request failed: status " + NatToString(a.status))
    ensures a.MetadataAnswered? && a.status == 200 && a.meta == MetadataParsed("") ==>
              r == Err("download_url not found")
  {
    match a
    case ContentRequestInvalid(e) => Err("failed to create request for content URL: " + e)
    case MetadataFailed(e) => Err("failed to fetch metadata: " + e)
    case MetadataAnswered(status, remaining, meta, raw) =>
      if status == 403 && remaining == "0" then Ok(RateLimitedContent)
      else if status != 200 then Err("metadata request failed: status " + NatToString(status))
      else
        match meta
        case MetadataUnparsable(e) => Err("failed to parse metadata: " + e)
        case MetadataParsed(downloadUrl) =>
          if downloadUrl == "" then Err("download_url not found")
          else
            match raw
            case RawFailed(e) => Err("failed to fetch raw content: " + e)
            case RawAnswered(rawStatus, body) =>
              if rawStatus != 200 then Err("raw content request failed: status " + NatToString(rawStatus))
              else
                match body
                case Ok(c) => Ok(c)
                case Err(e) => Err("failed to read raw content: " + e)
  }

  // ---------------------------------------------------------------------
  // extractNextURL
  // ---------------------------------------------------------------------

  const RelNext := "rel=\"next\""

  /** The text between the first '<' and the first '>' of a part, when '<' comes first. */
  function Bracketed(part: string): (r: Option<string>)
    ensures r.Some? ==> var a := IndexOf(part, "<") + 1;
              1 <= a && a + |r.value| == IndexOf(part, ">") && part[a..a + |r.value|] == r.value
    ensures r.None? <==> IndexOf(part, "<") == -1 || IndexOf(part, ">") <= IndexOf(part, "<") + 1
  {
    var start := IndexOf(part, "<") + 1;
    var end := IndexOf(part, ">");
    if start > 0 && end > start then Some(part[start..end]) else None
  }

  /** A part that names the "next" relation and carries a bracketed URL. */
  predicate Qualifies(part: string) {
    Contains(part, RelNext) && Bracketed(part).Some?
  }

  /** The URL of the first qualifying part, or "" when no part qualifies. */
  function NextUrlIn(parts: seq<string>): (r: string)
    ensures (forall i :: 0 <= i < |parts| ==> !Qualifies(parts[i])) ==> r == ""
    ensures forall i :: (0 <= i < |parts| && Qualifies(parts[i]) &&
                         (forall j :: 0 <= j < i ==> !Qualifies(parts[j]))) ==> r == Bracketed(parts[i]).value
    decreases |parts|
  {
    if |parts| == 0 then ""
    else if Qualifies(parts[0]) then Bracketed(parts[0]).value
    else
      var r := NextUrlIn(parts[1..]);
      assert forall i :: 1 <= i < |parts| ==> parts[i] == parts[1..][i - 1];
      r
  }

  /** extractNextURL: split the header on ',' and take the first qualifying part's URL. */
  function ExtractNextUrl(linkHeader: string): string {
    NextUrlIn(Split(linkHeader, ','))
  }

  /** The bracketed URL of `<url>; rel="next"` is the URL. */
  lemma BracketedOfNext(url: string)
    requires url != "" && '<' !in url && '>' !in url
    ensures Bracketed("<" + url + ">" + "; " + RelNext) == Some(url)
  {
    var head := "<" + url;
    var tail := "; " + RelNext;
    var part := head + ">" + tail;
    assert part[0..1] == "<";
    assert OccursAt(part, "<", 0);
    assert IndexOf(part, "<") == 0;
    forall j | 0 <= j < |head| ensures !OccursAt(part, ">", j) {
      assert part[j..j + 1] == [part[j]];
      if j >= 1 { assert part[j] == url[j - 1]; }
    }
    IndexOfFirstAt(head, ">", tail);
    assert part[1..|url| + 1] == url;
    assert part == "<" + url + ">" + "; " + RelNext;
  }

  /** `<url>; rel="next"` names the "next" relation. */
  lemma NamesNext(url: string)
    ensures Contains("<" + url + ">" + "; " + RelNext, RelNext)
  {
    var part := "<" + url + ">" + "; " + RelNext;
    assert part[|url| + 4..|url| + 4 + |RelNext|] == RelNext;
    assert OccursAt(part, RelNext, |url| + 4);
  }

  /** `<url>; rel="next"` has no comma when the URL has none. */
  lemma NoCommaInNext(url: string)
    requires ',' !in url
    ensures ',' !in "<" + url + ">" + "; " + RelNext
  {
    var part := "<" + url + ">" + "; " + RelNext;
    forall i | 0 <= i < |part| ensures part[i] != ',' {
      if 1 <= i <= |url| { assert part[i] == url[i - 1]; }
    }
  }

  /** A header carrying a single "next" link gives back its URL. */
  lemma ExtractNextUrlOfNext(url: string)
    requires url != "" && '<' !in url && '>' !in url && ',' !in url
    ensures ExtractNextUrl("<" + url + ">" + "; " + RelNext) == url
  {
    var part := "<" + url + ">" + "; " + RelNext;
    NoCommaInNext(url);
    SplitNoSep(part, ',');
    BracketedOfNext(url);
    NamesNext(url);
    assert Qualifies([part][0]);
  }

  // ---------------------------------------------------------------------
  // shouldThrottle
  // ---------------------------------------------------------------------

  const Second: int := 1_000_000_000   // a time.Duration of one second, in nanoseconds

  /** The remaining-requests header asks for a pause: unparsable or at most 1. */
  predicate Throttles(remaining: string) {
    var n := ParseInt64(remaining);
    n.None? || n.value <= 1
  }

  /** time.Duration arithmetic saturates at the int64 bounds. */
  function Saturate(d: int): (r: int)
    ensures MinInt64 <= r <= MaxInt64
    ensures MinInt64 <= d <= MaxInt64 ==> r == d
  {
    if d < MinInt64 then MinInt64 else if d > MaxInt64 then MaxInt64 else d
  }

  datatype Throttle = Throttle(throttle: bool, wait: int)

  /**
   * shouldThrottle: pause when the remaining count is unparsable or at most
   * 1, until the reset epoch (`now` is the current Unix time in
   * nanoseconds), or 30 seconds when the reset header is unparsable.
   */
  function ShouldThrottle(remaining: string, reset: string, now: int): (r: Throttle)
    ensures !r.throttle <==> ParseInt64(remaining).Some? && ParseInt64(remaining).value > 1
    ensures !r.throttle ==> r.wait == 0
    ensures r.throttle && ParseInt64(reset).None? ==> r.wait == 30 * Second
    ensures r.throttle && ParseInt64(reset).Some? ==> r.wait == Saturate(ParseInt64(reset).value * Second - now)
  {
    if Throttles(remaining) then
      match ParseInt64(reset)
      case None => Throttle(true, 30 * Second)
      case Some(epoch) => Throttle(true, Saturate(epoch * Second - now))
    else Throttle(false, 0)
  }

  /** Any remaining count above 1 lets the request through without a pause. */
  lemma NoThrottleAboveOne(n: nat, reset: string, now: int)
    requires 1 < n <= MaxInt64
    ensures ShouldThrottle(NatToString(n), reset, now) == Throttle(false, 0)
  {
    ParseInt64OfNat(n);
  }

  /** A missing remaining header, or a count of 0 or 1, always pauses. */
  lemma ThrottleAtOneOrLess(n: nat, reset: string, now: int)
    requires n <= 1
    ensures ShouldThrottle(NatToString(n), reset, now).throttle
    ensures ShouldThrottle("", reset, now).throttle
  {
    ParseInt64OfNat(n);
  }

  // ---------------------------------------------------------------------
  // fetchGitHubPoC
  // ---------------------------------------------------------------------

  const MaxFiles: nat := 10

  datatype SearchItem = SearchItem(path: string, url: string, htmlUrl: string, repoHtmlUrl: string)

  datatype SearchBody = Parsed(items: seq<SearchItem>) | Unparsable(jsonError: string)

  /** The answer to one search request. */
  datatype SearchAnswer =
    | RequestInvalid(requestError: string)
    | SearchFailed(transportError: string)
    | Answered(remaining: string, reset: string, link: string, body: SearchBody)

  /** The search API: the answer to request number `n` (from 0), made for a URL. */
  type Search = (string, nat) -> SearchAnswer

  /** The content requests: item `i` of the answer to request `n`. */
  type Contents = (nat, nat) -> ContentAnswer

  /** The first search URL for a CVE id. */
  function SearchUrl(cveId: string): string {
    "https://api.github.com/search/code?q=" + QueryEscape(cveId) + "+in:file"
  }

  /** The content an item contributes: an allowed extension and a non-empty download. */
  function Accepted(item: SearchItem, a: ContentAnswer): (r: Option<string>)
    ensures r.Some? <==> AllowedExt(Ext(item.path)) && FileContent(a).Ok? && FileContent(a).value != ""
    ensures r.Some? ==> FileContent(a) == Ok(r.value)
  {
    if !AllowedExt(Ext(item.path)) then None
    else match FileContent(a)
      case Ok(c) => if c == "" then None else Some(c)
      case Err(_) => None
  }

  function GitHubEntry(cveId: string, item: SearchItem, content: string): PoCData {
    PoCData(cveId, "GitHub", item.repoHtmlUrl, item.htmlUrl, content)
  }

  /** What each item of answer `n` yields: its accepted content, or None when it is skipped. */
  function Acceptances(n: nat, items: seq<SearchItem>, contents: Contents): (r: seq<Option<string>>)
    ensures |r| == |items| && forall j :: 0 <= j < |items| ==> r[j] == Accepted(items[j], contents(n, j))
  {
    seq(|items|, j requires 0 <= j < |items| => Accepted(items[j], contents(n, j)))
  }

  /**
   * The inner loop from item `i` on, with room for `room` more files, given
   * what each item yields.
   */
  function Picks(cveId: string, items: seq<SearchItem>, accepted: seq<Option<string>>, room: nat, i: nat)
    : (r: seq<PoCData>)
    requires |accepted| == |items| && i <= |items|
    ensures |r| <= room
    ensures forall k :: 0 <= k < |r| ==> r[k].source == "GitHub" && r[k].cveId == cveId
    decreases |items| - i
  {
    if i == |items| || room == 0 then []
    else
      match accepted[i]
      case None => Picks(cveId, items, accepted, room, i + 1)
      case Some(c) => [GitHubEntry(cveId, items[i], c)] + Picks(cveId, items, accepted, room - 1, i + 1)
  }

  /** A skipped item contributes nothing. */
  lemma PicksSkip(cveId: string, items: seq<SearchItem>, accepted: seq<Option<string>>, room: nat, i: nat)
    requires |accepted| == |items| && i < |items| && room > 0 && accepted[i].None?
    ensures Picks(cveId, items, accepted, room, i) == Picks(cveId, items, accepted, room, i + 1)
  {
  }

  /** An accepted item contributes its entry ahead of the rest. */
  lemma PicksTake(cveId: string, items: seq<SearchItem>, accepted: seq<Option<string>>, room: nat, i: nat, c: string)
    requires |accepted| == |items| && i < |items| && room > 0 && accepted[i] == Some(c)
    ensures Picks(cveId, items, accepted, room, i) ==
            [GitHubEntry(cveId, items[i], c)] + Picks(cveId, items, accepted, room - 1, i + 1)
  {
  }

  /** Taking an accepted item moves its entry from the picks onto the list collected so far. */
  lemma PicksTakeAfter(done: seq<PoCData>, cveId: string, items: seq<SearchItem>, accepted: seq<Option<string>>,
                       room: nat, i: nat, c: string)
    requires |accepted| == |items| && i < |items| && room > 0 && accepted[i] == Some(c)
    ensures done + Picks(cveId, items, accepted, room, i) ==
            (done + [GitHubEntry(cveId, items[i], c)]) + Picks(cveId, items, accepted, room - 1, i + 1)
  {
    PicksTake(cveId, items, accepted, room, i, c);
    var rest := Picks(cveId, items, accepted, room - 1, i + 1);
    assert done + ([GitHubEntry(cveId, items[i], c)] + rest) == (done + [GitHubEntry(cveId, items[i], c)]) + rest;
  }

  /** Entry `p` is the entry of one of the items from `i` on, with the content that item yields. */
  predicate FromSomeItem(p: PoCData, cveId: string, items: seq<SearchItem>, accepted: seq<Option<string>>, i: nat)
    requires |accepted| == |items|
  {
    exists j :: i <= j < |items| && accepted[j] == Some(p.content) && p == GitHubEntry(cveId, items[j], p.content)
  }

  /**
   * Every picked entry is the entry of an item that yields content, with
   * that content; with `Acceptances`, an accepted non-empty file.
   */
  lemma {:induction false} PicksFromItems(cveId: string, items: seq<SearchItem>, accepted: seq<Option<string>>,
                                          room: nat, i: nat)
    requires |accepted| == |items| && i <= |items|
    ensures forall k :: 0 <= k < |Picks(cveId, items, accepted, room, i)| ==>
              FromSomeItem(Picks(cveId, items, accepted, room, i)[k], cveId, items, accepted, i)
    decreases |items| - i
  {
    if i < |items| && room > 0 {
      var r := Picks(cveId, items, accepted, room, i);
      if accepted[i].None? {
        var rest := Picks(cveId, items, accepted, room, i + 1);
        PicksFromItems(cveId, items, accepted, room, i + 1);
        assert r == rest;
        forall k | 0 <= k < |r| ensures FromSomeItem(r[k], cveId, items, accepted, i) {
          assert FromSomeItem(rest[k], cveId, items, accepted, i + 1);
          FromLaterItem(r[k], cveId, items, accepted, i);
        }
      } else {
        var tail := Picks(cveId, items, accepted, room - 1, i + 1);
        PicksFromItems(cveId, items, accepted, room - 1, i + 1);
        assert r == [GitHubEntry(cveId, items[i], accepted[i].value)] + tail;
        forall k | 0 <= k < |r| ensures FromSomeItem(r[k], cveId, items, accepted, i) {
          if k == 0 {
            assert accepted[i] == Some(r[0].content);
          } else {
            assert FromSomeItem(tail[k - 1], cveId, items, accepted, i + 1);
            assert r[k] == tail[k - 1];
            FromLaterItem(r[k], cveId, items, accepted, i);
          }
        }
      }
    }
  }

  /** An entry from an item after `i` is an entry from an item from `i` on. */
  lemma FromLaterItem(p: PoCData, cveId: string, items: seq<SearchItem>, accepted: seq<Option<string>>, i: nat)
    requires |accepted| == |items|
    requires FromSomeItem(p, cveId, items, accepted, i + 1)
    ensures FromSomeItem(p, cveId, items, accepted, i)
  {
    var j :| i + 1 <= j < |items| && accepted[j] == Some(p.content) && p == GitHubEntry(cveId, items[j], p.content);
    assert i <= j;
  }

  datatype GitHubRun = GitHubRun(results: seq<PoCData>, err: Option<string>)

  /**
   * From some request on, every answer is unthrottled and names no next
   * page; without this the search loop need not end.
   */
  ghost predicate Settles(search: Search, bound: nat) {
    forall u: string, n: nat {:trigger search(u, n).remaining} :: n >= bound && search(u, n).Answered? ==>
      !Throttles(search(u, n).remaining) && ExtractNextUrl(search(u, n).link) == ""
  }

  /** The search loop from request `n` for `url`, having collected `acc`. */
  ghost function GitHubFrom(cveId: string, search: Search, contents: Contents, n: nat, url: string,
                            acc: seq<PoCData>, bound: nat): GitHubRun
    requires Settles(search, bound)
    requires url != "" ==> n <= bound
    decreases bound + 1 - n
  {
    if url == "" || |acc| >= MaxFiles then GitHubRun(acc, None)
    else
      match search(url, n)
      case RequestInvalid(e) => GitHubRun(acc, Some("request create error: " + e))
      case SearchFailed(e) => GitHubRun(acc, Some("request failed: " + e))
      case Answered(remaining, _, link, body) =>
        if Throttles(remaining) then GitHubFrom(cveId, search, contents, n + 1, url, acc, bound)
        else
          match body
          case Unparsable(e) => GitHubRun(acc, Some("json parse failed: " + e))
          case Parsed(items) =>
            var picked := Picks(cveId, items, Acceptances(n, items, contents), MaxFiles - |acc|, 0);
            GitHubFrom(cveId, search, contents, n + 1, ExtractNextUrl(link), acc + picked, bound)
  }

  /** A throttled answer repeats the same URL, with nothing collected in between. */
  lemma ThrottledRequestRetriesSameUrl(cveId: string, search: Search, contents: Contents, n: nat, url: string,
                                       acc: seq<PoCData>, bound: nat)
    requires Settles(search, bound)
    requires url != "" && n <= bound && |acc| < MaxFiles
    requires search(url, n).Answered? && Throttles(search(url, n).remaining)
    ensures n < bound
    ensures GitHubFrom(cveId, search, contents, n, url, acc, bound) ==
            GitHubFrom(cveId, search, contents, n + 1, url, acc, bound)
  {
  }

  /**
   * `p` is the entry of item `j` of a parsed answer to request `n`: an item
   * whose extension is allowed and whose download is non-empty, with that
   * download as its content.
   */
  ghost predicate FromSearch(p: PoCData, cveId: string, search: Search, contents: Contents) {
    exists u: string, n: nat, j: nat {:trigger contents(n, j), search(u, n)} ::
      search(u, n).Answered? && search(u, n).body.Parsed? && j < |search(u, n).body.items| &&
      Accepted(search(u, n).body.items[j], contents(n, j)) == Some(p.content) &&
      p == GitHubEntry(cveId, search(u, n).body.items[j], p.content)
  }

  /** A GitHub entry of the CVE with non-empty content, taken from an accepted search item. */
  ghost predicate GitHubPoC(p: PoCData, cveId: string, search: Search, contents: Contents) {
    p.source == "GitHub" && p.cveId == cveId && p.content != "" && FromSearch(p, cveId, search, contents)
  }

  /**
   * `results` keeps `acc`, holds at most 10 files, and adds only GitHub
   * entries for the CVE, each from an accepted item of some answer.
   */
  ghost predicate Extends(acc: seq<PoCData>, results: seq<PoCData>, cveId: string, search: Search, contents: Contents) {
    acc <= results && |results| <= MaxFiles &&
    forall k :: |acc| <= k < |results| ==> GitHubPoC(results[k], cveId, search, contents)
  }

  /** Pick `k` of a parsed answer to request `n` for `url` is an accepted GitHub entry of that answer. */
  lemma PickFromSearch(cveId: string, search: Search, contents: Contents, url: string, n: nat, room: nat, k: nat)
    requires search(url, n).Answered? && search(url, n).body.Parsed?
    requires var items := search(url, n).body.items;
             k < |Picks(cveId, items, Acceptances(n, items, contents), room, 0)|
    ensures var items := search(url, n).body.items;
            GitHubPoC(Picks(cveId, items, Acceptances(n, items, contents), room, 0)[k], cveId, search, contents)
  {
    var items := search(url, n).body.items;
    var accepted := Acceptances(n, items, contents);
    var p := Picks(cveId, items, accepted, room, 0)[k];
    PicksFromItems(cveId, items, accepted, room, 0);
    var j :| 0 <= j < |items| && accepted[j] == Some(p.content) && p == GitHubEntry(cveId, items[j], p.content);
    FromSearchAt(p, cveId, search, contents, url, n, j);
  }

  /** Item `j` of a parsed answer to request `n` for `u`, accepted with content `p.content`, witnesses `FromSearch`. */
  lemma FromSearchAt(p: PoCData, cveId: string, search: Search, contents: Contents, u: string, n: nat, j: nat)
    requires search(u, n).Answered? && search(u, n).body.Parsed? && j < |search(u, n).body.items|
    requires Accepted(search(u, n).body.items[j], contents(n, j)) == Some(p.content)
    requires p == GitHubEntry(cveId, search(u, n).body.items[j], p.content)
    ensures p.content != "" && FromSearch(p, cveId, search, contents)
  {
  }

  /** An answer that is not retried nor parsed ends the search with what was held. */
  lemma GitHubFromStops(cveId: string, search: Search, contents: Contents, n: nat, url: string,
                        acc: seq<PoCData>, bound: nat)
    requires Settles(search, bound)
    requires url != "" ==> n <= bound
    requires url == "" || |acc| >= MaxFiles || !search(url, n).Answered? ||
             (!Throttles(search(url, n).remaining) && search(url, n).body.Unparsable?)
    ensures GitHubFrom(cveId, search, contents, n, url, acc, bound).results == acc
  {
  }

  /** A parsed answer adds its picks and moves on to the page its link names. */
  lemma GitHubFromParsed(cveId: string, search: Search, contents: Contents, n: nat, url: string,
                         acc: seq<PoCData>, bound: nat)
    requires Settles(search, bound)
    requires url != "" && n <= bound && |acc| < MaxFiles
    requires search(url, n).Answered? && !Throttles(search(url, n).remaining) && search(url, n).body.Parsed?
    ensures var a := search(url, n);
            var next := ExtractNextUrl(a.link);
            (next != "" ==> n + 1 <= bound) &&
            GitHubFrom(cveId, search, contents, n, url, acc, bound) ==
            GitHubFrom(cveId, search, contents, n + 1, next,
                       acc + Picks(cveId, a.body.items, Acceptances(n, a.body.items, contents), MaxFiles - |acc|, 0),
                       bound)
  {
  }

  /**
   * The search keeps what it had, never collects more than 10 files, and
   * each file it adds is a GitHub entry for this CVE, from an item with an
   * allowed extension and a non-empty download.
   */
  lemma {:induction false} GitHubFromBounds(cveId: string, search: Search, contents: Contents, n: nat, url: string,
                                            acc: seq<PoCData>, bound: nat)
    requires Settles(search, bound)
    requires url != "" ==> n <= bound
    requires |acc| <= MaxFiles
    ensures Extends(acc, GitHubFrom(cveId, search, contents, n, url, acc, bound).results, cveId, search, contents)
    decreases bound + 1 - n, 1
  {
    if url == "" || |acc| >= MaxFiles {
      GitHubFromStops(cveId, search, contents, n, url, acc, bound);
    } else {
      match search(url, n)
      case RequestInvalid(_) =>
        GitHubFromStops(cveId, search, contents, n, url, acc, bound);
      case SearchFailed(_) =>
        GitHubFromStops(cveId, search, contents, n, url, acc, bound);
      case Answered(remaining, _, link, body) =>
        if Throttles(remaining) {
          ThrottledRequestRetriesSameUrl(cveId, search, contents, n, url, acc, bound);
          GitHubFromBounds(cveId, search, contents, n + 1, url, acc, bound);
        } else {
          match body
          case Unparsable(_) =>
            GitHubFromStops(cveId, search, contents, n, url, acc, bound);
          case Parsed(_) =>
            ParsedExtends(cveId, search, contents, n, url, acc, bound);
        }
    }
  }

  /** After a parsed answer, the search extends what was held by the answer's picks and the rest of the run. */
  lemma {:induction false} ParsedExtends(cveId: string, search: Search, contents: Contents, n: nat, url: string,
                      acc: seq<PoCData>, bound: nat)
    requires Settles(search, bound)
    requires url != "" && n <= bound && |acc| < MaxFiles
    requires search(url, n).Answered? && !Throttles(search(url, n).remaining) && search(url, n).body.Parsed?
    ensures Extends(acc, GitHubFrom(cveId, search, contents, n, url, acc, bound).results, cveId, search, contents)
    decreases bound + 1 - n, 0
  {
    var a := search(url, n);
    var picked := Picks(cveId, a.body.items, Acceptances(n, a.body.items, contents), MaxFiles - |acc|, 0);
    GitHubFromParsed(cveId, search, contents, n, url, acc, bound);
    GitHubFromBounds(cveId, search, contents, n + 1, ExtractNextUrl(a.link), acc + picked, bound);
    PicksExtend(cveId, search, contents, url, n, acc,
                GitHubFrom(cveId, search, contents, n + 1, ExtractNextUrl(a.link), acc + picked, bound).results);
  }

  /** What extends a parsed answer's picks added to `acc` extends `acc`. */
  lemma PicksExtend(cveId: string, search: Search, contents: Contents, url: string, n: nat,
                    acc: seq<PoCData>, results: seq<PoCData>)
    requires |acc| <= MaxFiles
    requires search(url, n).Answered? && search(url, n).body.Parsed?
    requires var items := search(url, n).body.items;
             Extends(acc + Picks(cveId, items, Acceptances(n, items, contents), MaxFiles - |acc|, 0), results,
                     cveId, search, contents)
    ensures Extends(acc, results, cveId, search, contents)
  {
    var items := search(url, n).body.items;
    var picked := Picks(cveId, items, Acceptances(n, items, contents), MaxFiles - |acc|, 0);
    assert acc <= acc + picked;
    forall k | |acc| <= k < |results|
      ensures GitHubPoC(results[k], cveId, search, contents)
    {
      if k < |acc + picked| {
        assert results[k] == (acc + picked)[k] == picked[k - |acc|];
        PickFromSearch(cveId, search, contents, url, n, MaxFiles - |acc|, k - |acc|);
      }
    }
  }

  /** The item loop of fetchGitHubPoC over one answer, stopping once 10 files are held. */
  method CollectItems(cveId: string, n: nat, items: seq<SearchItem>, contents: Contents, before: seq<PoCData>)
    returns (results: seq<PoCData>)
    requires |before| <= MaxFiles
    ensures results == before + Picks(cveId, items, Acceptances(n, items, contents), MaxFiles - |before|, 0)
  {
    ghost var accepted := Acceptances(n, items, contents);
    ghost var target := before + Picks(cveId, items, accepted, MaxFiles - |before|, 0);
    results := before;
    var fileCount := |before|;
    for i := 0 to |items|
      invariant fileCount == |results| <= MaxFiles
      invariant target == results + Picks(cveId, items, accepted, MaxFiles - |results|, i)
    {
      if fileCount >= MaxFiles {
        break;
      }
      // an item outside the allowed extensions, or whose download fails or is empty, is skipped
      var content := Accepted(items[i], contents(n, i));
      assert content == accepted[i];
      if content.None? {
        PicksSkip(cveId, items, accepted, MaxFiles - |results|, i);
        continue;
      }
      PicksTakeAfter(results, cveId, items, accepted, MaxFiles - |results|, i, content.value);
      results := results + [GitHubEntry(cveId, items[i], content.value)];
      fileCount := fileCount + 1;
    }
  }

  /** fetchGitHubPoC: page through the code search, keeping up to 10 accepted files. */
  method FetchGitHubPoC(cveId: string, search: Search, contents: Contents, ghost bound: nat)
    returns (results: seq<PoCData>, err: Option<string>)
    requires Settles(search, bound)
    ensures GitHubRun(results, err) == GitHubFrom(cveId, search, contents, 0, SearchUrl(cveId), [], bound)
    ensures |results| <= MaxFiles
    ensures forall k :: 0 <= k < |results| ==> GitHubPoC(results[k], cveId, search, contents)
  {
    ghost var goal := GitHubFrom(cveId, search, contents, 0, SearchUrl(cveId), [], bound);
    GitHubFromBounds(cveId, search, contents, 0, SearchUrl(cveId), [], bound);
    var fileCount := 0;
    results, err := [], None;
    var searchUrl := SearchUrl(cveId);
    var n := 0;
    while searchUrl != "" && fileCount < MaxFiles
      invariant fileCount == |results|
      invariant searchUrl != "" ==> n <= bound
      invariant GitHubFrom(cveId, search, contents, n, searchUrl, results, bound) == goal
      decreases bound + 1 - n
    {
      var answer := search(searchUrl, n);
      match answer {
        case RequestInvalid(e) =>
          return results, Some("request create error: " + e);
        case SearchFailed(e) =>
          return results, Some("request failed: " + e);
        case Answered(remaining, _, link, body) =>
          if Throttles(remaining) {
            n := n + 1;
            continue;
          }
          match body {
            case Unparsable(e) =>
              return results, Some("json parse failed: " + e);
            case Parsed(items) =>
              results := CollectItems(cveId, n, items, contents, results);
              fileCount := |results|;
              searchUrl := ExtractNextUrl(link);
              n := n + 1;
          }
      }
    }
  }
}
