/**
 * IconSync: downloads currency icons into the icons directory, trying the
 * XBO CDN, then jsDelivr, then writing the placeholder, and counts what a
 * sync of many symbols did.
 *
 * The HTTP client is `fetch` (the reply to a GET of a URL) and the
 * filesystem is a map from path to content; `writable` says whether
 * file_put_contents can write a path.
 */
module IconSync {
  import opened Wrappers
  import opened Strings
  import opened IconResolver
  import opened PercentEncoding

  const XBO_CDN: string := "https://assets.xbo.com/token-icons/svg/"
  const JSDELIVR: string := "https://cdn.jsdelivr.net/npm/cryptocurrency-icons@0.18.1/svg/color/"

  /** What wp_remote_get gives: a transport error, or a status code and a body. */
  datatype HttpReply = TransportError | Reply(code: int, body: string)

  /** The first source: the XBO CDN with the upper-cased symbol. */
  function CdnUrl(symbol: string): string {
    XBO_CDN + RawUrlEncode(ToUpper(symbol)) + ".svg"
  }

  /** The second source: jsDelivr with the lower-cased symbol. */
  function JsDelivrUrl(symbol: string): string {
    JSDELIVR + RawUrlEncode(ToLower(symbol)) + ".svg"
  }

  /** fetch_svg: the body of a 2xx reply that is not empty (PHP's empty(): '' or '0') and contains '<svg'. */
  function FetchSvg(reply: HttpReply): (r: Option<string>)
    ensures r.Some? <==>
      reply.Reply? && 200 <= reply.code < 300 && reply.body != "" && reply.body != "0" && Contains(reply.body, "<svg")
    ensures r.Some? ==> r.value == reply.body
  {
    if reply.TransportError? then None
    else if reply.code < 200 || reply.code >= 300 then None
    else if reply.body == "" || reply.body == "0" || !Contains(reply.body, "<svg") then None
    else Some(reply.body)
  }

  /** An accepted body is an SVG document fragment: it contains '<svg' and is never empty. */
  lemma AcceptedIsSvg(reply: HttpReply)
    requires FetchSvg(reply).Some?
    ensures var svg := FetchSvg(reply).value; svg != "" && exists i :: OccursAt(svg, "<svg", i)
  {
  }

  /** The content download_icon writes: the first accepted download, else the placeholder. */
  function IconContent(symbol: string, fetch: string -> HttpReply): string {
    match FetchSvg(fetch(CdnUrl(symbol)))
    case Some(svg) => svg
    case None =>
      match FetchSvg(fetch(JsDelivrUrl(symbol)))
      case Some(svg) => svg
      case None => PlaceholderSvg(symbol)
  }

  /** The URLs download_icon requests: it stops at the first source that gives an SVG. */
  function Requested(symbol: string, fetch: string -> HttpReply): seq<string> {
    if FetchSvg(fetch(CdnUrl(symbol))).Some? then [CdnUrl(symbol)]
    else [CdnUrl(symbol), JsDelivrUrl(symbol)]
  }

  /** The filesystem after writing an icon: the path gets the content when it can be written. */
  function Written(files: map<string, string>, path: string, content: string, writable: string -> bool): map<string, string> {
    if writable(path) then files[path := content] else files
  }

  /**
   * download_icon($symbol): returns whether the icon was saved, the new
   * filesystem and the URLs requested, in order.
   */
  method DownloadIcon(r: Resolver, symbol: string, files: map<string, string>,
                      fetch: string -> HttpReply, writable: string -> bool)
    returns (saved: bool, after: map<string, string>, requested: seq<string>)
    ensures saved == writable(Path(r, symbol))
    ensures after == Written(files, Path(r, symbol), IconContent(symbol, fetch), writable)
    ensures requested == Requested(symbol, fetch)
  {
    var path := Path(r, symbol);
    var url := CdnUrl(symbol);
    requested := [url];
    var svg := FetchSvg(fetch(url));
    if svg.Some? {
      saved, after := Put(files, path, svg.value, writable);
      return;
    }
    url := JsDelivrUrl(symbol);
    requested := requested + [url];
    svg := FetchSvg(fetch(url));
    if svg.Some? {
      saved, after := Put(files, path, svg.value, writable);
      return;
    }
    saved, after := Put(files, path, PlaceholderSvg(symbol), writable);
  }

  /** `(bool) file_put_contents($path, $content)` for non-empty content. */
  method Put(files: map<string, string>, path: string, content: string, writable: string -> bool)
    returns (saved: bool, after: map<string, string>)
    ensures saved == writable(path)
    ensures after == Written(files, path, content, writable)
  {
    saved := writable(path);
    after := if saved then files[path := content] else files;
  }

  /**
   * The cascade: the CDN's SVG when it gives one; else jsDelivr's; else the
   * placeholder. A saved icon is always a non-empty SVG, at the symbol's
   * path, and no other file changes.
   */
  lemma DownloadCascade(r: Resolver, symbol: string, files: map<string, string>,
                        fetch: string -> HttpReply, writable: string -> bool)
    ensures var content := IconContent(symbol, fetch);
      var cdn := FetchSvg(fetch(CdnUrl(symbol)));
      var jsd := FetchSvg(fetch(JsDelivrUrl(symbol)));
      (cdn.Some? ==> content == cdn.value && Requested(symbol, fetch) == [CdnUrl(symbol)]) &&
      (cdn.None? && jsd.Some? ==> content == jsd.value) &&
      (cdn.None? && jsd.None? ==> content == PlaceholderSvg(symbol)) &&
      (cdn.None? ==> Requested(symbol, fetch) == [CdnUrl(symbol), JsDelivrUrl(symbol)]) &&
      content != "" && Contains(content, "<svg")
    ensures var after := Written(files, Path(r, symbol), IconContent(symbol, fetch), writable);
      (forall p :: p != Path(r, symbol) ==> (p in after <==> p in files) && (p in files ==> after[p] == files[p])) &&
      (writable(Path(r, symbol)) ==> Exists(r, after.Keys, symbol))
  {
    var cdn := FetchSvg(fetch(CdnUrl(symbol)));
    var jsd := FetchSvg(fetch(JsDelivrUrl(symbol)));
    if cdn.None? && jsd.None? {
      PlaceholderIsSvg(symbol);
    }
  }

  /** The placeholder begins with '<svg'. */
  lemma PlaceholderIsSvg(symbol: string)
    ensures Contains(PlaceholderSvg(symbol), "<svg")
  {
    var svg := PlaceholderSvg(symbol);
    SvgOpenTag();
    assert svg[..4] == svg[..|SVG_OPEN|][..4];
    assert OccursAt(svg, "<svg", 0);
  }

  // ---------------------------------------------------------------------------
  // sync_all

  /** sync_all's result array. */
  datatype Tally = Tally(downloaded: nat, skipped: nat, failed: nat) {
    function Total(): nat {
      downloaded + skipped + failed
    }
  }

  /** What a sync did: the tally, the filesystem afterwards and every URL requested, in order. */
  datatype SyncState = SyncState(tally: Tally, files: map<string, string>, requested: seq<string>)

  /** One symbol's step: skipped when it exists and `force` is off, else downloaded. */
  function SyncStep(r: Resolver, symbol: string, force: bool, s: SyncState,
                    fetch: string -> HttpReply, writable: string -> bool): SyncState {
    var t := s.tally;
    if !force && Exists(r, s.files.Keys, symbol) then
      SyncState(Tally(t.downloaded, t.skipped + 1, t.failed), s.files, s.requested)
    else
      var after := Written(s.files, Path(r, symbol), IconContent(symbol, fetch), writable);
      var requested := s.requested + Requested(symbol, fetch);
      if writable(Path(r, symbol)) then SyncState(Tally(t.downloaded + 1, t.skipped, t.failed), after, requested)
      else SyncState(Tally(t.downloaded, t.skipped, t.failed + 1), after, requested)
  }

  /** The state after syncing `symbols` in order, starting from `s`. */
  function Sync(r: Resolver, symbols: seq<string>, force: bool, s: SyncState,
                fetch: string -> HttpReply, writable: string -> bool): SyncState
    decreases |symbols|
  {
    if symbols == [] then s
    else Sync(r, symbols[1..], force, SyncStep(r, symbols[0], force, s, fetch, writable), fetch, writable)
  }

  /** sync_all($symbols, $force) against the filesystem `files`. */
  method SyncAll(r: Resolver, symbols: seq<string>, force: bool, files: map<string, string>,
                 fetch: string -> HttpReply, writable: string -> bool)
    returns (result: Tally, after: map<string, string>, requested: seq<string>)
    ensures SyncState(result, after, requested) == Sync(r, symbols, force, SyncState(Tally(0, 0, 0), files, []), fetch, writable)
  {
    result := Tally(0, 0, 0);
    after := files;
    requested := [];
    ghost var target := Sync(r, symbols, force, SyncState(result, after, requested), fetch, writable);
    for i := 0 to |symbols|
      invariant Sync(r, symbols[i..], force, SyncState(result, after, requested), fetch, writable) == target
    {
      SyncUnfold(r, symbols, i, force, SyncState(result, after, requested), fetch, writable);
      result, after, requested := SyncOne(r, symbols[i], force, result, after, requested, fetch, writable);
    }
  }

  /** The foreach body of sync_all for one symbol. */
  method SyncOne(r: Resolver, symbol: string, force: bool, result: Tally, files: map<string, string>, requested: seq<string>,
                 fetch: string -> HttpReply, writable: string -> bool)
    returns (result': Tally, files': map<string, string>, requested': seq<string>)
    ensures SyncState(result', files', requested') == SyncStep(r, symbol, force, SyncState(result, files, requested), fetch, writable)
  {
    if !force && Exists(r, files.Keys, symbol) {
      return result.(skipped := result.skipped + 1), files, requested;
    }
    var saved, urls;
    saved, files', urls := DownloadIcon(r, symbol, files, fetch, writable);
    requested' := requested + urls;
    if saved {
      result' := result.(downloaded := result.downloaded + 1);
    } else {
      result' := result.(failed := result.failed + 1);
    }
  }

  /** Syncing from index `i` is one step, then syncing from `i + 1`. */
  lemma SyncUnfold(r: Resolver, symbols: seq<string>, i: nat, force: bool, s: SyncState,
                   fetch: string -> HttpReply, writable: string -> bool)
    requires i < |symbols|
    ensures Sync(r, symbols[i..], force, s, fetch, writable)
         == Sync(r, symbols[i + 1..], force, SyncStep(r, symbols[i], force, s, fetch, writable), fetch, writable)
  {
    assert symbols[i..][1..] == symbols[i + 1..];
  }

  /** sync_missing($symbols) is sync_all without force. */
  method SyncMissing(r: Resolver, symbols: seq<string>, files: map<string, string>,
                     fetch: string -> HttpReply, writable: string -> bool)
    returns (result: Tally, after: map<string, string>, requested: seq<string>)
    ensures SyncState(result, after, requested) == Sync(r, symbols, false, SyncState(Tally(0, 0, 0), files, []), fetch, writable)
  {
    result, after, requested := SyncAll(r, symbols, false, files, fetch, writable);
  }

  /**
   * Every symbol is counted exactly once: the three counts grow by the
   * number of symbols; with force nothing is skipped; files are only added
   * or rewritten, never removed.
   */
  lemma {:induction false} SyncCounts(r: Resolver, symbols: seq<string>, force: bool, s: SyncState,
                                      fetch: string -> HttpReply, writable: string -> bool)
    ensures var e := Sync(r, symbols, force, s, fetch, writable);
      e.tally.Total() == s.tally.Total() + |symbols| &&
      (force ==> e.tally.skipped == s.tally.skipped) &&
      s.files.Keys <= e.files.Keys
    decreases |symbols|
  {
    if symbols != [] {
      SyncCounts(r, symbols[1..], force, SyncStep(r, symbols[0], force, s, fetch, writable), fetch, writable);
    }
  }

  /**
   * Without force, symbols whose icons are all on disk are all skipped:
   * nothing is downloaded, requested or written.
   */
  lemma {:induction false} SyncMissingSkipsExisting(r: Resolver, symbols: seq<string>, s: SyncState,
                                                    fetch: string -> HttpReply, writable: string -> bool)
    requires forall i :: 0 <= i < |symbols| ==> Exists(r, s.files.Keys, symbols[i])
    ensures var e := Sync(r, symbols, false, s, fetch, writable);
      e.tally == Tally(s.tally.downloaded, s.tally.skipped + |symbols|, s.tally.failed) &&
      e.files == s.files && e.requested == s.requested
    decreases |symbols|
  {
    if symbols != [] {
      SyncMissingSkipsExisting(r, symbols[1..], SyncStep(r, symbols[0], false, s, fetch, writable), fetch, writable);
    }
  }

  /**
   * With force every symbol is downloaded or failed, and after the sync every
   * symbol whose path is writable has its icon on disk.
   */
  lemma {:induction false} ForcedSyncWritesAll(r: Resolver, symbols: seq<string>, s: SyncState,
                                               fetch: string -> HttpReply, writable: string -> bool)
    ensures var e := Sync(r, symbols, true, s, fetch, writable);
      forall i :: 0 <= i < |symbols| && writable(Path(r, symbols[i])) ==> Exists(r, e.files.Keys, symbols[i])
    decreases |symbols|
  {
    if symbols != [] {
      var s1 := SyncStep(r, symbols[0], true, s, fetch, writable);
      ForcedSyncWritesAll(r, symbols[1..], s1, fetch, writable);
      SyncCounts(r, symbols[1..], true, s1, fetch, writable);
      forall i | 0 <= i < |symbols| && writable(Path(r, symbols[i]))
        ensures Exists(r, Sync(r, symbols, true, s, fetch, writable).files.Keys, symbols[i])
      {
        if i > 0 {
          assert symbols[i] == symbols[1..][i - 1];
        }
      }
    }
  }
}
