/**
 * The resume viewer (src/components/ResumeViewer.jsx): the rewrite of a
 * Google-Docs edit link into its preview link, the modal's render gate, and
 * the download handler's re-entrancy guard.
 */
module ResumeViewer {
  import opened Options
  import opened JsStrings

  const EditSegment := "/edit"
  const PreviewSegment := "/preview"

  predicate NoLineTerminator(s: string) {
    forall i :: 0 <= i < |s| ==> !IsLineTerminator(s[i])
  }

  /** "/edit" occurs at index `i`. */
  predicate EditAt(url: string, i: int) {
    0 <= i && i + |EditSegment| <= |url| && url[i..i + |EditSegment|] == EditSegment
  }

  /**
   * The regular expression `/\/edit.*$/` matches starting at `i`: "/edit" is there and
   * the rest of the string holds no line terminator, since `.` matches none and `$`
   * (without the `m` flag) only matches at the very end.
   */
  predicate MatchAt(url: string, i: int) {
    EditAt(url, i) && NoLineTerminator(url[i + |EditSegment|..])
  }

  /** The leftmost match at or after `from`, as the regex engine finds it. */
  function FirstMatch(url: string, from: nat): (r: Option<nat>)
    ensures r.Some? ==> from <= r.value && MatchAt(url, r.value)
    ensures r.Some? ==> forall j :: from <= j < r.value ==> !MatchAt(url, j)
    ensures r.None? ==> forall j :: from <= j ==> !MatchAt(url, j)
    decreases |url| - from
  {
    if from + |EditSegment| > |url| then None
    else if MatchAt(url, from) then Some(from)
    else FirstMatch(url, from + 1)
  }

  /**
   * `getPreviewUrl`: `url.replace(/\/edit.*$/, '/preview')`. Without a match the link is
   * unchanged; otherwise everything from the leftmost match on becomes "/preview".
   */
  function PreviewUrl(url: string): (r: string)
    ensures (forall j :: 0 <= j ==> !MatchAt(url, j)) ==> r == url
    ensures forall k :: MatchAt(url, k) && (forall j :: 0 <= j < k ==> !MatchAt(url, j)) ==>
      r == url[..k] + PreviewSegment
  {
    match FirstMatch(url, 0)
    case None => url
    case Some(k) => url[..k] + PreviewSegment
  }

  /** A link without "/edit" passes through unchanged. */
  lemma PreviewUrlWithoutEdit(url: string)
    requires forall i :: !EditAt(url, i)
    ensures PreviewUrl(url) == url
  {
  }

  /** On a single-line link, everything from the first "/edit" on becomes "/preview". */
  lemma PreviewUrlSingleLine(url: string, k: nat)
    requires NoLineTerminator(url)
    requires EditAt(url, k) && forall j :: 0 <= j < k ==> !EditAt(url, j)
    ensures PreviewUrl(url) == url[..k] + "/preview"
  {
    assert MatchAt(url, k);
  }

  /** The result of a rewrite holds no further match of the pattern. */
  lemma NoMatchAfterRewrite(url: string, k: nat, j: int)
    requires FirstMatch(url, 0) == Some(k)
    ensures !MatchAt(url[..k] + PreviewSegment, j)
  {
    var r := url[..k] + PreviewSegment;
    assert MatchAt(url, k);
    forall t | k <= t < |url|
      ensures !IsLineTerminator(url[t])
    {
      if t < k + 5 {
        assert url[t] == url[k..k + 5][t - k];
      } else {
        assert url[t] == url[k + 5..][t - (k + 5)];
      }
    }
    if EditAt(r, j) {
      var e := r[j..j + 5];
      assert e == EditSegment;
      assert r[j] == '/' && r[j + 1] == 'e' && r[j + 2] == 'd' && r[j + 3] == 'i' && r[j + 4] == 't' by {
        assert r[j] == e[0] && r[j + 1] == e[1] && r[j + 2] == e[2] && r[j + 3] == e[3] && r[j + 4] == e[4];
      }
      assert r[k..] == PreviewSegment;
      assert r[k] == '/' && r[k + 1] == 'p';
      forall t | k + 1 <= t < |r|
        ensures r[t] != '/'
      {
        assert r[t] == r[k..][t - k];
      }
      assert j + 5 <= k;
      assert url[j..j + 5] == r[j..j + 5];
      assert EditAt(url, j) && !MatchAt(url, j);
      var m :| j + 5 <= m < |url| && IsLineTerminator(url[m]);
      assert url[m] == url[j + 5..][m - (j + 5)];
      assert m < k;
      assert r[j + 5..][m - (j + 5)] == url[m];
    }
  }

  /** Rewriting twice is rewriting once. */
  lemma PreviewUrlIdempotent(url: string)
    ensures PreviewUrl(PreviewUrl(url)) == PreviewUrl(url)
  {
    match FirstMatch(url, 0)
    case None =>
    case Some(k) =>
      var r := url[..k] + PreviewSegment;
      forall j | 0 <= j
        ensures !MatchAt(r, j)
      {
        NoMatchAfterRewrite(url, k, j);
      }
      assert FirstMatch(r, 0) == None;
  }

  /** What the open modal shows: the iframe's source and the download button's state. */
  datatype Modal = Modal(iframeSrc: string, downloadDisabled: bool, showsSpinner: bool)

  /** The render: nothing while closed; otherwise the preview iframe and a download button blocked while busy. */
  function Render(isOpen: bool, docUrl: string, isDownloading: bool): (m: Option<Modal>)
    ensures m.None? <==> !isOpen
    ensures m.Some? ==> m.value.iframeSrc == PreviewUrl(docUrl)
    ensures m.Some? ==> m.value.downloadDisabled == isDownloading == m.value.showsSpinner
  {
    if !isOpen then None else Some(Modal(PreviewUrl(docUrl), isDownloading, isDownloading))
  }

  /** The mounted viewer's `isDownloading` state. */
  class ResumeDownloader {
    var isDownloading: bool

    constructor ()
      ensures !isDownloading
    {
      isDownloading := false;
    }

    /**
     * The synchronous start of `handleDownload`: a no-op while a download runs;
     * otherwise the flag is raised and the PDF is requested for the same preview
     * link the open modal's iframe shows.
     */
    method HandleDownload(docUrl: string) returns (request: Option<string>)
      modifies this
      ensures old(isDownloading) ==> request == None && isDownloading
      ensures !old(isDownloading) ==> isDownloading && request == Some(Render(true, docUrl, false).value.iframeSrc)
    {
      if isDownloading {
        return None;
      }
      isDownloading := true;
      var previewUrl := PreviewUrl(docUrl);
      request := Some(previewUrl);
    }

    /** The `finally` block: the download ended, successfully or not, and the flag drops either way. */
    method DownloadSettled()
      modifies this
      ensures !isDownloading
    {
      isDownloading := false;
    }
  }
}
