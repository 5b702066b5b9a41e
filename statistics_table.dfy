/** The string helpers of the statistics table (components/statistics-table). */
module StatisticsTable {
  import opened Common

  const MaxShownLength: nat := 50
  const Ellipsis: string := "..."

  /** `truncateUrl`: urls up to 50 characters are shown whole; longer ones are cut
      to their first 50 characters followed by "...". */
  function TruncateUrl(url: string): (r: string)
    ensures |url| <= MaxShownLength ==> r == url
    ensures |url| > MaxShownLength ==> |r| == MaxShownLength + |Ellipsis|
                                       && r[..MaxShownLength] == url[..MaxShownLength]
                                       && r[MaxShownLength..] == Ellipsis
    ensures |r| <= MaxShownLength + |Ellipsis|
  {
    if |url| > MaxShownLength then url[..MaxShownLength] + Ellipsis else url
  }

  /** Truncating what is already truncated changes nothing: the 53-character
      result of a cut is cut again to the same 50 characters and "...". */
  lemma TruncateUrlIdempotent(url: string)
    ensures TruncateUrl(TruncateUrl(url)) == TruncateUrl(url)
  {
  }

  /** `ensureProtocol`: an http(s) url is kept, anything else gets "https://" in
      front; the branch for "www." urls gives the same result as the last one. */
  function EnsureProtocol(url: string): (r: string)
    ensures HasHttpScheme(r)
    ensures HasHttpScheme(url) ==> r == url
    ensures !HasHttpScheme(url) ==> r == Https + url
  {
    if HasHttpScheme(url) then url
    else if StartsWith(url, "www.") then
      PrefixedHasPrefix(Https, url);
      Https + url
    else
      PrefixedHasPrefix(Https, url);
      Https + url
  }

  /** The table's `ensureProtocol` and the redirect containers' `addHttps` agree
      on every url, so the link in the table and the redirect target coincide. */
  lemma EnsureProtocolIsAddHttps(url: string)
    ensures EnsureProtocol(url) == AddHttps(url)
    ensures EnsureProtocol(EnsureProtocol(url)) == EnsureProtocol(url)
  {
  }

  /** `getShortUrl`, with `window.location.origin` as a parameter: the origin, a
      slash and the code, from which the code can be read back. */
  function GetShortUrl(origin: string, shortCode: string): (r: string)
    ensures |r| == |origin| + 1 + |shortCode|
    ensures StartsWith(r, origin + "/")
    ensures r[|origin| + 1..] == shortCode
  {
    PrefixedHasPrefix(origin + "/", shortCode);
    origin + "/" + shortCode
  }
}
