/** The partition date `_extract_dt` chooses for a blob: the explicit `date`
    binding when it is non-empty, else the date captured by the leftmost
    `dt=(\d{4}-\d{2}-\d{2})` match in the blob name, else today's UTC date
    (an input here, since the clock is not modelled). Both trigger modules
    define this same function. */
module PartitionDate {
  import opened Wrappers
  import opened Decimal

  /** The text matched by `\d{4}-\d{2}-\d{2}` (ASCII digits only). */
  predicate IsDateShape(d: string) {
    |d| == 10 &&
    forall k :: 0 <= k < 10 ==> if k == 4 || k == 7 then d[k] == '-' else IsDigit(d[k])
  }

  /** The pattern `dt=(\d{4}-\d{2}-\d{2})` matches `s` at index `i`. */
  predicate DtMatchAt(s: string, i: int) {
    0 <= i && i + 13 <= |s| &&
    s[i] == 'd' && s[i + 1] == 't' && s[i + 2] == '=' &&
    IsDateShape(s[i + 3..i + 13])
  }

  /** The leftmost index at or after `i` where the pattern matches, scanning left to right. */
  function SearchFrom(s: string, i: nat): (m: Option<nat>)
    ensures m.Some? ==> i <= m.value && DtMatchAt(s, m.value)
    ensures m.Some? ==> forall k :: i <= k < m.value ==> !DtMatchAt(s, k)
    ensures m.None? ==> forall k :: i <= k ==> !DtMatchAt(s, k)
    decreases |s| - i
  {
    if |s| < i + 13 then None
    else if DtMatchAt(s, i) then Some(i)
    else SearchFrom(s, i + 1)
  }

  /** `_DT_RE.search(s)` followed by `group(1)`: the date captured by the leftmost match, if any. */
  function SearchDt(s: string): (m: Option<string>)
    ensures m.Some? <==> exists j :: DtMatchAt(s, j)
    ensures m.Some? ==> IsDateShape(m.value)
    ensures forall j :: DtMatchAt(s, j) && (forall k :: 0 <= k < j ==> !DtMatchAt(s, k)) ==>
      m == Some(s[j + 3..j + 13])
  {
    match SearchFrom(s, 0)
    case Some(j) => Some(s[j + 3..j + 13])
    case None => None
  }

  /** `_extract_dt(blob_name, date_param)`, with today's date passed in. */
  function ExtractDt(blobName: Option<string>, dateParam: Option<string>, today: string): (dt: string)
    // A non-empty parameter wins, whatever its content.
    ensures dateParam.GetOr("") != "" ==> dt == dateParam.value
    // Otherwise the leftmost match in the name (None reads as "") decides ...
    ensures dateParam.GetOr("") == "" ==>
      forall j :: DtMatchAt(blobName.GetOr(""), j) && (forall k :: 0 <= k < j ==> !DtMatchAt(blobName.GetOr(""), k)) ==>
        dt == blobName.GetOr("")[j + 3..j + 13]
    ensures dateParam.GetOr("") == "" && (exists j :: DtMatchAt(blobName.GetOr(""), j)) ==> IsDateShape(dt)
    // ... and with no match it is today's date.
    ensures dateParam.GetOr("") == "" && (forall j :: !DtMatchAt(blobName.GetOr(""), j)) ==> dt == today
  {
    if dateParam.GetOr("") != "" then dateParam.value
    else
      match SearchDt(blobName.GetOr(""))
      case Some(d) => d
      case None => today
  }

  /** A name holding `dt=<date>` after a prefix without '=' yields that date:
      no match can start inside such a prefix. */
  lemma DateAfterPrefix(p: string, d: string, q: string)
    requires '=' !in p && IsDateShape(d)
    ensures SearchDt(p + "dt=" + d + q) == Some(d)
  {
    var s := p + "dt=" + d + q;
    var n := |p|;
    assert s[n] == 'd' && s[n + 1] == 't' && s[n + 2] == '=';
    assert s[n + 3..n + 13] == d;
    assert DtMatchAt(s, n);
    forall k | 0 <= k < n ensures !DtMatchAt(s, k) {
      if k + 2 < n {
        assert s[k + 2] == p[k + 2];
      } else {
        assert s[k + 2] in {'d', 't'};
      }
    }
  }

  /** With no date parameter, a name that continues a directory ending in
      `dt=` (and holding no other '=') with a date has that date as its
      partition date. */
  lemma FallbackDateAfterDir(dir: string, d: string, q: string, today: string)
    requires |dir| >= 3 && dir[|dir| - 3..] == "dt=" && '=' !in dir[..|dir| - 3]
    requires IsDateShape(d)
    ensures ExtractDt(Some(dir + d + q), None, today) == d
  {
    var p := dir[..|dir| - 3];
    assert dir == p + "dt=";
    DateAfterPrefix(p, d, q);
  }
}
