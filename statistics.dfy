/** Click statistics and the aggregates the statistics overview derives from them
    (components/statistics-overview). The quick stats of the url-shortener
    container use the same click total. */
module Statistics {
  import opened Common

  /** One entry of the stats list; `clickCount` is a whole number. */
  datatype ClickStats = ClickStats(shortCode: string, originalUrl: string, clickCount: int, createdAt: string)

  /** `stats.reduce((total, stat) => total + stat.click_count, 0)`: a left fold, so
      the last entry is added last. A list with no negative counts has a total
      that is not negative. */
  function TotalClicks(stats: seq<ClickStats>): (total: int)
    ensures (forall j | 0 <= j < |stats| :: stats[j].clickCount >= 0) ==> total >= 0
  {
    if stats == [] then 0
    else TotalClicks(stats[..|stats| - 1]) + stats[|stats| - 1].clickCount
  }

  /** The total of two lists one after the other is the sum of their totals. */
  lemma {:induction false} TotalClicksAppend(a: seq<ClickStats>, b: seq<ClickStats>)
    ensures TotalClicks(a + b) == TotalClicks(a) + TotalClicks(b)
    decreases |b|
  {
    if b != [] {
      var front := b[..|b| - 1];
      assert (a + b)[..|a + b| - 1] == a + front;
      TotalClicksAppend(a, front);
    } else {
      assert a + b == a;
    }
  }

  /** The total is the sum of the entries' counts: 0 for an empty list, and the
      first entry's count plus the total of the rest otherwise. */
  lemma {:induction false} TotalClicksFromFront(stats: seq<ClickStats>)
    requires stats != []
    ensures TotalClicks(stats) == stats[0].clickCount + TotalClicks(stats[1..])
  {
    assert stats == [stats[0]] + stats[1..];
    TotalClicksAppend([stats[0]], stats[1..]);
    assert [stats[0]][..0] == [];
  }

  /** With no negative counts, the total bounds every single count. */
  lemma {:induction false} TotalClicksBoundsEach(stats: seq<ClickStats>, i: nat)
    requires forall j | 0 <= j < |stats| :: stats[j].clickCount >= 0
    requires i < |stats|
    ensures 0 <= stats[i].clickCount <= TotalClicks(stats)
    decreases |stats|
  {
    var n := |stats| - 1;
    var front := stats[..n];
    if i < n {
      TotalClicksBoundsEach(front, i);
    } else {
      assert forall j | 0 <= j < |front| :: front[j].clickCount >= 0 by {
        forall j | 0 <= j < |front| ensures front[j].clickCount >= 0 {
          assert front[j] == stats[j];
        }
      }
    }
  }

  /** The reducer of `getMostPopularUrl`: the current entry replaces the running
      one only when its count is strictly larger. */
  function MoreClicked(most: ClickStats, current: ClickStats): ClickStats {
    if current.clickCount > most.clickCount then current else most
  }

  /** `reduce` without an initial value, starting from `most`. */
  function Reduce(most: ClickStats, rest: seq<ClickStats>): ClickStats
    decreases |rest|
  {
    if rest == [] then most else Reduce(MoreClicked(most, rest[0]), rest[1..])
  }

  /** `getMostPopularUrl`: undefined for an empty list. */
  function MostPopular(stats: seq<ClickStats>): (r: Option<ClickStats>)
    ensures r.None? <==> stats == []
  {
    if |stats| == 0 then None else Some(Reduce(stats[0], stats[1..]))
  }

  /** Entry `i` has the largest count, and every entry before it has a strictly
      smaller one: it is the first entry with the maximal count. */
  ghost predicate IsFirstMaximum(stats: seq<ClickStats>, i: int) {
    && 0 <= i < |stats|
    && (forall j | 0 <= j < |stats| :: stats[j].clickCount <= stats[i].clickCount)
    && (forall j | 0 <= j < i :: stats[j].clickCount < stats[i].clickCount)
  }

  /** Folding the rest of the list into the first maximum of a prefix yields the
      first maximum of the whole list. */
  lemma {:induction false} ReduceFindsFirstMaximum(stats: seq<ClickStats>, k: nat, i: nat)
    requires 0 <= i < k <= |stats|
    requires IsFirstMaximum(stats[..k], i)
    ensures exists m :: IsFirstMaximum(stats, m) && Reduce(stats[i], stats[k..]) == stats[m]
    decreases |stats| - k
  {
    if k == |stats| {
      assert stats[..k] == stats;
      assert IsFirstMaximum(stats, i) && Reduce(stats[i], stats[k..]) == stats[i];
    } else {
      assert stats[k..][0] == stats[k] && stats[k..][1..] == stats[k + 1..];
      var prefix := stats[..k + 1];
      assert prefix[..k] == stats[..k];
      if stats[k].clickCount > stats[i].clickCount {
        assert IsFirstMaximum(prefix, k);
        ReduceFindsFirstMaximum(stats, k + 1, k);
      } else {
        assert IsFirstMaximum(prefix, i);
        ReduceFindsFirstMaximum(stats, k + 1, i);
      }
    }
  }

  /** A non-empty list has a first maximum. */
  lemma {:induction false} FirstMaximumExists(stats: seq<ClickStats>)
    requires stats != []
    ensures exists m :: IsFirstMaximum(stats, m) && MostPopular(stats) == Some(stats[m])
  {
    assert IsFirstMaximum(stats[..1], 0);
    ReduceFindsFirstMaximum(stats, 1, 0);
  }

  /** The most popular entry is the first one with the largest click count: it is
      in the list, no entry has more clicks, and on a tie the earliest wins. */
  lemma {:induction false} MostPopularIsFirstMaximum(stats: seq<ClickStats>, i: int)
    requires IsFirstMaximum(stats, i)
    ensures MostPopular(stats) == Some(stats[i])
  {
    FirstMaximumExists(stats);
    var m :| IsFirstMaximum(stats, m) && MostPopular(stats) == Some(stats[m]);
    assert m == i;
  }

  const NotAvailable: string := "N/A"

  /** `getMostPopularUrl()?.short_code || 'N/A'`: the most popular entry's code, or
      "N/A" when there is none or its code is empty. */
  function MostPopularLabel(stats: seq<ClickStats>): (shown: string)
    ensures MostPopular(stats).Some? && MostPopular(stats).value.shortCode != "" ==>
              shown == MostPopular(stats).value.shortCode
    ensures !(MostPopular(stats).Some? && MostPopular(stats).value.shortCode != "") ==>
              shown == NotAvailable
    ensures stats == [] ==> shown == NotAvailable
    ensures shown != NotAvailable ==> exists i | 0 <= i < |stats| :: shown == stats[i].shortCode
    ensures shown != ""
  {
    match MostPopular(stats)
    case Some(most) =>
      if most.shortCode != "" then
        FirstMaximumExists(stats);
        most.shortCode
      else NotAvailable
    case None => NotAvailable
  }
}
