/**
 * The team dialog's incremental list: a page counter over the filtered teams
 * that grows by one page per completed load. The timer between starting a load
 * and completing it is modelled as two steps; the completion uses the filtered
 * length captured when the load started, as the scheduled callback does.
 */
module TeamLogoDialog {
  import opened TeamLogoSelector

  const PageSize := 12

  function Min(a: int, b: int): int {
    if a <= b then a else b
  }

  /** `filteredTeams.slice(0, displayedCount)`: the first teams, as many as the count allows. */
  function DisplayedTeams(filtered: seq<Team>, displayedCount: nat): (r: seq<Team>)
    ensures |r| == Min(displayedCount, |filtered|)
    ensures r == filtered[..|r|]
  {
    if displayedCount <= |filtered| then filtered[..displayedCount] else filtered
  }

  /** There is more to show exactly when the displayed teams are fewer than the filtered ones. */
  function HasMoreItems(filtered: seq<Team>, displayedCount: nat): (b: bool)
    ensures b <==> |DisplayedTeams(filtered, displayedCount)| < |filtered|
  {
    displayedCount < |filtered|
  }

  /** The count a completed load leaves: one page more, but never past the total. */
  function NextCount(prev: nat, total: nat): (n: nat)
    ensures n <= total
    ensures n == prev + PageSize || n == total
    ensures prev < total ==> prev < n
    ensures n <= prev + PageSize
  {
    Min(prev + PageSize, total)
  }

  /** The count after `loads` completed loads, each started only while more remained:
      one page per load up to the total, and no change once the total is reached. */
  function CountAfterLoads(count: nat, total: nat, loads: nat): (r: nat)
    ensures count >= total ==> r == count
    ensures count < total ==> r == Min(count + PageSize * loads, total)
    decreases loads
  {
    if loads == 0 || count >= total then count else CountAfterLoads(NextCount(count, total), total, loads - 1)
  }

  /** Enough loads display every filtered team. */
  lemma {:induction false} LoadsReachTotal(count: nat, total: nat, loads: nat)
    requires count <= total && count + PageSize * loads >= total
    ensures CountAfterLoads(count, total, loads) == total
    decreases loads
  {
    if loads > 0 && count < total {
      LoadsReachTotal(NextCount(count, total), total, loads - 1);
    }
  }

  class TeamPager {
    var displayedCount: nat
    var isLoadingMore: bool
    /** The filtered length seen by the load in flight. */
    var pendingTotal: nat

    /** The count never drops below one page, and a load is in flight only while the
        captured total exceeds the count. */
    predicate Valid()
      reads this
    {
      displayedCount >= PageSize && (isLoadingMore ==> displayedCount < pendingTotal)
    }

    constructor ()
      ensures Valid()
      ensures displayedCount == PageSize && !isLoadingMore
    {
      displayedCount, isLoadingMore, pendingTotal := PageSize, false, 0;
    }

    /** `handleSearchChange`: forwards the text to the selector, then goes back to one page. */
    method HandleSearchChange(picker: TeamPicker, text: string)
      requires Valid()
      modifies this`displayedCount, picker`searchQuery
      ensures Valid()
      ensures picker.searchQuery == text
      ensures displayedCount == PageSize
    {
      picker.SetSearchQuery(text);
      displayedCount := PageSize;
    }

    /** `loadMoreItems`: does nothing while a load is in flight or when nothing remains;
        otherwise marks a load as in flight. */
    method BeginLoad(filtered: seq<Team>) returns (started: bool)
      requires Valid()
      modifies this`isLoadingMore, this`pendingTotal
      ensures Valid()
      ensures started <==> !old(isLoadingMore) && HasMoreItems(filtered, displayedCount)
      ensures started ==> isLoadingMore && pendingTotal == |filtered|
      ensures !started ==> isLoadingMore == old(isLoadingMore) && pendingTotal == old(pendingTotal)
    {
      if isLoadingMore || !HasMoreItems(filtered, displayedCount) {
        return false;
      }
      isLoadingMore := true;
      pendingTotal := |filtered|;
      started := true;
    }

    /** The timer callback of a started load: one page more, capped at the captured total. */
    method CompleteLoad()
      requires Valid() && isLoadingMore
      modifies this`displayedCount, this`isLoadingMore
      ensures Valid()
      ensures displayedCount == NextCount(old(displayedCount), pendingTotal)
      ensures old(displayedCount) < displayedCount <= pendingTotal
      ensures !isLoadingMore
    {
      displayedCount := Min(displayedCount + PageSize, pendingTotal);
      isLoadingMore := false;
    }
  }
}
