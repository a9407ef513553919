/**
 * The shared `Pagination` control: when each of its four buttons is rendered
 * and when it is disabled, as functions of the props.
 */
module Pagination {
  import AppStore

  /** The props the control reads; `hasFirst`/`hasLast` say whether `onFirst`/`onLast` were passed. */
  datatype Props = Props(
    currentPage: int, totalPages: int, hasNextPage: bool,
    hasFirst: bool, hasLast: bool, loading: bool)

  /** `canGoPrevious`. */
  function CanGoPrevious(p: Props): (can: bool)
    ensures can ==> p.currentPage - 1 >= 1
    ensures !can ==> p.currentPage <= 1
  {
    p.currentPage > 1
  }

  /** Previous: disabled on page 1 or below, and while loading. */
  function PreviousDisabled(p: Props): (disabled: bool)
    ensures disabled <==> p.currentPage <= 1 || p.loading
  {
    !CanGoPrevious(p) || p.loading
  }

  /** Next looks only at `hasNextPage` and `loading`, never at `totalPages`. */
  function NextDisabled(p: Props): (disabled: bool)
    ensures disabled <==> !p.hasNextPage || p.loading
  {
    !p.hasNextPage || p.loading
  }

  /** First: rendered only with an `onFirst` handler and from page 3 on. */
  function FirstShown(p: Props): (shown: bool)
    ensures shown <==> p.hasFirst && p.currentPage >= 3
  {
    p.hasFirst && p.currentPage > 2
  }

  /** Last: rendered only with an `onLast` handler and when at least two pages follow. */
  function LastShown(p: Props): (shown: bool)
    ensures shown <==> p.hasLast && p.currentPage + 2 <= p.totalPages
  {
    p.hasLast && p.currentPage < p.totalPages - 1
  }

  /** First is disabled only while loading, whatever the page. */
  function FirstDisabled(p: Props): (disabled: bool)
    ensures disabled <==> p.loading
  {
    p.loading
  }

  /** Last is disabled only while loading, whatever the page. */
  function LastDisabled(p: Props): (disabled: bool)
    ensures disabled <==> p.loading
  {
    p.loading
  }

  /**
   * The props a page would pass to wire the control to the combined store:
   * its page, page count, next-page flag and loading flag.
   */
  function FromStore(s: AppStore.State, hasFirst: bool, hasLast: bool): (p: Props)
    ensures p.currentPage == s.currentPage && p.totalPages == s.totalPages
    ensures p.hasNextPage == s.hasNextPage && p.loading == s.loading
  {
    Props(s.currentPage, s.totalPages, s.hasNextPage, hasFirst, hasLast, s.loading)
  }

  /**
   * An enabled Previous or Next button always leads to a real move: the store's
   * own guard passes. When nothing is loading, the converse holds too.
   */
  lemma ButtonsAgreeWithStore(s: AppStore.State, hasFirst: bool, hasLast: bool)
    ensures !PreviousDisabled(FromStore(s, hasFirst, hasLast)) ==> AppStore.CanGoPrev(s)
    ensures !NextDisabled(FromStore(s, hasFirst, hasLast)) ==> AppStore.CanGoNext(s)
    ensures !s.loading ==> (!PreviousDisabled(FromStore(s, hasFirst, hasLast)) <==> AppStore.CanGoPrev(s))
    ensures !s.loading ==> (!NextDisabled(FromStore(s, hasFirst, hasLast)) <==> AppStore.CanGoNext(s))
  {
  }

  /** Next does not depend on the page count. */
  lemma NextIgnoresTotal(p: Props, total: int)
    ensures NextDisabled(p) == NextDisabled(p.(totalPages := total))
  {
  }

  /**
   * First appears only where Previous is possible too, and Last only where at
   * least two pages follow.
   */
  lemma ShortcutsImplySteps(p: Props)
    ensures FirstShown(p) ==> CanGoPrevious(p)
    ensures LastShown(p) ==> p.currentPage + 1 < p.totalPages
  {
  }

  /** While loading, no button can be used; otherwise First and Last always can. */
  lemma LoadingDisablesAll(p: Props)
    ensures p.loading ==> PreviousDisabled(p) && NextDisabled(p) && FirstDisabled(p) && LastDisabled(p)
    ensures !p.loading ==> !FirstDisabled(p) && !LastDisabled(p)
  {
  }
}
