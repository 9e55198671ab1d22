/** The paged list of date groups in components/common/timer/timer-list.tsx.
    Pages are numbered from 0; the page count is whatever the backend reports. */
module GroupedTimerList {
  import opened Js
  import opened Models

  /** The `groupedTimers` member of a page response: an array of date groups or something else. */
  datatype Groups = GroupArray(groups: seq<DateGroup>) | NotAnArray

  /** What `getTimers(page)` resolves to. */
  datatype TimerPage = TimerPage(groupedTimers: Groups, totalCount: int)

  /** The Previous button: `Math.max(prev - 1, 0)`. */
  function PreviousPage(page: int): int {
    if page - 1 > 0 then page - 1 else 0
  }

  /** The Next button: `Math.min(prev + 1, totalPages - 1)`. */
  function NextPage(page: int, totalPages: int): int {
    if page + 1 < totalPages - 1 then page + 1 else totalPages - 1
  }

  predicate PreviousDisabled(page: int) {
    page == 0
  }

  predicate NextDisabled(page: int, totalPages: int) {
    page == totalPages - 1
  }

  predicate InRange(page: int, totalPages: int) {
    0 <= page < totalPages
  }

  /** "Page {currentPage + 1} of {totalPages}" */
  function PageLabel(page: int, totalPages: int): string {
    "Page " + IntToString(page + 1) + " of " + IntToString(totalPages)
  }

  /** Previous steps back one page and stops at 0: it never leaves 0..p, and does nothing at 0. */
  lemma PreviousClamps(page: int)
    requires page >= 0
    ensures 0 <= PreviousPage(page) <= page
    ensures PreviousPage(page) == page <==> PreviousDisabled(page)
    ensures !PreviousDisabled(page) ==> PreviousPage(page) == page - 1
  {
  }

  /** With at least one page, both buttons keep the page in 0..totalPages-1, and an
      enabled button really moves. */
  lemma ButtonsKeepRange(page: int, totalPages: int)
    requires totalPages >= 1 && InRange(page, totalPages)
    ensures InRange(PreviousPage(page), totalPages) && InRange(NextPage(page, totalPages), totalPages)
    ensures !NextDisabled(page, totalPages) ==> NextPage(page, totalPages) == page + 1
    ensures NextDisabled(page, totalPages) ==> NextPage(page, totalPages) == page
  {
  }

  /** With no pages at all, Next is enabled at page 0 and moves to page -1. */
  lemma NextWithNoPages()
    ensures !NextDisabled(0, 0) && NextPage(0, 0) == -1 && !InRange(NextPage(0, 0), 0)
  {
  }

  /** Once the page count shrinks below the current page, Next moves backwards to the last page. */
  lemma NextAfterShrink(page: int, totalPages: int)
    requires 1 <= totalPages <= page
    ensures NextPage(page, totalPages) == totalPages - 1 < page
  {
  }

  /** The label reads back as four words: the shown page number is `page + 1`, so it lies
      in 1..totalPages for every page in range, and the total is the count as reported. */
  lemma {:induction false} LabelIsOneBased(page: int, totalPages: int)
    ensures var words := Split(PageLabel(page, totalPages), ' ');
      |words| == 4 && words[0] == "Page" && words[2] == "of" &&
      IntegerText(words[1]) == Some(page + 1) && IntegerText(words[3]) == Some(totalPages)
    ensures InRange(page, totalPages) ==> 1 <= IntegerText(Split(PageLabel(page, totalPages), ' ')[1]).value <= totalPages
  {
    var shown, total := IntToString(page + 1), IntToString(totalPages);
    NoSpaceInIntToString(page + 1);
    NoSpaceInIntToString(totalPages);
    assert PageLabel(page, totalPages) == "Page" + [' '] + (shown + [' '] + ("of" + [' '] + total));
    SplitJoined("Page", ' ', shown + [' '] + ("of" + [' '] + total));
    SplitJoined(shown, ' ', "of" + [' '] + total);
    SplitJoined("of", ' ', total);
    SplitNoSeparator(total, ' ');
    IntegerTextOfIntToString(page + 1);
    IntegerTextOfIntToString(totalPages);
  }

  class TimerList {
    var timers: seq<DateGroup>
    var currentPage: int
    var totalPages: int

    constructor ()
      ensures timers == [] && currentPage == 0 && totalPages == 0
    {
      timers, currentPage, totalPages := [], 0, 0;
    }

    /** The page the effect asks `getTimers` for. */
    function RequestedPage(): int
      reads this
    {
      currentPage
    }

    /** The fetch result: anything but an array empties the list; the page count is `totalCount` as given. */
    method ReceivePage(response: TimerPage)
      modifies this
      ensures timers == (if response.groupedTimers.GroupArray? then response.groupedTimers.groups else [])
      ensures totalPages == response.totalCount && currentPage == old(currentPage)
    {
      timers := if response.groupedTimers.GroupArray? then response.groupedTimers.groups else [];
      totalPages := response.totalCount;
    }

    method Previous()
      modifies this
      ensures currentPage == PreviousPage(old(currentPage))
      ensures timers == old(timers) && totalPages == old(totalPages)
      ensures old(InRange(currentPage, totalPages)) ==> InRange(currentPage, totalPages)
    {
      currentPage := if currentPage - 1 > 0 then currentPage - 1 else 0;
    }

    method Next()
      modifies this
      ensures currentPage == NextPage(old(currentPage), old(totalPages))
      ensures timers == old(timers) && totalPages == old(totalPages)
      ensures old(InRange(currentPage, totalPages)) ==> InRange(currentPage, totalPages)
    {
      currentPage := if currentPage + 1 < totalPages - 1 then currentPage + 1 else totalPages - 1;
    }
  }
}
