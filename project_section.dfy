/**
 * The projects section (src/sections/ProjectSection.jsx): the inline project
 * list, its partition into pages of three, and the pagination handlers with
 * the page effect that reloads the shown projects and trims the card refs.
 */
module ProjectSection {
  import opened Options

  /** One project card; the description, tags and colours are display-only and left out. */
  datatype Project = Project(id: int, title: string, image: string)

  /** `projectsData`: the seven inline projects. */
  const ProjectsData: seq<Project> := [
    Project(1, "Isko-Chat Ai", "/images/projects/isko-chat.png"),
    Project(2, "Sparkfest 2025", "/images/projects/sparkfest.png"),
    Project(3, "Password Manager", "/images/projects/password.png"),
    Project(4, "Alertech Web Dashboard", "/images/projects/alertech.png"),
    Project(5, "DSA Visualizer", "/images/projects/dsa.png"),
    Project(6, "SCAM App", "/images/projects/scam.png"),
    Project(7, "Facial Recognition Attendance System with Email Notification", "/images/projects/facial-attendance.png")
  ]

  const ProjectsPerPage := 3

  /** `Math.ceil(n / projectsPerPage)`: the fewest pages of three that hold `n` items. */
  function TotalPages(n: nat): (pages: nat)
    ensures n <= ProjectsPerPage * pages
    ensures pages > 0 ==> ProjectsPerPage * (pages - 1) < n
  {
    (n + ProjectsPerPage - 1) / ProjectsPerPage
  }

  function MinNat(a: nat, b: nat): nat {
    if a <= b then a else b
  }

  /** `Array.prototype.slice(start, end)` for non-negative bounds: both are clamped to the length. */
  function JsSlice<T>(s: seq<T>, start: nat, end: nat): (r: seq<T>)
    ensures |r| == if MinNat(start, |s|) <= MinNat(end, |s|) then MinNat(end, |s|) - MinNat(start, |s|) else 0
    ensures r != [] ==> start + |r| <= |s|
    ensures forall k :: 0 <= k < |r| ==> r[k] == s[start + k]
  {
    var lo, hi := MinNat(start, |s|), MinNat(end, |s|);
    if lo <= hi then s[lo..hi] else []
  }

  /** The projects shown on page `page`: the items from `3 * page`, at most three of them. */
  function PageItems<T>(data: seq<T>, page: nat): (r: seq<T>)
    ensures |r| <= ProjectsPerPage
    ensures r != [] ==> ProjectsPerPage * page + |r| <= |data|
    ensures forall k :: 0 <= k < |r| ==> r[k] == data[ProjectsPerPage * page + k]
    ensures page < TotalPages(|data|) ==> 0 < |r| && |r| == MinNat(ProjectsPerPage, |data| - ProjectsPerPage * page)
    ensures page >= TotalPages(|data|) ==> r == []
  {
    var start := ProjectsPerPage * page;
    JsSlice(data, start, start + ProjectsPerPage)
  }

  /** Pages `page`, `page + 1`, ..., up to the last page, concatenated in order. */
  function PagesFrom<T>(data: seq<T>, page: nat): seq<T>
    decreases TotalPages(|data|) - page
  {
    if page >= TotalPages(|data|) then [] else PageItems(data, page) + PagesFrom(data, page + 1)
  }

  /** The pages from `page` on hold exactly the data from `3 * page` on. */
  lemma {:induction false} PagesFromIsSuffix<T>(data: seq<T>, page: nat)
    requires page <= TotalPages(|data|)
    ensures PagesFrom(data, page) == data[MinNat(ProjectsPerPage * page, |data|)..]
    decreases TotalPages(|data|) - page
  {
    var start := MinNat(ProjectsPerPage * page, |data|);
    if page == TotalPages(|data|) {
      assert start == |data|;
    } else {
      PagesFromIsSuffix(data, page + 1);
      var items := PageItems(data, page);
      var next := MinNat(ProjectsPerPage * (page + 1), |data|);
      assert start == ProjectsPerPage * page;
      assert items == data[start..next];
      assert data[start..] == data[start..next] + data[next..];
    }
  }

  /** Concatenating every page gives back the data: the pages partition it, in order. */
  lemma PagesPartitionData<T>(data: seq<T>)
    ensures PagesFrom(data, 0) == data
  {
    PagesFromIsSuffix(data, 0);
  }

  /** The seven inline projects make three pages of 3, 3 and 1. */
  lemma InlineProjectsMakeThreePages()
    ensures TotalPages(|ProjectsData|) == 3
    ensures |PageItems(ProjectsData, 0)| == 3 && |PageItems(ProjectsData, 1)| == 3
    ensures PageItems(ProjectsData, 2) == [ProjectsData[6]]
  {
  }

  /** The pagination controls: previous, next, and the numbered button for page `index`. */
  datatype PageEvent = PrevPage | NextPage | GoToPage(index: int)

  /** The numbered buttons exist only for indices `0 .. totalPages - 1`. */
  predicate OfferedEvent(e: PageEvent, totalPages: nat) {
    e.GoToPage? ==> 0 <= e.index < totalPages
  }

  /** `currentPage` after one handler. */
  function PageStep(page: int, totalPages: nat, e: PageEvent): int {
    match e
    case PrevPage => if page > 0 then page - 1 else page
    case NextPage => if page < totalPages - 1 then page + 1 else page
    case GoToPage(index) => index
  }

  function PageRun(page: int, totalPages: nat, es: seq<PageEvent>): int
    decreases |es|
  {
    if es == [] then page else PageRun(PageStep(page, totalPages, es[0]), totalPages, es[1..])
  }

  /** Starting on a valid page, any sequence of offered clicks keeps the page in range. */
  lemma {:induction false} PageStaysInRange(page: int, totalPages: nat, es: seq<PageEvent>)
    requires 0 <= page < totalPages
    requires forall i :: 0 <= i < |es| ==> OfferedEvent(es[i], totalPages)
    ensures 0 <= PageRun(page, totalPages, es) < totalPages
    decreases |es|
  {
    if es != [] {
      assert OfferedEvent(es[0], totalPages);
      PageStaysInRange(PageStep(page, totalPages, es[0]), totalPages, es[1..]);
    }
  }

  /** `disabled` of the previous button. */
  predicate PrevDisabled(page: int) {
    page == 0
  }

  /** `disabled` of the next button. */
  predicate NextDisabled(page: int, totalPages: nat) {
    page == totalPages - 1
  }

  /** On a valid page a button is disabled exactly when its handler would do nothing; otherwise it moves by one. */
  lemma DisabledIffNoOp(page: int, totalPages: nat)
    requires 0 <= page < totalPages
    ensures PrevDisabled(page) <==> PageStep(page, totalPages, PrevPage) == page
    ensures !PrevDisabled(page) ==> PageStep(page, totalPages, PrevPage) == page - 1
    ensures NextDisabled(page, totalPages) <==> PageStep(page, totalPages, NextPage) == page
    ensures !NextDisabled(page, totalPages) ==> PageStep(page, totalPages, NextPage) == page + 1
  {
  }

  /** A card ref callback storing `el` at `index`; JavaScript fills any gap with holes (`None`). */
  function SetRef(refs: seq<Option<int>>, index: nat, el: Option<int>): (r: seq<Option<int>>)
    ensures |r| == if index < |refs| then |refs| else index + 1
    ensures r[index] == el
    ensures forall k :: 0 <= k < |r| && k != index ==> r[k] == if k < |refs| then refs[k] else None
  {
    if index < |refs| then refs[index := el]
    else refs + seq(index - |refs|, _ => None) + [el]
  }

  /** The mounted section: its page state, the projects shown and the card refs. */
  class ProjectPager {
    var currentPage: int
    var projects: seq<Project>
    var projectRefs: seq<Option<int>>

    ghost predicate Valid()
      reads this
    {
      0 <= currentPage < TotalPages(|ProjectsData|)
    }

    constructor ()
      ensures Valid() && currentPage == 0 && projects == [] && projectRefs == []
    {
      currentPage := 0;
      projects := [];
      projectRefs := [];
    }

    /** `handlePrevPage`. */
    method HandlePrevPage()
      requires Valid()
      modifies this
      ensures Valid()
      ensures currentPage == PageStep(old(currentPage), TotalPages(|ProjectsData|), PrevPage)
      ensures projects == old(projects) && projectRefs == old(projectRefs)
    {
      if currentPage > 0 {
        HandlePageChange(currentPage - 1);
      }
    }

    /** `handleNextPage`. */
    method HandleNextPage()
      requires Valid()
      modifies this
      ensures Valid()
      ensures currentPage == PageStep(old(currentPage), TotalPages(|ProjectsData|), NextPage)
      ensures projects == old(projects) && projectRefs == old(projectRefs)
    {
      if currentPage < TotalPages(|ProjectsData|) - 1 {
        HandlePageChange(currentPage + 1);
      }
    }

    /** `handlePageChange`, reached from the numbered buttons (and the two handlers above). */
    method HandlePageChange(pageNumber: int)
      requires 0 <= pageNumber < TotalPages(|ProjectsData|)
      modifies this
      ensures Valid() && currentPage == pageNumber
      ensures projects == old(projects) && projectRefs == old(projectRefs)
    {
      currentPage := pageNumber;
    }

    /** The page effect: show this page's projects and keep only as many refs as cards. */
    method PageEffect()
      requires Valid()
      modifies this
      ensures Valid() && currentPage == old(currentPage)
      ensures projects == PageItems(ProjectsData, currentPage) && 0 < |projects| <= ProjectsPerPage
      ensures projectRefs == old(projectRefs)[..MinNat(|old(projectRefs)|, |projects|)]
      ensures |projectRefs| <= |projects|
    {
      var start := ProjectsPerPage * currentPage;
      var selected := JsSlice(ProjectsData, start, start + ProjectsPerPage);
      projects := selected;
      projectRefs := JsSlice(projectRefs, 0, |selected|);
    }

    /** A card's ref callback at `index` (React passes `None` when the card goes away). */
    method AttachRef(index: nat, el: Option<int>)
      modifies this
      ensures projectRefs == SetRef(old(projectRefs), index, el)
      ensures currentPage == old(currentPage) && projects == old(projects)
    {
      projectRefs := SetRef(projectRefs, index, el);
    }
  }
}
