/** The "Our Projects" section of the home page: fetched once when it scrolls into
    view, then shown six at a time behind a "Load More" button. */
module HomeProjects {
  import opened Net
  import opened Paging

  const Api: string := "/home/projects"

  datatype Project = Project(id: int, title: string, description: string, image: string)

  class ProjectsSection {
    var projectData: seq<Project>
    var visibleProjects: seq<Project>
    var hasFetched: bool
    var loading: bool
    var page: nat

    /** Between two events the visible list is the first `page` pages of the fetched list;
        until a fetch succeeds nothing is fetched and the page is the first. */
    ghost predicate Valid()
      reads this
    {
      && page >= 1 && !loading
      && visibleProjects == Prefix(projectData, page * PageSize)
      && (!hasFetched ==> projectData == [] && page == 1)
    }

    constructor ()
      ensures Valid() && !hasFetched && visibleProjects == [] && projectData == []
    {
      projectData, visibleProjects := [], [];
      hasFetched, loading, page := false, false, 1;
    }

    /** `hasMore`: some fetched project is not shown yet, that is, a further page exists. */
    function HasMore(): (more: bool)
      reads this
      requires Valid()
      ensures more <==> page * PageSize < |projectData|
      ensures more ==> PageWindow(projectData, page + 1) != []
    {
      |visibleProjects| < |projectData|
    }

    /** The "Load More" button is rendered only when not loading and `hasMore` holds. */
    function LoadMoreOffered(): (shown: bool)
      reads this
      requires Valid()
      ensures shown <==> |visibleProjects| < |projectData|
    {
      !loading && HasMore()
    }

    /** `fetchProjects`: on success the list is stored, its first page shown and the trigger
        disarmed; on failure only the flag `loading` moved, and it ends cleared either way. */
    method FetchProjects(response: Response<seq<Project>>) returns (request: Request)
      requires Valid() && !hasFetched
      modifies this
      ensures Valid() && request == Get(Collection(Api)) && !loading && page == old(page)
      ensures response.Ok? ==>
                && hasFetched && projectData == response.body
                && visibleProjects == Prefix(response.body, PageSize)
      ensures response.Failed? ==>
                && !hasFetched && projectData == old(projectData) && visibleProjects == old(visibleProjects)
    {
      loading := true;
      request := Get(Collection(Api));
      if response.Ok? {
        var allProjects := response.body;
        projectData := allProjects;
        visibleProjects := Slice(allProjects, 0, PageSize);
        hasFetched := true;
      }
      loading := false;
    }

    /** The observer callback: it fetches only on an intersection while nothing has been
        fetched successfully, so a failed fetch leaves the trigger armed. */
    method Intersect(isIntersecting: bool, response: Response<seq<Project>>) returns (request: Option<Request>)
      requires Valid()
      modifies this
      ensures Valid() && !loading && page == old(page)
      ensures request.Some? <==> isIntersecting && !old(hasFetched)
      ensures request.Some? ==> request.value == Get(Collection(Api))
      ensures request.Some? && response.Ok? ==>
                && hasFetched && projectData == response.body
                && visibleProjects == Prefix(response.body, PageSize)
      ensures !(request.Some? && response.Ok?) ==>
                && hasFetched == old(hasFetched) && projectData == old(projectData)
                && visibleProjects == old(visibleProjects)
    {
      if isIntersecting && !hasFetched {
        var r := FetchProjects(response);
        request := Some(r);
      } else {
        request := None;
      }
    }

    /** `handleLoadMore`, reachable only from the button `LoadMoreOffered` renders: appends
        exactly the next page and moves to it, so the visible list stays the first `page`
        pages and strictly grows. */
    method LoadMore()
      requires Valid() && LoadMoreOffered()
      modifies this`visibleProjects, this`page
      ensures Valid() && page == old(page) + 1
      ensures visibleProjects == old(visibleProjects) + PageWindow(projectData, page)
      ensures |old(visibleProjects)| < |visibleProjects| <= |projectData|
    {
      var nextPage := page + 1;
      var start := (nextPage - 1) * PageSize;
      var end := nextPage * PageSize;
      AppendPage(projectData, page);
      visibleProjects := visibleProjects + Slice(projectData, start, end);
      page := nextPage;
    }
  }
}
