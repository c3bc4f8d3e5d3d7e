/** The projects admin: a list loaded once when the section scrolls into view, with
    a loading flag around each fetch, and a create/edit form with an image preview. */
module AdminProjects {
  import opened Net
  import Trigger
  import Forms
  import DataUrl

  const Api: string := "/home/projects"

  /** A project as listed; `image` is its stored base64 payload. */
  datatype Project = Project(id: int, title: string, description: string, image: string)

  class ProjectsSectionCrud {
    var projects: seq<Project>
    var loading: bool
    var title: string
    var description: string
    var image: Option<File>
    var previewImage: Option<string>
    var editingId: Option<int>
    var hasFetched: bool

    constructor ()
      ensures projects == [] && !loading && !hasFetched && FormIsEmpty()
    {
      projects, loading, title, description := [], false, "", "";
      image, previewImage, editingId, hasFetched := None, None, None, false;
    }

    /** Every form field at its initial value. */
    predicate FormIsEmpty()
      reads this
    {
      title == "" && description == "" && image == None && previewImage == None && editingId == None
    }

    /** The request the form would send now. */
    function PendingRequest(): Request
      reads this
    {
      Forms.SubmitRequest(Api, ("title", "description"), title, description, image, editingId)
    }

    /** The start of `fetchProjects`: `loading` is raised while the request is out. */
    method BeginFetch() returns (request: Request)
      modifies this`loading
      ensures loading && request == Get(Collection(Api))
    {
      loading := true;
      request := Get(Collection(Api));
    }

    /** The end of `fetchProjects`: a success replaces the list, a failure keeps it, and
        `loading` is cleared in both cases. */
    method FetchSettled(response: Response<seq<Project>>)
      modifies this`projects, this`loading
      ensures !loading
      ensures projects == if response.Ok? then response.body else old(projects)
    {
      if response.Ok? {
        projects := response.body;
      }
      loading := false;
    }

    /** The observer callback: the flag is raised before the fetch starts, so the fetch
        starts on the first intersection only, whether or not it succeeds. */
    method Intersect(isIntersecting: bool) returns (request: Option<Request>)
      modifies this`hasFetched, this`loading
      ensures request.Some? ==> request.value == Get(Collection(Api)) && loading
      ensures request.None? ==> loading == old(loading)
      ensures (hasFetched, request.Some?) == Trigger.Step(old(hasFetched), isIntersecting)
    {
      if isIntersecting && !hasFetched {
        hasFetched := true;
        var r := BeginFetch();
        request := Some(r);
      } else {
        request := None;
      }
    }

    /** `handleSubmit`: an incomplete form sends nothing; a complete one sends its PUT or
        POST, and only on success resets the form and starts a refetch. */
    method Submit(succeeded: bool) returns (sent: seq<Request>)
      modifies this
      ensures projects == old(projects) && hasFetched == old(hasFetched)
      ensures !old(Forms.Complete(title, description, image, editingId)) ==> sent == [] && unchanged(this)
      ensures old(Forms.Complete(title, description, image, editingId)) && !succeeded ==>
                sent == [old(PendingRequest())] && unchanged(this)
      ensures old(Forms.Complete(title, description, image, editingId)) && succeeded ==>
                sent == [old(PendingRequest()), Get(Collection(Api))] && FormIsEmpty() && loading
    {
      if !Forms.Complete(title, description, image, editingId) {
        return [];
      }
      sent := [PendingRequest()];
      if !succeeded {
        return;
      }
      ResetForm();
      var refetch := BeginFetch();
      sent := sent + [refetch];
    }

    /** `handleEdit`: load a project into the form with its stored image as preview;
        the picked image is left as it is. */
    method Edit(project: Project)
      modifies this`title, this`description, this`previewImage, this`editingId
      ensures editingId == Some(project.id) && title == project.title && description == project.description
      ensures previewImage == Some(DataUrl.AsJpeg(project.image)) && image == old(image)
    {
      title := project.title;
      description := project.description;
      previewImage := Some(DataUrl.AsJpeg(project.image));
      editingId := Some(project.id);
    }

    /** `handleDelete`: an unconfirmed delete returns at once; a confirmed one sends a
        DELETE and starts a refetch only when it succeeds. */
    method DeleteProject(id: int, confirmed: bool, succeeded: bool) returns (sent: seq<Request>)
      modifies this`loading
      ensures !confirmed ==> sent == [] && loading == old(loading)
      ensures confirmed && !succeeded ==> sent == [Delete(Record(Api, id))] && loading == old(loading)
      ensures confirmed && succeeded ==> sent == [Delete(Record(Api, id)), Get(Collection(Api))] && loading
    {
      if !confirmed {
        return [];
      }
      sent := [Delete(Record(Api, id))];
      if succeeded {
        var refetch := BeginFetch();
        sent := sent + [refetch];
      }
    }

    method ResetForm()
      modifies this`title, this`description, this`image, this`previewImage, this`editingId
      ensures FormIsEmpty()
    {
      title, description, image, previewImage, editingId := "", "", None, None, None;
    }
  }
}
