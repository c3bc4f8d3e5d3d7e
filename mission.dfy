/** The mission-statement admin: a single record loaded once when the section
    scrolls into view, and a form that PUTs heading and description back. */
module Mission {
  import opened Net
  import Trigger

  const Api: string := "/mission"

  datatype MissionRecord = MissionRecord(heading: string, description: string)

  class MissionStatementCrud {
    var heading: string
    var description: string
    var loading: bool
    var hasFetched: bool

    constructor ()
      ensures heading == "" && description == "" && !loading && !hasFetched
    {
      heading, description, loading, hasFetched := "", "", false, false;
    }

    /** The observer callback: the flag is raised before the request goes out, so the
        request is issued on the first intersection only. */
    method Intersect(isIntersecting: bool) returns (request: Option<Request>)
      modifies this`hasFetched
      ensures request.Some? ==> request.value == Get(Collection(Api))
      ensures (hasFetched, request.Some?) == Trigger.Step(old(hasFetched), isIntersecting)
    {
      if isIntersecting && !hasFetched {
        hasFetched := true;
        request := Some(Get(Collection(Api)));
      } else {
        request := None;
      }
    }

    /** `fetchMission` settling: the fields are overwritten only when the response carries
        a record (`res.data?.data`); an empty response or a failure keeps them. */
    method Receive(response: Response<Option<MissionRecord>>)
      modifies this`heading, this`description
      ensures response.Ok? && response.body.Some? ==>
                heading == response.body.value.heading && description == response.body.value.description
      ensures !(response.Ok? && response.body.Some?) ==> heading == old(heading) && description == old(description)
    {
      if response.Ok? && response.body.Some? {
        heading := response.body.value.heading;
        description := response.body.value.description;
      }
    }

    /** The start of `handleSubmit`: with a field empty nothing is sent and nothing changes;
        otherwise `loading` is raised and both fields are PUT as they are. */
    method Submit() returns (request: Option<Request>)
      modifies this`loading
      ensures request.None? <==> heading == "" || description == ""
      ensures request.None? ==> loading == old(loading)
      ensures request.Some? ==>
                && loading
                && request.value == Put(Collection(Api), Body([("heading", heading), ("description", description)], None))
    {
      if heading == "" || description == "" {
        return None;
      }
      loading := true;
      request := Some(Put(Collection(Api), Body([("heading", heading), ("description", description)], None)));
    }

    /** The end of `handleSubmit`: `loading` is cleared whatever the outcome (which only
        chooses the toast), and the fields stay as they were. */
    method SubmitSettled(succeeded: bool)
      modifies this`loading
      ensures !loading
    {
      loading := false;
    }
  }
}
