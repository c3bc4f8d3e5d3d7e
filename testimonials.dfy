/** The testimonials admin: a list loaded once when the section scrolls into view,
    and a create/edit form with an image preview. */
module Testimonials {
  import opened Net
  import Trigger
  import Forms
  import DataUrl

  const Api: string := "/home/testimonials"

  /** A testimonial as listed; `image` is its stored base64 payload. */
  datatype Testimonial = Testimonial(id: int, name: string, message: string, image: string)

  class TestimonialsCrud {
    var testimonials: seq<Testimonial>
    var name: string
    var message: string
    var image: Option<File>
    var preview: Option<string>
    var editingId: Option<int>
    var hasFetched: bool

    constructor ()
      ensures testimonials == [] && !hasFetched && FormIsEmpty()
    {
      testimonials, name, message := [], "", "";
      image, preview, editingId, hasFetched := None, None, None, false;
    }

    /** Every form field at its initial value. */
    predicate FormIsEmpty()
      reads this
    {
      name == "" && message == "" && image == None && preview == None && editingId == None
    }

    /** The request the form would send now. */
    function PendingRequest(): Request
      reads this
    {
      Forms.SubmitRequest(Api, ("name", "message"), name, message, image, editingId)
    }

    /** The observer callback: the flag is raised before the request goes out, so the
        request is issued on the first intersection only, whether or not it succeeds. */
    method Intersect(isIntersecting: bool) returns (request: Option<Request>)
      modifies this`hasFetched
      ensures request.Some? ==> request.value == Get(Collection(Api))
      ensures (hasFetched, request.Some?) == Trigger.Step(old(hasFetched), isIntersecting)
    {
      if isIntersecting && !hasFetched {
        hasFetched := true;
        request := Some(Get(Collection(Api)));
      } else {
        request := None;
      }
    }

    /** `fetchData` settling: a success replaces the list, a failure keeps it. */
    method Receive(response: Response<seq<Testimonial>>)
      modifies this`testimonials
      ensures testimonials == if response.Ok? then response.body else old(testimonials)
    {
      if response.Ok? {
        testimonials := response.body;
      }
    }

    /** `handleImageChange`: the picked file (possibly none) becomes the image; a picked
        file's object URL, created by the browser, becomes the preview. */
    method ChooseImage(file: Option<File>, objectUrl: string)
      modifies this`image, this`preview
      ensures image == file
      ensures preview == if file.Some? then Some(objectUrl) else old(preview)
    {
      image := file;
      if file.Some? {
        preview := Some(objectUrl);
      }
    }

    /** `handleSubmit`: an incomplete form sends nothing; a complete one sends its PUT or
        POST, and only on success resets the form and refetches the list. */
    method Submit(succeeded: bool) returns (sent: seq<Request>)
      modifies this
      ensures testimonials == old(testimonials) && hasFetched == old(hasFetched)
      ensures !old(Forms.Complete(name, message, image, editingId)) ==> sent == [] && unchanged(this)
      ensures old(Forms.Complete(name, message, image, editingId)) && !succeeded ==>
                sent == [old(PendingRequest())] && unchanged(this)
      ensures old(Forms.Complete(name, message, image, editingId)) && succeeded ==>
                sent == [old(PendingRequest()), Get(Collection(Api))] && FormIsEmpty()
    {
      if !Forms.Complete(name, message, image, editingId) {
        return [];
      }
      sent := [PendingRequest()];
      if !succeeded {
        return;
      }
      ResetForm();
      sent := sent + [Get(Collection(Api))];
    }

    method ResetForm()
      modifies this`name, this`message, this`image, this`preview, this`editingId
      ensures FormIsEmpty()
    {
      name, message, image, preview, editingId := "", "", None, None, None;
    }

    /** `handleEdit`: load a testimonial into the form with its stored image as preview;
        the picked image is left as it is. */
    method Edit(item: Testimonial)
      modifies this`editingId, this`name, this`message, this`preview
      ensures editingId == Some(item.id) && name == item.name && message == item.message
      ensures preview == Some(DataUrl.AsJpeg(item.image)) && image == old(image)
    {
      editingId := Some(item.id);
      name := item.name;
      message := item.message;
      preview := Some(DataUrl.AsJpeg(item.image));
    }

    /** `handleDelete`: a DELETE only once the user confirms, and a refetch only when it succeeds. */
    method DeleteTestimonial(id: int, confirmed: bool, succeeded: bool) returns (sent: seq<Request>)
      ensures !confirmed ==> sent == []
      ensures confirmed ==> sent == [Delete(Record(Api, id))] + (if succeeded then [Get(Collection(Api))] else [])
    {
      sent := [];
      if confirmed {
        sent := [Delete(Record(Api, id))];
        if succeeded {
          sent := sent + [Get(Collection(Api))];
        }
      }
    }
  }
}
