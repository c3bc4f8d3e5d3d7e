/** The hero-carousel admin: a create/edit form over the slides, and a Prev/Next
    pager that shows six slide cards per page. */
module HeroCarousel {
  import opened Net
  import opened Paging
  import Forms

  const Api: string := "/hero-carousel"

  /** A slide as the backend returns it; `image` holds the raw image bytes. */
  datatype Slide = Slide(id: int, heading: string, subheading: string, image: seq<bv8>)

  /** `Math.ceil(n / 6)`: the fewest pages of six that hold `n` slides. */
  function PageCount(n: nat): (t: nat)
    ensures t * PageSize >= n
    ensures t == 0 || (t - 1) * PageSize < n
  {
    (n + PageSize - 1) / PageSize
  }

  /** The pages 1..PageCount(|s|) laid end to end give back every slide, in order. */
  lemma WindowsRebuildSlides(s: seq<Slide>)
    ensures Loaded(s, PageCount(|s|)) == s
  {
    LoadedIsPrefix(s, PageCount(|s|));
  }

  /** Every slide is on exactly the page its index says. */
  lemma SlideOnItsPage(s: seq<Slide>, i: nat)
    requires i < |s|
    ensures 1 <= i / PageSize + 1 <= PageCount(|s|)
    ensures PageWindow(s, i / PageSize + 1)[i % PageSize] == s[i]
  {
  }

  class HeroCarouselCrud {
    var slides: seq<Slide>
    var heading: string
    var subheading: string
    var image: Option<File>
    var editingId: Option<int>
    var page: nat

    ghost predicate Valid()
      reads this
    {
      page >= 1
    }

    /** Mounting requests the slides; their arrival is `SlidesArrived`. */
    constructor ()
      ensures Valid() && slides == [] && page == 1
      ensures heading == "" && subheading == "" && image == None && editingId == None
    {
      slides, heading, subheading, image, editingId, page := [], "", "", None, None, 1;
    }

    /** `paginatedSlides`: the slides of the current page, at most six. */
    function PaginatedSlides(): (w: seq<Slide>)
      reads this
      requires Valid()
      ensures |w| <= PageSize
      ensures (page - 1) * PageSize < |slides| ==> w == slides[(page - 1) * PageSize .. Min(page * PageSize, |slides|)]
      ensures |slides| <= (page - 1) * PageSize ==> w == []
    {
      var start := (page - 1) * PageSize;
      var end := start + PageSize;
      Slice(slides, start, end)
    }

    /** `totalPages`: enough pages of six for every slide, with no empty page at the end,
        and the pages laid end to end are the slides. */
    function TotalPages(): (t: nat)
      reads this
      ensures t * PageSize >= |slides| && (t == 0 || (t - 1) * PageSize < |slides|)
      ensures Loaded(slides, t) == slides
    {
      WindowsRebuildSlides(slides);
      PageCount(|slides|)
    }

    /** `fetchSlides` settling: a success replaces the list, a failure keeps it. */
    method SlidesArrived(response: Response<seq<Slide>>)
      modifies this`slides
      ensures slides == if response.Ok? then response.body else old(slides)
    {
      if response.Ok? {
        slides := response.body;
      }
    }

    /** Prev: one page back, never below page 1. */
    method Prev()
      requires Valid()
      modifies this`page
      ensures Valid()
      ensures page == if old(page) > 1 then old(page) - 1 else 1
    {
      page := if page - 1 >= 1 then page - 1 else 1;
    }

    /** Next (the pager is rendered only when there are slides): one page on, never
        beyond the last page; a page left past the end by a shorter list comes back to it. */
    method Next()
      requires Valid() && |slides| > 0
      modifies this`page
      ensures Valid() && 1 <= page <= TotalPages()
      ensures old(page) < TotalPages() ==> page == old(page) + 1
      ensures old(page) >= TotalPages() ==> page == TotalPages()
    {
      page := Min(page + 1, TotalPages());
    }

    /** The request the form would send now. */
    function PendingRequest(): Request
      reads this
    {
      Forms.SubmitRequest(Api, ("heading", "subheading"), heading, subheading, image, editingId)
    }

    /** `handleSubmit`: an incomplete form sends nothing; a complete one sends its PUT or POST,
        and only when that succeeds clears the form (the id only if it was set) and refetches. */
    method Submit(succeeded: bool) returns (sent: seq<Request>)
      requires Valid()
      modifies this
      ensures Valid() && slides == old(slides) && page == old(page)
      ensures !old(Forms.Complete(heading, subheading, image, editingId)) ==> sent == [] && unchanged(this)
      ensures old(Forms.Complete(heading, subheading, image, editingId)) && !succeeded ==>
                sent == [old(PendingRequest())] && unchanged(this)
      ensures old(Forms.Complete(heading, subheading, image, editingId)) && succeeded ==>
                && sent == [old(PendingRequest()), Get(Collection(Api))]
                && heading == "" && subheading == "" && image == None
                && editingId == (if Forms.Editing(old(editingId)) then None else old(editingId))
                && !Forms.Editing(editingId)
    {
      if !Forms.Complete(heading, subheading, image, editingId) {
        return [];
      }
      var request := PendingRequest();
      sent := [request];
      if !succeeded {
        return;
      }
      if Forms.Editing(editingId) {
        editingId := None;
      }
      heading, subheading, image := "", "", None;
      sent := sent + [Get(Collection(Api))];
    }

    /** `handleDelete` (no confirmation here): a DELETE, then a refetch when it succeeds. */
    method DeleteSlide(id: int, succeeded: bool) returns (sent: seq<Request>)
      ensures sent == if succeeded then [Delete(Record(Api, id)), Get(Collection(Api))] else [Delete(Record(Api, id))]
    {
      sent := [Delete(Record(Api, id))];
      if succeeded {
        sent := sent + [Get(Collection(Api))];
      }
    }

    /** `handleEdit`: load a slide into the form; the picked image is left as it is. */
    method Edit(slide: Slide)
      modifies this`editingId, this`heading, this`subheading
      ensures editingId == Some(slide.id) && heading == slide.heading && subheading == slide.subheading
      ensures image == old(image)
    {
      editingId := Some(slide.id);
      heading := slide.heading;
      subheading := slide.subheading;
    }
  }
}
