/** The About Us page: the latest about-us record with its banner image, subsections
    and partners loaded when they first scroll into view. */
module AboutUs {
  import opened Net
  import DataUrl

  /** The about-us record; `image` is absent (`undefined`) or a stored string. */
  datatype AboutRecord = AboutRecord(heading: string, description: string, image: Option<string>)
  datatype Subsection = Subsection(id: int, heading: string, description: string, image: Option<string>)
  datatype Partner = Partner(id: int, name: string, description: string)

  /** The partners response body: an array, or anything else. */
  datatype PartnersBody = PartnerArray(items: seq<Partner>) | NotAnArray

  datatype Direction = Normal | Reversed

  /** What the page renders. */
  datatype Screen = Spinner | NoData | Content(record: AboutRecord, bannerSrc: string)

  /** The record shown: the last element of a non-empty response, none for an empty one. */
  function Latest(records: seq<AboutRecord>): (r: Option<AboutRecord>)
    ensures r.None? <==> |records| == 0
    ensures r.Some? ==> r.value == records[|records| - 1] && r.value in records
  {
    if |records| > 0 then Some(records[|records| - 1]) else None
  }

  /** The banner source: the default image once the image failed to load; otherwise an
      image data URL, kept as stored when it already is one, and prefixed otherwise (an
      absent value is interpolated as the text "undefined"). */
  function BannerSrc(imageError: bool, image: Option<string>): (src: string)
    ensures imageError ==> src == DataUrl.DefaultImage
    ensures !imageError ==> DataUrl.StartsWith(src, DataUrl.ImageScheme)
    ensures !imageError && image.Some? && DataUrl.StartsWith(image.value, DataUrl.ImageScheme) ==> src == image.value
    ensures !imageError && image.Some? && !DataUrl.StartsWith(image.value, DataUrl.ImageScheme) ==>
              src == DataUrl.JpegPrefix + image.value
    ensures !imageError && image.None? ==> src == DataUrl.JpegPrefix + "undefined"
  {
    if imageError then DataUrl.DefaultImage
    else if image.Some? then DataUrl.ImageSource(image.value)
    else DataUrl.AsJpeg("undefined")
  }

  /** A subsection's image: the same prefix rule with no error fallback, and no image at
      all when the stored value is absent or empty. */
  function SubsectionImage(image: Option<string>): (src: Option<string>)
    ensures src.Some? <==> image.Some? && image.value != ""
    ensures src.Some? ==> src.value == DataUrl.ImageSource(image.value)
    ensures src.Some? ==> DataUrl.StartsWith(src.value, DataUrl.ImageScheme)
    ensures src.Some? && DataUrl.StartsWith(image.value, DataUrl.ImageScheme) ==> src.value == image.value
    ensures src.Some? && !DataUrl.StartsWith(image.value, DataUrl.ImageScheme) ==> src.value == DataUrl.JpegPrefix + image.value
  {
    if image.Some? && image.value != "" then Some(DataUrl.ImageSource(image.value)) else None
  }

  /** Even-index subsections keep the row order, odd-index ones reverse it. */
  function RowDirection(index: nat): (d: Direction)
    ensures d == Reversed <==> index % 2 == 1
  {
    if index % 2 == 0 then Normal else Reversed
  }

  /** `Array.isArray(res.data) ? res.data : []`. */
  function PartnersFrom(body: PartnersBody): (r: seq<Partner>)
    ensures body.PartnerArray? ==> r == body.items
    ensures body.NotAnArray? ==> r == []
  {
    if body.PartnerArray? then body.items else []
  }

  class AboutUsPage {
    var aboutData: Option<AboutRecord>
    var subsections: seq<Subsection>
    var partners: seq<Partner>
    var imageError: bool
    var loading: bool
    var sectionsVisible: bool
    var partnersVisible: bool

    /** Mounting starts `fetchAbout`; its completion is `AboutArrived`. */
    constructor ()
      ensures loading && aboutData == None && subsections == [] && partners == []
      ensures !imageError && !sectionsVisible && !partnersVisible
    {
      aboutData, subsections, partners := None, [], [];
      imageError, loading := false, true;
      sectionsVisible, partnersVisible := false, false;
    }

    /** The spinner while loading, "No data found." without a record, the page otherwise. */
    function View(): (s: Screen)
      reads this
      ensures s == Spinner <==> loading
      ensures s == NoData <==> !loading && aboutData.None?
      ensures s.Content? ==> s.record == aboutData.value && s.bannerSrc == BannerSrc(imageError, aboutData.value.image)
    {
      if loading then Spinner
      else if aboutData.None? then NoData
      else Content(aboutData.value, BannerSrc(imageError, aboutData.value.image))
    }

    /** `fetchAbout` settling: a non-empty list sets its last record, an empty list or a
        failure keeps the current one, and `loading` ends cleared either way. */
    method AboutArrived(response: Response<seq<AboutRecord>>)
      modifies this`aboutData, this`loading
      ensures !loading
      ensures aboutData == if response.Ok? && |response.body| > 0 then Latest(response.body) else old(aboutData)
    {
      if response.Ok? && |response.body| > 0 {
        aboutData := Some(response.body[|response.body| - 1]);
      }
      loading := false;
    }

    /** The banner's `onError`. */
    method BannerFailed()
      modifies this`imageError
      ensures imageError
      ensures View().Content? ==> View().bannerSrc == DataUrl.DefaultImage
    {
      imageError := true;
    }

    /** The subsections container first coming into view (observed only once the page
        content is rendered; `triggerOnce`): one request, a success replaces the list. */
    method SectionsInView(response: Response<seq<Subsection>>) returns (requested: bool)
      requires View().Content?
      modifies this`sectionsVisible, this`subsections
      ensures sectionsVisible
      ensures requested <==> !old(sectionsVisible)
      ensures subsections == if requested && response.Ok? then response.body else old(subsections)
    {
      requested := !sectionsVisible;
      if requested {
        sectionsVisible := true;
        if response.Ok? {
          subsections := response.body;
        }
      }
    }

    /** The partners section first coming into view: one request; a success stores the
        body when it is an array and the empty list otherwise. */
    method PartnersInView(response: Response<PartnersBody>) returns (requested: bool)
      requires View().Content?
      modifies this`partnersVisible, this`partners
      ensures partnersVisible
      ensures requested <==> !old(partnersVisible)
      ensures partners == if requested && response.Ok? then PartnersFrom(response.body) else old(partners)
    {
      requested := !partnersVisible;
      if requested {
        partnersVisible := true;
        if response.Ok? {
          partners := PartnersFrom(response.body);
        }
      }
    }
  }
}
