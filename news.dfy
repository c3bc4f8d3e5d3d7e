/** The public news page: a list and a banner fetched once, news cards with up to
    four thumbnails, and a detail modal whose content is cached per news id. */
module News {
  import opened Net
  import opened Paging

  /** The calls of the news service, which is not part of this model. */
  datatype NewsCall = AllNews | Banner | NewsById(id: int)

  /** An image record; the bytes are turned into a data URL by a foreign base64 routine. */
  datatype NewsImage = NewsImage(imageBlob: seq<bv8>)

  /** A list entry; absent `images` are the empty list here. */
  datatype NewsItem = NewsItem(id: int, title: string, shortDescription: string, postedDate: string, images: seq<NewsImage>)

  /** The detail of one news item, as the modal shows it. */
  datatype Detail = Detail(title: string, postedDate: string, fullDescription: string, images: seq<NewsImage>)

  datatype Modal = Modal(open: bool, content: Option<Detail>)

  /** What an `<img>` shows: an encoded stored image, or `/default-image.jpg`. */
  datatype ImageSrc = FromBlob(blob: seq<bv8>) | DefaultImage

  function Sources(images: seq<NewsImage>): (r: seq<ImageSrc>)
    ensures |r| == |images|
    ensures forall i :: 0 <= i < |r| ==> r[i] == FromBlob(images[i].imageBlob)
  {
    seq(|images|, i requires 0 <= i < |images| => FromBlob(images[i].imageBlob))
  }

  /** A card's thumbnail grid: the first (at most) four images in order, or the default
      image alone when the item has none. */
  function Thumbnails(images: seq<NewsImage>): (r: seq<ImageSrc>)
    ensures 1 <= |r| <= 4
    ensures |images| == 0 ==> r == [DefaultImage]
    ensures |images| > 0 ==> |r| == Min(4, |images|) && r <= Sources(images)
  {
    if |images| > 0 then Sources(Slice(images, 0, 4)) else [DefaultImage]
  }

  /** The modal's header image: the first image, or the default one. */
  function HeaderImage(content: Option<Detail>): (src: ImageSrc)
    ensures src == DefaultImage <==> content.None? || |content.value.images| == 0
    ensures src.FromBlob? ==> src == Sources(content.value.images)[0]
  {
    if content.Some? && |content.value.images| > 0 then FromBlob(content.value.images[0].imageBlob) else DefaultImage
  }

  /** The modal's extra grid, rendered only when there is more than one image. */
  function ExtraImages(content: Option<Detail>): (r: seq<ImageSrc>)
    ensures content.Some? && |content.value.images| > 1 ==> r == Sources(content.value.images)[1..]
    ensures !(content.Some? && |content.value.images| > 1) ==> r == []
  {
    if content.Some? && |content.value.images| > 1 then Sources(content.value.images[1..]) else []
  }

  /** Header and extra grid together show every image of the detail exactly once, in order;
      with no images the header falls back to the default and the grid is empty. */
  lemma HeaderAndExtrasShowEachImageOnce(d: Detail)
    ensures |d.images| > 0 ==> [HeaderImage(Some(d))] + ExtraImages(Some(d)) == Sources(d.images)
    ensures |d.images| == 0 ==> HeaderImage(Some(d)) == DefaultImage && ExtraImages(Some(d)) == []
  {
    if |d.images| > 0 {
      var all := Sources(d.images);
      var parts := [HeaderImage(Some(d))] + ExtraImages(Some(d));
      assert |parts| == |all|;
      forall i | 0 <= i < |all| ensures parts[i] == all[i] {
        if i > 0 {
          assert parts[i] == Sources(d.images[1..])[i - 1];
        }
      }
    }
  }

  class NewsPage {
    var banner: Option<string>
    var newsList: seq<NewsItem>
    var modal: Modal
    var hasFetched: bool
    var modalCache: map<int, Option<Detail>>

    constructor ()
      ensures banner == None && newsList == [] && modal == Modal(false, None)
      ensures !hasFetched && modalCache == map[]
    {
      banner, newsList, modal := None, [], Modal(false, None);
      hasFetched, modalCache := false, map[];
    }

    /** The effect `if (!hasFetched) fetchData()`: the list first, then the banner (its
        object URL, with the cache-busting suffix, is given with the response). The flag is
        set only when both arrive; a failure stops the sequence and keeps what was set. */
    method FetchEffect(news: Response<seq<NewsItem>>, bannerUrl: Response<string>) returns (sent: seq<NewsCall>)
      modifies this`newsList, this`banner, this`hasFetched
      ensures old(hasFetched) ==> sent == [] && unchanged(this)
      ensures !old(hasFetched) ==>
                && sent == (if news.Ok? then [AllNews, Banner] else [AllNews])
                && newsList == (if news.Ok? then news.body else old(newsList))
                && banner == (if news.Ok? && bannerUrl.Ok? then Some(bannerUrl.body) else old(banner))
                && hasFetched == (news.Ok? && bannerUrl.Ok?)
    {
      if hasFetched {
        return [];
      }
      sent := [AllNews];
      if news.Failed? {
        return;
      }
      newsList := news.body;
      sent := sent + [Banner];
      if bannerUrl.Failed? {
        return;
      }
      banner := Some(bannerUrl.body);
      hasFetched := true;
    }

    /** `openModal(id)`: a cached detail opens at once with no request; otherwise the
        detail is requested, and on success cached under `id` alone and shown. A failed
        request leaves the cache and the modal as they were. A cached empty body counts
        as a miss, as the truthiness test `modalCache[id]` makes it. */
    method OpenModal(id: int, response: Response<Option<Detail>>) returns (sent: seq<NewsCall>)
      modifies this`modalCache, this`modal
      ensures id in old(modalCache) && old(modalCache)[id].Some? ==>
                sent == [] && modal == Modal(true, old(modalCache)[id]) && modalCache == old(modalCache)
      ensures !(id in old(modalCache) && old(modalCache)[id].Some?) ==> sent == [NewsById(id)]
      ensures !(id in old(modalCache) && old(modalCache)[id].Some?) && response.Ok? ==>
                modalCache == old(modalCache)[id := response.body] && modal == Modal(true, response.body)
      ensures !(id in old(modalCache) && old(modalCache)[id].Some?) && response.Failed? ==>
                modalCache == old(modalCache) && modal == old(modal)
    {
      if id in modalCache && modalCache[id].Some? {
        modal := Modal(true, modalCache[id]);
        return [];
      }
      sent := [NewsById(id)];
      if response.Ok? {
        modalCache := modalCache[id := response.body];
        modal := Modal(true, response.body);
      }
    }

    method CloseModal()
      modifies this`modal
      ensures modal == Modal(false, None) && !modal.open
    {
      modal := Modal(false, None);
    }
  }

  /** A walk through the modal: the first opening of a news item fetches it, a later
      one is served from the cache even when the network is down; an item whose
      detail came back empty is fetched again on the next opening. */
  method OpenTwiceThenAnEmptyDetail(d: Detail)
  {
    var p := new NewsPage();
    var sent := p.OpenModal(7, Ok(Some(d)));
    assert sent == [NewsById(7)] && p.modal == Modal(true, Some(d));
    p.CloseModal();
    sent := p.OpenModal(7, Failed);
    assert sent == [] && p.modal == Modal(true, Some(d));
    sent := p.OpenModal(8, Ok(None));
    assert sent == [NewsById(8)] && 8 in p.modalCache;
    sent := p.OpenModal(8, Failed);
    assert sent == [NewsById(8)] && p.modal == Modal(true, None);
  }
}
