/** The public gallery: three category tabs, a per-category cache of the full
    result lists, and a grid that grows six tiles at a time. */
module Gallery {
  import opened Net
  import opened Paging
  import DataUrl

  const Categories: seq<string> := ["Ongoing Projects", "Completed Projects", "Future Projects"]
  const InitialCategory: string := "Ongoing Projects"

  /** `categoryMap`: the value sent to the backend for a tab is its label without " Projects". */
  function CategoryKey(cat: string): (key: string)
    requires cat in Categories
    ensures cat == key + " Projects"
  {
    if cat == "Ongoing Projects" then "Ongoing"
    else if cat == "Completed Projects" then "Completed"
    else "Future"
  }

  /** A gallery record; an absent or empty `image_blob` is the empty string here. */
  datatype Item = Item(imageBlob: string, description: string, workDate: string)

  /** A record as the grid shows it: the record with an `image_url` added. */
  datatype Tile = Tile(item: Item, imageUrl: Option<string>)

  /** The formatting map: a tile has an image URL exactly when its record has a blob. */
  function Format(item: Item): (t: Tile)
    ensures t.item == item
    ensures t.imageUrl.Some? <==> item.imageBlob != ""
    ensures t.imageUrl.Some? ==> t.imageUrl.value == DataUrl.AsJpeg(item.imageBlob)
    ensures t.imageUrl.Some? ==> DataUrl.StartsWith(t.imageUrl.value, DataUrl.JpegPrefix)
  {
    Tile(item, if item.imageBlob != "" then Some(DataUrl.AsJpeg(item.imageBlob)) else None)
  }

  function Tiles(items: seq<Item>): (r: seq<Tile>)
    ensures |r| == |items|
    ensures forall i :: 0 <= i < |r| ==> r[i] == Format(items[i])
  {
    seq(|items|, i requires 0 <= i < |items| => Format(items[i]))
  }

  lemma TilesAppend(a: seq<Item>, b: seq<Item>)
    ensures Tiles(a + b) == Tiles(a) + Tiles(b)
  {
    assert forall i :: 0 <= i < |a + b| ==> Tiles(a + b)[i] == (Tiles(a) + Tiles(b))[i];
  }

  /** `res.data || []`: a missing list is stored as the empty list. */
  function OrEmpty(data: Option<seq<Item>>): (r: seq<Item>)
    ensures data.Some? ==> r == data.value
    ensures data.None? ==> r == []
  {
    if data.Some? then data.value else []
  }

  class GalleryPage {
    var selectedCategory: string
    var images: seq<Tile>
    var loading: bool
    var page: nat
    var hasMore: bool
    var categoryCache: map<string, seq<Item>>
    var initialLoad: bool

    /** The grid shows pages 1..page of `all`, and `hasMore` says whether a further page exists. */
    ghost predicate Shows(all: seq<Item>)
      reads this
    {
      && images == Tiles(Prefix(all, page * PageSize))
      && hasMore == (page * PageSize < |all|)
      && (page == 1 || (page - 1) * PageSize < |all|)
    }

    /** The state between two user events. */
    ghost predicate Valid()
      reads this
    {
      && selectedCategory in Categories
      && (forall c :: c in categoryCache ==> c in Categories)
      && !loading && !initialLoad && page >= 1
      && (selectedCategory in categoryCache ==> Shows(categoryCache[selectedCategory]))
      && (selectedCategory !in categoryCache ==> images == [] && page == 1 && hasMore)
    }

    /** Mounting runs the category effect for the first tab. */
    constructor (response: Response<Option<seq<Item>>>)
      ensures Valid() && selectedCategory == InitialCategory && page == 1
      ensures categoryCache == if response.Ok? then map[InitialCategory := OrEmpty(response.body)] else map[]
    {
      selectedCategory := InitialCategory;
      images, loading, page, hasMore := [], false, 1, true;
      categoryCache := map[];
      initialLoad := true;
      new;
      var request := ShowCategory(response);
    }

    /** Lines 42-54 of `fetchGalleryData`: page `pg` of `all` replaces the grid when it
        is page 1 and is appended to it otherwise; `hasMore` says whether `all` goes on. */
    method ShowPage(all: seq<Item>, pg: nat)
      requires pg >= 1
      modifies this`images, this`hasMore
      ensures images == (if pg == 1 then [] else old(images)) + Tiles(PageWindow(all, pg))
      ensures hasMore == (pg * PageSize < |all|)
    {
      var formatted := Tiles(PageWindow(all, pg));
      if pg == 1 {
        images := formatted;
      } else {
        images := images + formatted;
      }
      hasMore := pg * PageSize < |all|;
    }

    /** `fetchGalleryData(cat, pg)`: a cached category is served without a request; a miss
        requests it once and caches the list (even an empty one) under exactly that key;
        a failed request changes nothing but `loading`, which always ends cleared. */
    method FetchGalleryData(cat: string, pg: nat, response: Response<Option<seq<Item>>>)
      returns (request: Option<string>)
      requires pg >= 1 && cat in Categories
      modifies this`images, this`hasMore, this`loading, this`categoryCache
      ensures request == if cat in old(categoryCache) then None else Some(CategoryKey(cat))
      ensures cat in old(categoryCache) ==>
                && categoryCache == old(categoryCache) && loading == old(loading)
                && images == (if pg == 1 then [] else old(images)) + Tiles(PageWindow(categoryCache[cat], pg))
                && hasMore == (pg * PageSize < |categoryCache[cat]|)
      ensures cat !in old(categoryCache) && response.Failed? ==>
                && categoryCache == old(categoryCache) && images == old(images)
                && hasMore == old(hasMore) && !loading
      ensures cat !in old(categoryCache) && response.Ok? ==>
                && categoryCache == old(categoryCache)[cat := OrEmpty(response.body)] && !loading
                && images == (if pg == 1 then [] else old(images)) + Tiles(PageWindow(categoryCache[cat], pg))
                && hasMore == (pg * PageSize < |categoryCache[cat]|)
    {
      var all: seq<Item>;
      if cat in categoryCache {
        request := None;
        all := categoryCache[cat];
      } else {
        loading := true;
        request := Some(CategoryKey(cat));
        if response.Failed? {
          loading := false;
          return;
        }
        all := OrEmpty(response.body);
        categoryCache := categoryCache[cat := all];
        loading := false;
      }
      ShowPage(all, pg);
    }

    /** The effect on `selectedCategory`: back to page 1 with an empty grid, then page 1 of
        the category. A miss that succeeds changes the cache, which gives `fetchGalleryData`
        a new identity and runs the effect once more; that second run is a cache hit. */
    method ShowCategory(response: Response<Option<seq<Item>>>) returns (request: Option<string>)
      requires selectedCategory in Categories && !loading
      requires forall c :: c in categoryCache ==> c in Categories
      modifies this
      ensures Valid() && page == 1 && selectedCategory == old(selectedCategory)
      ensures request == if selectedCategory in old(categoryCache) then None else Some(CategoryKey(selectedCategory))
      ensures categoryCache == if request.Some? && response.Ok?
                               then old(categoryCache)[selectedCategory := OrEmpty(response.body)]
                               else old(categoryCache)
      ensures selectedCategory in categoryCache ==>
                && images == Tiles(PageWindow(categoryCache[selectedCategory], 1))
                && hasMore == (PageSize < |categoryCache[selectedCategory]|)
      ensures selectedCategory !in categoryCache ==> images == [] && hasMore
    {
      initialLoad, page, images, hasMore := true, 1, [], true;
      request := FetchGalleryData(selectedCategory, 1, response);
      if request.Some? && response.Ok? {
        initialLoad, page, images, hasMore := true, 1, [], true;
        var again := FetchGalleryData(selectedCategory, 1, response);
        assert again == None;
      }
      initialLoad := false;
      if selectedCategory in categoryCache {
        assert Prefix(categoryCache[selectedCategory], PageSize) == PageWindow(categoryCache[selectedCategory], 1);
      }
    }

    /** A tab click with only the category effect reacting to it (the corrected page; see
        `SelectTabAsWritten` for the code's own behaviour): the current tab changes nothing;
        another tab selects it and shows its first page, requesting it only when it is not
        cached yet. */
    method SelectTab(cat: string, response: Response<Option<seq<Item>>>) returns (request: Option<string>)
      requires Valid() && cat in Categories
      modifies this
      ensures Valid()
      ensures cat == old(selectedCategory) ==> request == None && unchanged(this)
      ensures cat != old(selectedCategory) ==>
                && selectedCategory == cat && page == 1
                && request == (if cat in old(categoryCache) then None else Some(CategoryKey(cat)))
                && categoryCache == (if request.Some? && response.Ok?
                                     then old(categoryCache)[cat := OrEmpty(response.body)]
                                     else old(categoryCache))
                && (cat in categoryCache ==> images == Tiles(PageWindow(categoryCache[cat], 1)))
                && (cat !in categoryCache ==> images == [] && hasMore)
    {
      if cat != selectedCategory {
        selectedCategory := cat;
        request := ShowCategory(response);
      } else {
        request := None;
      }
    }

    /** A tab click as the code runs it. The page effect lists `selectedCategory` among
        its dependencies, so it runs in the same commit as the category effect, while
        `page` still holds the old page and `initialLoad` is still false. From a page
        past the first, a cached category then gets its old-numbered page appended after
        page 1, with `hasMore` computed for that page; an uncached one is requested twice
        (both calls miss the same cache), and the cache change that follows restores page 1. */
    method SelectTabAsWritten(cat: string, response: Response<Option<seq<Item>>>) returns (requests: seq<string>)
      requires Valid() && cat in Categories
      modifies this
      ensures cat == old(selectedCategory) ==> requests == [] && unchanged(this)
      ensures cat != old(selectedCategory) ==>
                && selectedCategory == cat && page == 1 && !loading && !initialLoad
                && requests == (if cat in old(categoryCache) then []
                                else if old(page) == 1 then [CategoryKey(cat)]
                                else [CategoryKey(cat), CategoryKey(cat)])
                && categoryCache == (if cat !in old(categoryCache) && response.Ok?
                                     then old(categoryCache)[cat := OrEmpty(response.body)]
                                     else old(categoryCache))
                && (cat in old(categoryCache) ==> (images, hasMore) == GridAfterSwitch(categoryCache[cat], old(page)))
                && (cat !in old(categoryCache) && cat in categoryCache ==>
                      images == Tiles(PageWindow(categoryCache[cat], 1)) && hasMore == (PageSize < |categoryCache[cat]|))
                && (cat !in categoryCache ==> images == [] && hasMore)
    {
      if cat == selectedCategory {
        return [];
      }
      var stalePage := page;
      var cached := cat in categoryCache;
      selectedCategory := cat;
      var first := ShowCategory(response);
      requests := if first.Some? then [first.value] else [];
      if stalePage != 1 {
        if cached {
          // The page effect's call is served from the cache and appends page `stalePage`.
          ShowPage(categoryCache[cat], stalePage);
        } else {
          // The page effect's call misses too and sends a second request; whatever it
          // brings, the cache update re-runs the category effect, which shows page 1.
          requests := requests + [CategoryKey(cat)];
        }
      }
    }

    /** "Load More" (rendered only while the grid has tiles): when `!loading && hasMore`
        the page goes up by one and the page effect appends that page from the cache;
        otherwise nothing happens. */
    method LoadMore()
      requires Valid() && |images| > 0
      modifies this`page, this`images, this`hasMore, this`loading, this`categoryCache
      ensures Valid() && categoryCache == old(categoryCache) && selectedCategory in categoryCache
      ensures page == old(page) + (if old(hasMore) then 1 else 0)
      ensures images == old(images) + (if old(hasMore) then Tiles(PageWindow(categoryCache[selectedCategory], page)) else [])
    {
      if !loading && hasMore {
        page := page + 1;
        // The page effect: `page !== 1` and `initialLoad` is false, and the category is
        // cached (a grid with tiles was filled from the cache), so no request is made.
        var request := FetchGalleryData(selectedCategory, page, Failed);
        assert request == None;
        NextPageExtendsGrid(categoryCache[selectedCategory], page - 1);
      }
    }
  }

  /** Appending the tiles of page n + 1 to those of pages 1..n gives the tiles of pages 1..n + 1. */
  lemma NextPageExtendsGrid(all: seq<Item>, n: nat)
    ensures Tiles(Prefix(all, n * PageSize)) + Tiles(PageWindow(all, n + 1)) == Tiles(Prefix(all, (n + 1) * PageSize))
  {
    AppendPage(all, n);
    TilesAppend(Prefix(all, n * PageSize), PageWindow(all, n + 1));
  }

  /** The grid and `hasMore` that a tab switch leaves, as the code runs it, when the new
      category `all` is cached and the page counter stood at `stalePage`: page 1 from the
      category effect, then page `stalePage` appended by the page effect. From page 1 this
      is exactly the first page; from a later page that is not past the end, the grid holds
      more than the first page although the counter is back at 1. */
  function GridAfterSwitch(all: seq<Item>, stalePage: nat): (r: (seq<Tile>, bool))
    requires stalePage >= 1
    ensures stalePage == 1 ==> r == (Tiles(Prefix(all, PageSize)), PageSize < |all|)
    ensures r.1 <==> stalePage * PageSize < |all|
    ensures stalePage >= 2 && (stalePage - 1) * PageSize < |all| ==> |r.0| > |Tiles(Prefix(all, PageSize))|
  {
    assert Prefix(all, PageSize) == PageWindow(all, 1);
    var first := Tiles(PageWindow(all, 1));
    if stalePage == 1 then (first, PageSize < |all|)
    else (first + Tiles(PageWindow(all, stalePage)), stalePage * PageSize < |all|)
  }

  /** Fourteen cached items, switched to from page 3: the grid holds items 0-5 and 12-13
      and offers no further page, so items 6-11 can no longer be reached; switched to
      from page 1, the same category shows items 0-5 with a further page offered. */
  lemma StalePageSkipsItems(all: seq<Item>)
    requires |all| == 14
    ensures GridAfterSwitch(all, 3) == (Tiles(all[..6] + all[12..]), false)
    ensures GridAfterSwitch(all, 1) == (Tiles(all[..6]), true)
  {
    assert PageWindow(all, 1) == all[..6];
    assert PageWindow(all, 3) == all[12..];
    TilesAppend(all[..6], all[12..]);
  }

  /** A walk through the page: fourteen items give pages of 6, 12 and 14 tiles, after
      which "load more" does nothing; an empty category is cached and, switched back to,
      served from the cache with the empty-grid fallback. */
  method FourteenItemsThenAnEmptyCategory(items: seq<Item>)
    requires |items| == 14
  {
    var g := new GalleryPage(Ok(Some(items)));
    assert |g.images| == 6 && g.hasMore;
    g.LoadMore();
    assert |g.images| == 12 && g.hasMore;
    g.LoadMore();
    assert |g.images| == 14 && !g.hasMore;
    g.LoadMore();
    assert |g.images| == 14 && g.page == 3;
    var request := g.SelectTab("Future Projects", Ok(Some([])));
    assert request == Some("Future") && g.images == [] && !g.hasMore;
    request := g.SelectTab("Ongoing Projects", Failed);
    assert request == None && |g.images| == 6;
    request := g.SelectTab("Future Projects", Failed);
    assert request == None && g.images == [] && !g.loading;
  }

  /** The same walk as the code runs a tab switch: from page 3 of one category, a cached
      category of fourteen items shows eight tiles and no "load more", and an uncached
      one is requested twice. */
  method TabSwitchFromAStalePage(items: seq<Item>)
    requires |items| == 14
  {
    var g := new GalleryPage(Ok(Some(items)));
    var request := g.SelectTab("Completed Projects", Ok(Some(items)));
    request := g.SelectTab("Ongoing Projects", Failed);
    g.LoadMore();
    g.LoadMore();
    assert g.page == 3;
    var requests := g.SelectTabAsWritten("Completed Projects", Failed);
    StalePageSkipsItems(items);
    assert requests == [] && g.page == 1 && !g.hasMore;
    assert g.images == Tiles(items[..6] + items[12..]);

    var h := new GalleryPage(Ok(Some(items)));
    h.LoadMore();
    requests := h.SelectTabAsWritten("Future Projects", Ok(Some([])));
    assert requests == ["Future", "Future"] && h.images == [] && h.page == 1;
  }
}
