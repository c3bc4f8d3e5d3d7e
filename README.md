# A verified model of the HPR Infra site's content pages

This project models the React front end of a construction company's marketing site.
It covers the public pages that show content, and the admin sections that edit the home page.

- **Gallery page.** There are three category tabs, and each category's full list is cached once fetched. The grid grows six tiles per "Load More".
- **"Our Projects" section of the home page.** The list is fetched the first time the section scrolls into view. It is then revealed six at a time.
- **Hero-carousel admin.** A create/edit form, plus a Prev/Next pager that shows six slide cards per page.
- **News page.** It has a news list and a banner. Each card shows up to four thumbnails. A detail modal caches its content per news id.
- **Testimonials and projects admins.** Each list is loaded on first intersection and edited through a create/edit form with an image preview.
- **Mission-statement admin.** One record is loaded on first intersection and PUT back.
- **About Us page.** It shows the latest about-us record with a banner that falls back to a default image. Subsections and partners load when they first come into view.

Each stateful component is a Dafny `class`. Its fields are the component's `useState` variables. Each event handler is a method that says exactly how the state changes.

Requests are described, never performed. A handler returns the requests it issued. It takes the settled outcome of each awaited call (`Net.Response`: `Ok(body)` or `Failed`) as a parameter.

Some requests get a separate method for their completion:
- The admin list fetches are fired without being awaited, both at load and after a mutation. Their completions are `Receive`, `SlidesArrived` and `FetchSettled`.
- Two awaited requests are modelled as two steps each, because the user sees the raised `loading` flag between those steps. The mission PUT disables the submit button while it is out (`Submit`, then `SubmitSettled`). The about-us fetch shows a spinner (the constructor, then `AboutArrived`). The other awaited fetches, in the gallery and the home section, also raise `loading`. Each of them is modelled as one atomic step, which hides the flag, as "## Left out" says.

The pure parts are functions with lemmas:
- JavaScript `slice` paging (`Paging`);
- the `data:image` rule for image sources (`DataUrl`);
- the admin forms' required-field guard and PUT/POST choice (`Forms`);
- the admin sections' one-shot viewport trigger (`Trigger`);
- thumbnails, banner sources and row layout.

JavaScript truthiness is written out:
- An `editingId` of `0` counts as "not editing", just like `null` (`Forms.Editing`).
- An empty text field fails the required-field guard.
- An absent about-us image is interpolated as the text `undefined`.

`GalleryPage.jsx` does not discard a late result for a category that is no longer selected. It does not deduplicate concurrent fetches of one category either. This shows in two ways:
- Re-selecting a category whose first request is still out (A, then B, then A again) sends a second request for A, because nothing is cached until a response arrives. Every gallery step here is atomic, so this case and late results cannot arise in the model; "## Left out" lists them under asynchrony.
- Within a single commit, a tab switch from a later page sends two requests for an uncached category. "## Findings" covers it.

## Model

| member | source | states |
|---|---|---|
| Paging.Slice | src/components/Home/ProjectsSection.jsx:43-49 | `slice` clamps both bounds to the length: the result has length `min(end, length) - start` when that range is non-empty and 0 otherwise, and its i-th item is `s[start+i]` |
| Paging.Prefix | src/components/Home/ProjectsSection.jsx:23 | `slice(0, n)` is a prefix of the list of length `min(n, length)` |
| Paging.PageWindow | src/components/Public/GalleryPage.jsx:42 | page `pg` holds at most six items: exactly items `6(pg-1)` up to `min(6pg, length)` when the page starts inside the list, none otherwise |
| Paging.AppendPage | src/components/Public/GalleryPage.jsx:48-52 | appending page n+1 to the first n pages gives the first n+1 pages |
| Paging.LoadedIsPrefix | src/components/Public/GalleryPage.jsx:48-54 | after pages 1..n have been appended one by one, the grid is exactly the first `min(6n, length)` items in order, nothing skipped or repeated |
| DataUrl.AsJpeg | src/components/Public/GalleryPage.jsx:45 | the JPEG data URL starts with `data:image` and gives back the payload unchanged after its prefix |
| DataUrl.ImageSource | src/components/AboutUs/AboutUsPage.jsx:80-82 | the result is always a `data:image` URL; a value that already is one is kept as it is, any other is prefixed |
| DataUrl.ImageSourceIdempotent | src/components/AboutUs/AboutUsPage.jsx:116-118 | applying the image-source rule to its own output changes nothing |
| Forms.Editing | src/components/Admin/HomeSectionCrud/HeroCarouselCrud.jsx:92 | `editingId` as the handlers test it: `null` and `0` mean creating, any other id means editing |
| Forms.Complete | src/components/Admin/HomeSectionCrud/TestimonialsCrud.jsx:53-56 | the required-field guard: both text fields are non-empty, and an image is demanded only when creating; with an image picked the id does not matter |
| Forms.SubmitRequest | src/components/Admin/HomeSectionCrud/TestimonialsCrud.jsx:58-70 | a PUT to `${API}/${editingId}` exactly when editing (non-zero id) and a POST to `API` otherwise, with both text fields in order and the image only when one is picked |
| Trigger.Step | src/components/Admin/HomeSectionCrud/TestimonialsCrud.jsx:29-33 | one observer callback starts the fetch exactly when the section is seen while `hasFetched` is false, and the flag is raised whenever the section is seen |
| Trigger.Run | src/components/Admin/HomeSectionCrud/MissionStatementCrud.jsx:16-32 | over a run of observer callbacks, `hasFetched` ends raised exactly when it started raised or some callback saw the section |
| Trigger.FiresAtMostOnce | src/components/Admin/HomeSectionCrud/ProjectsSectionCrud.jsx:31-47 | over any run of observer callbacks, whatever the request outcomes, the fetch starts at most once: exactly once when some callback sees the section, and the flag then stays raised |
| Gallery.CategoryKey | src/components/Public/GalleryPage.jsx:18-22 | the backend key of a tab is its label without the " Projects" suffix |
| Gallery.Format | src/components/Public/GalleryPage.jsx:43-46 | a tile keeps its record and has an image URL exactly when the record has a blob, and that URL is `data:image/jpeg;base64,` followed by the blob |
| Gallery.OrEmpty | src/components/Public/GalleryPage.jsx:32 | a missing response body (`res.data` falsy) falls back to `[]`, so a missing body is stored as the empty list, a present one as it is |
| Gallery.Tiles | src/components/Public/GalleryPage.jsx:43-46 | the formatted page has one tile per record, in order |
| Gallery.TilesAppend | src/components/Public/GalleryPage.jsx:51 | formatting distributes over concatenation, so formatting page by page equals formatting the joined pages |
| Gallery.NextPageExtendsGrid | src/components/Public/GalleryPage.jsx:48-52 | the tiles of the first n pages followed by the tiles of page n+1 are the tiles of the first n+1 pages |
| Gallery.GridAfterSwitch | src/components/Public/GalleryPage.jsx:57-74 | switching from page 1, the grid is exactly the first page; switching from a later page that is not past the end, the grid holds more tiles than the first page although the counter is back at 1, and `hasMore` is computed for the old page |
| Gallery.StalePageSkipsItems | src/components/Public/GalleryPage.jsx:71-74 | fourteen cached items switched to from page 3 show items 0-5 and 12-13 with no further page, so items 6-11 can no longer be reached |
| Gallery.GalleryPage.ShowPage | src/components/Public/GalleryPage.jsx:42-54 | page 1 replaces the grid and a later page is appended to it; `hasMore` is whether `6pg` is below the list length |
| Gallery.GalleryPage.FetchGalleryData | src/components/Public/GalleryPage.jsx:24-40 | a cached category is served with no request and leaves the cache as it was; a miss issues one request for the category's key; a failure changes nothing but leaves `loading` cleared; a success caches the list (the empty list for a missing body) under exactly that category, then shows the page |
| Gallery.GalleryPage.ShowCategory | src/components/Public/GalleryPage.jsx:57-69 | the category effect returns to page 1 and fetches at most once; afterwards the grid is page 1 of the cached list, or empty with `hasMore` when the fetch failed, and the page invariant `Valid` holds |
| Gallery.GalleryPage.SelectTab | src/components/Public/GalleryPage.jsx:57-74 | the corrected tab click, in which only the category effect reacts to the switch: the current tab changes nothing; another tab is selected and shows exactly its first page, requesting it once and only if it is not cached, and the page invariant `Valid` holds afterwards |
| Gallery.GalleryPage.SelectTabAsWritten | src/components/Public/GalleryPage.jsx:57-74 | the tab click as written, where the page effect also runs with the old page: from page k of at least 2, a cached category shows page 1 followed by page k, with `hasMore` computed for page k, and an uncached one is requested twice |
| Gallery.GalleryPage.LoadMore | src/components/Public/GalleryPage.jsx:71-80 | with more to show, the page goes up by one and exactly the next page's tiles are appended from the cache; otherwise nothing changes; the grid stays pages 1..page of the cached list |
| Gallery.GalleryPage.constructor | src/components/Public/GalleryPage.jsx:10-16 | mounting selects "Ongoing Projects" on page 1 and caches its list when the fetch succeeds |
| HomeProjects.ProjectsSection.HasMore | src/components/Home/ProjectsSection.jsx:51 | `visible.length < data.length` holds exactly when a further page exists, and that page is non-empty |
| HomeProjects.ProjectsSection.LoadMoreOffered | src/components/Home/ProjectsSection.jsx:97-99 | the button is shown exactly when some fetched project is not visible |
| HomeProjects.ProjectsSection.FetchProjects | src/components/Home/ProjectsSection.jsx:16-28 | a success stores the list, shows its first six and disarms the trigger; a failure keeps everything and leaves the trigger armed; `loading` ends cleared |
| HomeProjects.ProjectsSection.Intersect | src/components/Home/ProjectsSection.jsx:30-41 | a fetch is issued exactly on an intersection before a successful fetch; a failed one leaves the trigger armed; the page counter is untouched |
| HomeProjects.ProjectsSection.LoadMore | src/components/Home/ProjectsSection.jsx:43-49 | appends exactly the next page, so the visible list stays the first `page` pages and strictly grows |
| HomeProjects.ProjectsSection.constructor | src/components/Home/ProjectsSection.jsx:8-12 | nothing fetched, nothing visible, page 1 |
| HeroCarousel.PageCount | src/components/Admin/HomeSectionCrud/HeroCarouselCrud.jsx:77 | `Math.ceil(n/6)` is the fewest pages of six that hold n slides |
| HeroCarousel.WindowsRebuildSlides | src/components/Admin/HomeSectionCrud/HeroCarouselCrud.jsx:71-77 | the pages 1..totalPages laid end to end give back every slide, in order |
| HeroCarousel.SlideOnItsPage | src/components/Admin/HomeSectionCrud/HeroCarouselCrud.jsx:71-77 | slide i is on page `i/6 + 1` at position `i%6`, and that page is within 1..totalPages |
| HeroCarousel.HeroCarouselCrud.PaginatedSlides | src/components/Admin/HomeSectionCrud/HeroCarouselCrud.jsx:71-75 | the current page shows at most six slides: exactly the slides of that page, or none past the end |
| HeroCarousel.HeroCarouselCrud.TotalPages | src/components/Admin/HomeSectionCrud/HeroCarouselCrud.jsx:77 | `Math.ceil(slides.length / 6)`: the pages hold every slide with no empty page at the end, and laid end to end they are the slides |
| HeroCarousel.HeroCarouselCrud.SlidesArrived | src/components/Admin/HomeSectionCrud/HeroCarouselCrud.jsx:58-65 | a success replaces the slides, a failure keeps them |
| HeroCarousel.HeroCarouselCrud.Prev | src/components/Admin/HomeSectionCrud/HeroCarouselCrud.jsx:215 | one page back, never below page 1 |
| HeroCarousel.HeroCarouselCrud.Next | src/components/Admin/HomeSectionCrud/HeroCarouselCrud.jsx:225 | one page on, never past the last page, and a page past the end comes back to the last one |
| HeroCarousel.HeroCarouselCrud.Submit | src/components/Admin/HomeSectionCrud/HeroCarouselCrud.jsx:79-109 | an incomplete form sends nothing and changes nothing; a failed PUT/POST changes nothing; a successful one clears the fields, clears the id only when it was editing, and refetches |
| HeroCarousel.HeroCarouselCrud.DeleteSlide | src/components/Admin/HomeSectionCrud/HeroCarouselCrud.jsx:111-120 | a DELETE with no confirmation, followed by a refetch exactly when it succeeds |
| HeroCarousel.HeroCarouselCrud.Edit | src/components/Admin/HomeSectionCrud/HeroCarouselCrud.jsx:122-126 | the slide's id, heading and subheading enter the form; the picked image is kept |
| HeroCarousel.HeroCarouselCrud.constructor | src/components/Admin/HomeSectionCrud/HeroCarouselCrud.jsx:49-54 | no slides, empty form, page 1 |
| News.Sources | src/components/Public/NewsPage.jsx:170-173 | one image source per image, in order |
| News.HeaderImage | src/components/Public/NewsPage.jsx:139-144 | the modal header shows the first image, and the default image exactly when there is no content or no image |
| News.ExtraImages | src/components/Public/NewsPage.jsx:167-179 | the extra grid shows every image after the first, and nothing when there is at most one |
| News.Thumbnails | src/components/Public/NewsPage.jsx:88-103 | a card shows between one and four thumbnails: its first `min(4, n)` images in order, or the default image alone when it has none |
| News.HeaderAndExtrasShowEachImageOnce | src/components/Public/NewsPage.jsx:139-179 | the modal's header image and extra grid together show every image of the detail exactly once, in order; with no images the header is the default and the grid is empty |
| News.NewsPage.FetchEffect | src/components/Public/NewsPage.jsx:13-34 | once fetched, nothing is requested again; otherwise the list is requested, then the banner only if the list arrived; the flag is set only when both arrived |
| News.NewsPage.OpenModal | src/components/Public/NewsPage.jsx:36-49 | a cached detail opens with no request; otherwise one request, and on success the detail is cached under that id alone and shown; a failure changes nothing |
| News.NewsPage.CloseModal | src/components/Public/NewsPage.jsx:51 | the modal is closed and emptied |
| News.NewsPage.constructor | src/components/Public/NewsPage.jsx:6-11 | nothing fetched, modal closed, cache empty |
| Testimonials.TestimonialsCrud.Receive | src/components/Admin/HomeSectionCrud/TestimonialsCrud.jsx:17-25 | a success replaces the list, a failure keeps it |
| Testimonials.TestimonialsCrud.Intersect | src/components/Admin/HomeSectionCrud/TestimonialsCrud.jsx:27-43 | the observer callback is one `Trigger.Step`: the list is requested on the first intersection only, whatever its outcome |
| Testimonials.TestimonialsCrud.ChooseImage | src/components/Admin/HomeSectionCrud/TestimonialsCrud.jsx:45-49 | the picked file becomes the image; the preview changes only when a file was picked |
| Testimonials.TestimonialsCrud.Submit | src/components/Admin/HomeSectionCrud/TestimonialsCrud.jsx:51-77 | an incomplete form sends nothing; a failed PUT/POST leaves the form as it was; a successful one resets the form and refetches |
| Testimonials.TestimonialsCrud.ResetForm | src/components/Admin/HomeSectionCrud/TestimonialsCrud.jsx:79-85 | every form field back to its initial value |
| Testimonials.TestimonialsCrud.Edit | src/components/Admin/HomeSectionCrud/TestimonialsCrud.jsx:87-92 | the item enters the form with its stored image as a JPEG preview; the picked image is kept |
| Testimonials.TestimonialsCrud.DeleteTestimonial | src/components/Admin/HomeSectionCrud/TestimonialsCrud.jsx:94-105 | nothing without confirmation; otherwise a DELETE, and a refetch exactly when it succeeds |
| Testimonials.TestimonialsCrud.constructor | src/components/Admin/HomeSectionCrud/TestimonialsCrud.jsx:8-14 | empty list, empty form, not fetched |
| AdminProjects.ProjectsSectionCrud.BeginFetch | src/components/Admin/HomeSectionCrud/ProjectsSectionCrud.jsx:18-19 | the fetch raises `loading` and requests the list |
| AdminProjects.ProjectsSectionCrud.FetchSettled | src/components/Admin/HomeSectionCrud/ProjectsSectionCrud.jsx:20-29 | a success replaces the list, a failure keeps it, `loading` is cleared either way |
| AdminProjects.ProjectsSectionCrud.Intersect | src/components/Admin/HomeSectionCrud/ProjectsSectionCrud.jsx:31-47 | the observer callback is one `Trigger.Step`: the fetch, with `loading` raised, starts on the first intersection only, whatever its outcome |
| AdminProjects.ProjectsSectionCrud.Submit | src/components/Admin/HomeSectionCrud/ProjectsSectionCrud.jsx:49-75 | an incomplete form sends nothing; a failed PUT/POST leaves the form as it was; a successful one resets the form and starts a refetch |
| AdminProjects.ProjectsSectionCrud.Edit | src/components/Admin/HomeSectionCrud/ProjectsSectionCrud.jsx:77-82 | the project enters the form with its stored image as a JPEG preview; the picked image is kept |
| AdminProjects.ProjectsSectionCrud.DeleteProject | src/components/Admin/HomeSectionCrud/ProjectsSectionCrud.jsx:84-94 | nothing without confirmation; otherwise a DELETE, and a refetch exactly when it succeeds |
| AdminProjects.ProjectsSectionCrud.ResetForm | src/components/Admin/HomeSectionCrud/ProjectsSectionCrud.jsx:96-102 | every form field back to its initial value |
| AdminProjects.ProjectsSectionCrud.constructor | src/components/Admin/HomeSectionCrud/ProjectsSectionCrud.jsx:8-15 | empty list, empty form, not loading, not fetched |
| Mission.MissionStatementCrud.Intersect | src/components/Admin/HomeSectionCrud/MissionStatementCrud.jsx:16-32 | the observer callback is one `Trigger.Step`: the record is requested on the first intersection only |
| Mission.MissionStatementCrud.Receive | src/components/Admin/HomeSectionCrud/MissionStatementCrud.jsx:34-45 | the fields are overwritten only by a response that carries a record |
| Mission.MissionStatementCrud.Submit | src/components/Admin/HomeSectionCrud/MissionStatementCrud.jsx:47-56 | nothing is sent exactly when a field is empty; otherwise `loading` is raised and both fields are PUT |
| Mission.MissionStatementCrud.SubmitSettled | src/components/Admin/HomeSectionCrud/MissionStatementCrud.jsx:57-63 | `loading` is cleared whatever the outcome |
| Mission.MissionStatementCrud.constructor | src/components/Admin/HomeSectionCrud/MissionStatementCrud.jsx:7-10 | empty fields, not loading, not fetched |
| AboutUs.Latest | src/components/AboutUs/AboutUsPage.jsx:28-29 | the record shown is the last of a non-empty response, none for an empty one |
| AboutUs.BannerSrc | src/components/AboutUs/AboutUsPage.jsx:78-82 | the default image after a load error; otherwise always a `data:image` URL, the stored one kept and any other prefixed (an absent one as `undefined`) |
| AboutUs.SubsectionImage | src/components/AboutUs/AboutUsPage.jsx:116-129 | a subsection shows an image exactly when it has a non-empty one; that image is the stored value when it starts with `data:image`, and `data:image/jpeg;base64,` followed by the value otherwise |
| AboutUs.RowDirection | src/components/AboutUs/AboutUsPage.jsx:115-123 | odd-index rows are reversed, even-index rows are not |
| AboutUs.PartnersFrom | src/components/AboutUs/AboutUsPage.jsx:58 | an array body is the partner list, anything else the empty list |
| AboutUs.AboutUsPage.View | src/components/AboutUs/AboutUsPage.jsx:66-82 | the spinner exactly while loading, "No data found." exactly when loaded without a record, the page with its banner source otherwise |
| AboutUs.AboutUsPage.AboutArrived | src/components/AboutUs/AboutUsPage.jsx:24-38 | a non-empty list sets its last record, an empty list or a failure keeps the current one, and loading ends |
| AboutUs.AboutUsPage.BannerFailed | src/components/AboutUs/AboutUsPage.jsx:92 | after a banner load error the page shows the default image |
| AboutUs.AboutUsPage.SectionsInView | src/components/AboutUs/AboutUsPage.jsx:40-51 | the subsections are requested on the first sighting only, and a success replaces them |
| AboutUs.AboutUsPage.PartnersInView | src/components/AboutUs/AboutUsPage.jsx:53-64 | the partners are requested on the first sighting only, and a success stores an array body or the empty list |
| AboutUs.AboutUsPage.constructor | src/components/AboutUs/AboutUsPage.jsx:9-13 | loading, no record, no sections, no partners, no image error |

## Findings

| source | as written | input that shows it | evidently intended | confidence | as-written member | corrected member |
|---|---|---|---|---|---|---|
| src/components/Public/GalleryPage.jsx:71-74 | the page effect depends on `selectedCategory`, so a tab click made on page k of at least 2 also calls `fetchGalleryData(newCategory, k)` in the same commit, before `setPage(1)` takes effect | a cached category of 14 items, switched to from page 3 of another: the grid shows items 0-5 and 12-13 and "Load More" is gone, so items 6-11 cannot be reached; an uncached category switched to from page 2 is requested twice | a tab switch shows only page 1 of the new category and requests it at most once | medium, not executed | Gallery.GalleryPage.SelectTabAsWritten, Gallery.StalePageSkipsItems | Gallery.GalleryPage.SelectTab |

The rest of the model, and the walk `FourteenItemsThenAnEmptyCategory`, use the corrected `SelectTab`. In it, only the category effect reacts to a tab switch, as it would if the page effect were left out of that commit (for instance, by dropping `selectedCategory` from its dependencies). The walk `TabSwitchFromAStalePage` replays the discrepancy with `SelectTabAsWritten`.

## Left out

- HTTP (axios, the news service calls), `FormData`, toasts, `console.error` and `window.confirm` are not performed. A request is returned as a value, and each outcome or user answer is a parameter.
- The `newsService` and `hprProjectsService` modules are not part of this model. Only the calls the components make to them are kept.
- The base URL read from the build environment is left out. Paths are the relative API paths.
- IntersectionObserver and `useInView` geometry (threshold, root margin) is left out. An observation is a boolean event. Unobserving on cleanup is not modelled.
- Asynchrony and interleaving are left out. Public-page handlers that await run atomically with their outcome as input, so no state between an `await` and its completion can be observed. This includes Gallery's and the home section's transient `loading`. For the same reason, the model leaves out out-of-order completion of overlapping requests, and the second gallery request sent when a category is re-selected while its first request is still out. The code has no guard against either. The duplicate gallery request sent within a single commit, on a tab switch from a later page, is modelled by `SelectTabAsWritten`.
- Base64 encoding (`btoa`, `blobToBase64`), `Blob`, `URL.createObjectURL` and `Date.now` are left out. A stored image is its payload string or bytes. The news banner URL and a picked file's preview URL are given as inputs.
- Rendering, styling, animation (AOS), dates shown with `toLocaleDateString`, and the text-input `onChange` setters are left out.
- JavaScript `null` and `undefined` text fields are collapsed to the empty string. An absent gallery `image_blob` is the empty string.
- Gallery.GalleryPage.LoadMore requires a non-empty grid, because the button is rendered only then. It therefore models only cache hits.
- HomeProjects.ProjectsSection.LoadMore requires the button to be shown. With the button shown, `handleLoadMore` always appends a non-empty page.
- HeroCarousel.HeroCarouselCrud.Next requires at least one slide, because the pager is rendered only then. With no slides, `Math.min(p + 1, 0)` would set page 0.
- AboutUs.AboutUsPage.SectionsInView and AboutUs.AboutUsPage.PartnersInView require the page content to be shown, because the observed elements exist only then.
- HeroCarousel.HeroCarouselCrud.PaginatedSlides is not re-clamped when the list shrinks. The page may point past the last page until Prev or Next moves it, as in the code.
- News.NewsPage.FetchEffect may be called again in the model. In the code the effect depends only on `hasFetched` and runs at mount. A failure leaves `hasFetched` false, so the effect never re-runs and a failed fetch is never retried.
- AboutUs.BannerSrc does not tell a `null` image from an absent one. The code interpolates `null` as the text `null`; the model writes `undefined` for both.
- Gallery.GalleryPage.SelectTabAsWritten gives both requests of an uncached switch the same outcome and leaves out their order of arrival. In either order the cache change re-runs the category effect, which ends on page 1.
