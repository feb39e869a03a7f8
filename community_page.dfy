/**
 * The state and handlers of the community gallery component
 * (app/community/page.jsx): one page of images, the page number and page
 * count the server reports, and the two loading flags.
 *
 * `fetchImages` is split at its `await` like the home page's handlers. A
 * change of `page` re-runs `fetchImages(page)` through the effect on `[page]`;
 * the methods that can change `page` return whether they did, which is
 * exactly when that effect fires.
 */
module CommunityPage {
  import opened JsText

  /** The number of images the page asks for per request. */
  const PageSize := 10

  datatype Image = Image(id: string, imageUrl: string, prompt: string)

  /** `res.data.pagination`: the server's page number and page count, each possibly absent. */
  datatype Pagination = Pagination(page: Option<int>, totalPages: Option<int>)

  /** The body of a gallery response: `success`, `data` and `pagination`, the last two possibly absent. */
  datatype GalleryResponse = GalleryResponse(success: bool, data: Option<seq<Image>>, pagination: Option<Pagination>)

  /** The answer to one page request, or a thrown error. */
  datatype FetchOutcome = Responded(body: GalleryResponse) | RequestFailed

  /** The query a page request carries. */
  datatype PageRequest = PageRequest(page: int, limit: int)

  datatype GalleryState = GalleryState(
    images: seq<Image>,
    page: int,
    totalPages: int,
    pageLoading: bool,
    loading: bool)

  class CommunityImages {
    var images: seq<Image>
    var page: int
    var totalPages: int
    var pageLoading: bool
    var loading: bool

    function State(): GalleryState
      reads this
    {
      GalleryState(images, page, totalPages, pageLoading, loading)
    }

    /** The page is within the bounds the navigation buttons keep. */
    predicate InBounds()
      reads this
    {
      1 <= page <= totalPages
    }

    /** The initial `useState` values: no images yet, the whole-page loader on, page 1 of 1. */
    constructor ()
      ensures State() == GalleryState([], 1, 1, false, true)
      ensures InBounds()
    {
      images, page, totalPages := [], 1, 1;
      pageLoading, loading := false, true;
    }

    /**
     * The synchronous part of `fetchImages`: without a token the page
     * redirects and nothing changes; otherwise the page loader turns on and
     * the request for `pageNumber` goes out.
     */
    method StartFetch(hasToken: bool, pageNumber: int) returns (req: Option<PageRequest>)
      modifies this
      ensures !hasToken ==> req.None? && State() == old(State())
      ensures hasToken ==> req == Some(PageRequest(pageNumber, PageSize))
      ensures hasToken ==> State() == old(State()).(pageLoading := true)
    {
      if !hasToken {
        return None;
      }
      pageLoading := true;
      req := Some(PageRequest(pageNumber, PageSize));
    }

    /**
     * The rest of `fetchImages`. A successful body replaces the images and
     * the pagination, each falsy value falling back to `[]`, 1 or 1; when the
     * body has no `pagination` at all, reading it throws after the images were
     * already set, so only the images change. Any other answer changes none of
     * the three. Both loaders turn off in every case. `refetch` says whether
     * `page` changed.
     */
    method CompleteFetch(outcome: FetchOutcome) returns (refetch: bool)
      modifies this
      ensures !pageLoading && !loading
      ensures refetch <==> page != old(page)
      ensures outcome.Responded? && outcome.body.success ==>
        images == (if outcome.body.data.Some? then outcome.body.data.value else [])
      ensures outcome.Responded? && outcome.body.success && outcome.body.pagination.Some? ==>
        && page == NumberOr(outcome.body.pagination.value.page, 1)
        && totalPages == NumberOr(outcome.body.pagination.value.totalPages, 1)
      ensures outcome.Responded? && outcome.body.success && outcome.body.pagination.None? ==>
        page == old(page) && totalPages == old(totalPages)
      ensures !(outcome.Responded? && outcome.body.success) ==>
        images == old(images) && page == old(page) && totalPages == old(totalPages)
    {
      var oldPage := page;
      match outcome {
        case Responded(body) =>
          if body.success {
            images := if body.data.Some? then body.data.value else [];
            if body.pagination.Some? {
              page := NumberOr(body.pagination.value.page, 1);
              totalPages := NumberOr(body.pagination.value.totalPages, 1);
            }
          }
        case RequestFailed =>
      }
      pageLoading := false;
      loading := false;
      refetch := page != oldPage;
    }

    /** `fetchImages(pageNumber)` from call to `finally`. */
    method FetchImages(hasToken: bool, pageNumber: int, outcome: FetchOutcome) returns (refetch: bool)
      modifies this
      ensures !hasToken ==> !refetch && State() == old(State())
      ensures hasToken ==> !pageLoading && !loading
      ensures hasToken && !(outcome.Responded? && outcome.body.success) ==>
        !refetch && State() == old(State()).(pageLoading := false, loading := false)
      ensures hasToken ==> (refetch <==> page != old(page))
      ensures hasToken && outcome.Responded? && outcome.body.success ==>
        images == (if outcome.body.data.Some? then outcome.body.data.value else [])
      ensures hasToken && outcome.Responded? && outcome.body.success && outcome.body.pagination.Some? ==>
        && page == NumberOr(outcome.body.pagination.value.page, 1)
        && totalPages == NumberOr(outcome.body.pagination.value.totalPages, 1)
      ensures hasToken && outcome.Responded? && outcome.body.success && outcome.body.pagination.None? ==>
        page == old(page) && totalPages == old(totalPages)
    {
      var req := StartFetch(hasToken, pageNumber);
      refetch := false;
      if req.Some? {
        refetch := CompleteFetch(outcome);
      }
    }

    /** `handlePrevPage`: one page back unless already on page 1 or before. */
    method PrevPage() returns (refetch: bool)
      modifies this
      ensures page == if old(page) > 1 then old(page) - 1 else old(page)
      ensures State() == old(State()).(page := page)
      ensures refetch <==> old(page) > 1
      ensures old(page) >= 1 ==> page >= 1
      ensures old(InBounds()) ==> InBounds()
    {
      refetch := page > 1;
      if refetch {
        page := page - 1;
      }
    }

    /** `handleNextPage`: one page on unless already on the last page or past it. */
    method NextPage() returns (refetch: bool)
      modifies this
      ensures page == if old(page) < old(totalPages) then old(page) + 1 else old(page)
      ensures State() == old(State()).(page := page)
      ensures refetch <==> old(page) < old(totalPages)
      ensures old(page) <= old(totalPages) ==> page <= totalPages
      ensures old(InBounds()) ==> InBounds()
    {
      refetch := page < totalPages;
      if refetch {
        page := page + 1;
      }
    }
  }
}
