/** The gallery screen: the newest-first list of the user's images, shown
    twelve to a page, with deletion of a whole image. */
module ImageGallery {
  import opened Base
  import opened Records
  import opened Listing

  /** `ITEMS_PER_PAGE`. */
  const ItemsPerPage := 12

  /** `Math.ceil(filteredImages.length / ITEMS_PER_PAGE)`. */
  function TotalPages(n: nat): (p: nat)
    ensures p == 0 <==> n == 0
    ensures n <= p * ItemsPerPage
    ensures p > 0 ==> (p - 1) * ItemsPerPage < n
  {
    (n + ItemsPerPage - 1) / ItemsPerPage
  }

  /** The pager is rendered when `totalPages > 1`, which is exactly when
      there are more images than fit on one page. */
  lemma PagerShownExactly(n: nat)
    ensures TotalPages(n) > 1 <==> n > ItemsPerPage
  {
  }

  /** `(page - 1) * ITEMS_PER_PAGE`. */
  function StartIndex(page: int): int {
    (page - 1) * ItemsPerPage
  }

  /** `xs.slice(start, end)` for a start that is not negative: both ends are
      cut down to the length. */
  function Slice<T>(xs: seq<T>, start: nat, end: int): (r: seq<T>)
    ensures start >= |xs| ==> r == []
    ensures start < |xs| ==> r == xs[start..if end < |xs| then (if end < start then start else end) else |xs|]
  {
    if start >= |xs| then []
    else if end < start then []
    else if end < |xs| then xs[start..end]
    else xs[start..]
  }

  function CardId(c: Card): string { c.id }

  /** `paginatedImages` for page `page` (the pager hands out pages from 1):
      the images from the page's start, at most twelve of them. */
  function PageItems(xs: seq<Card>, page: int): (r: seq<Card>)
    requires page >= 1
    ensures |r| <= ItemsPerPage
    ensures StartIndex(page) >= |xs| ==> r == []
    ensures StartIndex(page) < |xs| ==>
      r == xs[StartIndex(page)..if StartIndex(page) + ItemsPerPage < |xs| then StartIndex(page) + ItemsPerPage else |xs|]
  {
    Slice(xs, StartIndex(page), StartIndex(page) + ItemsPerPage)
  }

  /** Pages 1 to `k`, one after the other. */
  function PagesUpTo(xs: seq<Card>, k: nat): seq<Card> {
    if k == 0 then [] else PagesUpTo(xs, k - 1) + PageItems(xs, k)
  }

  /** `n` cut down to the length of `xs`. */
  function Cap(xs: seq<Card>, n: nat): nat {
    if n < |xs| then n else |xs|
  }

  /** Page `k` carries on exactly where the pages before it stopped. */
  lemma PageFollows(xs: seq<Card>, k: nat)
    requires k > 0
    ensures xs[..Cap(xs, (k - 1) * ItemsPerPage)] + PageItems(xs, k) == xs[..Cap(xs, k * ItemsPerPage)]
  {
    var lo := (k - 1) * ItemsPerPage;
    assert k * ItemsPerPage == lo + ItemsPerPage;
    assert StartIndex(k) == lo;
    if lo < |xs| {
      var hi := Cap(xs, lo + ItemsPerPage);
      assert PageItems(xs, k) == xs[lo..hi];
      assert xs[..lo] + xs[lo..hi] == xs[..hi];
    }
  }

  lemma {:induction false} PagesUpToPrefix(xs: seq<Card>, k: nat)
    ensures PagesUpTo(xs, k) == xs[..Cap(xs, k * ItemsPerPage)]
  {
    if k > 0 {
      PagesUpToPrefix(xs, k - 1);
      PageFollows(xs, k);
    }
  }

  /** Reading pages 1 to `totalPages` in turn shows every image once, in
      list order. */
  lemma PagesCoverList(xs: seq<Card>)
    ensures PagesUpTo(xs, TotalPages(|xs|)) == xs
  {
    PagesUpToPrefix(xs, TotalPages(|xs|));
  }

  /** Deleting keeps the order of what remains. */
  lemma {:induction false} RemoveKeyKeepsOrder(xs: seq<Card>, id: string)
    requires NewestFirst(xs)
    ensures NewestFirst(RemoveKey(xs, CardId, id))
  {
    if xs != [] {
      var tail := xs[1..];
      RemoveKeyKeepsOrder(tail, id);
      var rest := RemoveKey(tail, CardId, id);
      if CardId(xs[0]) != id {
        var r := [xs[0]] + rest;
        assert RemoveKey(xs, CardId, id) == r;
        forall j | 1 <= j < |r| ensures r[0].createdAt >= r[j].createdAt {
          assert r[j] in tail;
        }
      }
    }
  }

  /** The first generated picture of a card, the one its download button
      fetches; there is no button on a card without one. */
  function DownloadTarget(c: Card): (g: Option<string>)
    ensures g.Some? <==> |c.generated| > 0
    ensures g.Some? ==> g.value == c.generated[0].entry.id
  {
    if |c.generated| > 0 then Some(c.generated[0].entry.id) else None
  }

  class Gallery {
    var images: seq<Card>
    var filteredImages: seq<Card>
    var page: int
    var confirmDeleteOpen: bool
    var imageToDelete: Option<Card>

    /** There is no filter control: the filtered list is always the whole
        list, newest first, and the page is one the pager handed out. */
    ghost predicate Valid()
      reads this
    {
      filteredImages == images && NewestFirst(images) && page >= 1
    }

    constructor()
      ensures Valid() && images == [] && page == 1 && !confirmDeleteOpen && imageToDelete.None?
    {
      images := [];
      filteredImages := [];
      page := 1;
      confirmDeleteOpen := false;
      imageToDelete := None;
    }

    /** The images on screen. */
    function Visible(): (r: seq<Card>)
      requires Valid()
      reads this
      ensures |r| <= ItemsPerPage
      ensures forall c | c in r :: c in images
    {
      PageItems(filteredImages, page)
    }

    /** `fetchImages`: the answer of `GET /images`, sorted newest first. */
    method Loaded(fetched: seq<Card>)
      requires Valid()
      modifies this
      ensures Valid()
      ensures images == SortNewest(fetched) && multiset(images) == multiset(fetched)
      ensures page == old(page) && confirmDeleteOpen == old(confirmDeleteOpen) && imageToDelete == old(imageToDelete)
    {
      images := SortNewest(fetched);
      filteredImages := images;
    }

    /** `handlePageChange`. */
    method PageChange(value: int)
      requires Valid() && value >= 1
      modifies this
      ensures Valid() && page == value
      ensures images == old(images) && confirmDeleteOpen == old(confirmDeleteOpen) && imageToDelete == old(imageToDelete)
    {
      page := value;
    }

    /** `handleDeleteClick`. */
    method DeleteClick(image: Card)
      requires Valid()
      modifies this
      ensures Valid() && imageToDelete == Some(image) && confirmDeleteOpen
      ensures images == old(images) && page == old(page)
    {
      imageToDelete := Some(image);
      confirmDeleteOpen := true;
    }

    /** `confirmDelete`, once the server answered (`deleted`) or failed:
        on success every card with the image's id leaves both lists, the
        others keep their order, and the dialog closes; on failure only the
        dialog closes. The page number is left as it was. */
    method ConfirmDelete(deleted: bool)
      requires Valid() && imageToDelete.Some?
      modifies this
      ensures Valid() && !confirmDeleteOpen && page == old(page)
      ensures deleted ==> images == RemoveKey(old(images), CardId, old(imageToDelete).value.id) && imageToDelete.None?
      ensures !deleted ==> images == old(images) && imageToDelete == old(imageToDelete)
    {
      if deleted {
        var id := imageToDelete.value.id;
        RemoveKeyKeepsOrder(images, id);
        images := RemoveKey(images, CardId, id);
        filteredImages := RemoveKey(filteredImages, CardId, id);
        confirmDeleteOpen := false;
        imageToDelete := None;
      } else {
        confirmDeleteOpen := false;
      }
    }
  }
}
