/** Collecting a listing that comes in pages, each naming the cursor of the next. */
module Paging {
  import opened Common

  /** An element of a page's list: an object, or something else that is dropped. */
  datatype Cell<T> = Object(item: T) | Junk

  /** A page as received; `items` is None when it is not a list. */
  datatype Page<T> = Page(items: Option<seq<Cell<T>>>, next: Option<int>, more: bool)

  type Fetch<!T> = Option<int> -> Page<T>

  function Objects<T>(cells: seq<Cell<T>>): seq<T> {
    if cells == [] then []
    else
      Objects(cells[..|cells| - 1]) +
      match cells[|cells| - 1]
      case Object(item) => [item]
      case Junk => []
  }

  function Items<T>(page: Page<T>): seq<T> {
    if page.items.Some? then Objects(page.items.value) else []
  }

  /** `iterate_pages` */
  method IteratePage<T>(page: Page<T>) returns (items: seq<T>, next: Option<int>, more: bool)
    ensures items == Items(page) && next == page.next && more == page.more
  {
    items := [];
    if page.items.Some? {
      var cells := page.items.value;
      for i := 0 to |cells|
        invariant items == Objects(cells[..i])
      {
        assert cells[..i + 1][..i] == cells[..i];
        if cells[i].Object? {
          items := items + [cells[i].item];
        }
      }
      assert cells[..|cells|] == cells;
    }
    next, more := page.next, page.more;
  }

  /** The cursor that follows a page, when there is another. */
  function Follow<T>(page: Page<T>): Option<int> {
    if page.more then page.next else None
  }

  /** The page reached after n others, while there is one. */
  function Nth<T>(fetch: Fetch<T>, n: nat): Option<Page<T>> {
    if n == 0 then Some(fetch(None))
    else
      match Nth(fetch, n - 1)
      case None => None
      case Some(page) => if Follow(page).None? then None else Some(fetch(Follow(page)))
  }

  /** The items of the first n pages. */
  function Prefix<T>(fetch: Fetch<T>, n: nat): seq<T> {
    if n == 0 then []
    else
      Prefix(fetch, n - 1) +
      match Nth(fetch, n - 1)
      case Some(page) => Items(page)
      case None => []
  }

  /** `collect_all` */
  method CollectAll<T>(fetch: Fetch<T>, maxPages: nat) returns (out: seq<T>)
    ensures out == Prefix(fetch, maxPages)
  {
    out := [];
    var cursor: Option<int> := None;
    for n := 0 to maxPages
      invariant out == Prefix(fetch, n)
      invariant Nth(fetch, n) == Some(fetch(cursor))
    {
      var items, more;
      var page := fetch(cursor);
      items, cursor, more := IteratePage(page);
      out := out + items;
      if !more || cursor.None? {
        NoMorePages(fetch, n, maxPages);
        return;
      }
    }
  }

  /** After the last page there is nothing to add. */
  lemma {:induction false} NoMorePages<T>(fetch: Fetch<T>, n: nat, m: nat)
    requires n < m && Nth(fetch, n).Some? && Follow(Nth(fetch, n).value).None?
    ensures Prefix(fetch, m) == Prefix(fetch, n + 1)
    ensures n + 1 < m ==> Nth(fetch, m - 1).None?
  {
    if n + 1 < m {
      NoMorePages(fetch, n, m - 1);
    }
  }

  // ── a server with a list in pages ──

  /** The server cuts a list in pages: the first comes without a cursor, and each but
      the last names the cursor under which the one after it is served. */
  ghost predicate Serves<T(!new)>(fetch: Fetch<T>, pages: seq<seq<Cell<T>>>, cursors: seq<int>) {
    && |pages| == |cursors| + 1
    && forall k | 0 <= k < |pages| ::
         && fetch(Cursor(cursors, k)).items == Some(pages[k])
         && Follow(fetch(Cursor(cursors, k))) == (if k < |cursors| then Some(cursors[k]) else None)
  }

  function Cursor(cursors: seq<int>, k: nat): Option<int>
    requires k <= |cursors|
  {
    if k == 0 then None else Some(cursors[k - 1])
  }

  function Flatten<T>(pages: seq<seq<Cell<T>>>): seq<T> {
    if pages == [] then [] else Flatten(pages[..|pages| - 1]) + Objects(pages[|pages| - 1])
  }

  lemma ServedNext<T(!new)>(fetch: Fetch<T>, pages: seq<seq<Cell<T>>>, cursors: seq<int>, k: nat)
    requires Serves(fetch, pages, cursors) && k < |cursors|
    ensures Follow(fetch(Cursor(cursors, k))) == Cursor(cursors, k + 1) && Cursor(cursors, k + 1).Some?
  {
  }

  lemma {:induction false} PageReached<T(!new)>(fetch: Fetch<T>, pages: seq<seq<Cell<T>>>, cursors: seq<int>, k: nat)
    requires Serves(fetch, pages, cursors) && k < |pages|
    ensures Nth(fetch, k) == Some(fetch(Cursor(cursors, k)))
  {
    if k > 0 {
      PageReached(fetch, pages, cursors, k - 1);
      ServedNext(fetch, pages, cursors, k - 1);
    }
  }

  lemma {:induction false} PrefixIsPages<T(!new)>(fetch: Fetch<T>, pages: seq<seq<Cell<T>>>, cursors: seq<int>, n: nat)
    requires Serves(fetch, pages, cursors) && n <= |pages|
    ensures Prefix(fetch, n) == Flatten(pages[..n])
  {
    if n > 0 {
      PrefixIsPages(fetch, pages, cursors, n - 1);
      PageReached(fetch, pages, cursors, n - 1);
      assert pages[..n][..n - 1] == pages[..n - 1];
    }
  }

  /** The whole list, each item once and in order, when its pages fit in the limit;
      otherwise exactly what the first pages hold. */
  lemma CollectsTheList<T(!new)>(fetch: Fetch<T>, pages: seq<seq<Cell<T>>>, cursors: seq<int>, maxPages: nat)
    requires Serves(fetch, pages, cursors)
    ensures |pages| <= maxPages ==> Prefix(fetch, maxPages) == Flatten(pages)
    ensures |pages| > maxPages ==> Prefix(fetch, maxPages) == Flatten(pages[..maxPages])
  {
    if |pages| <= maxPages {
      var n := |pages| - 1;
      PrefixIsPages(fetch, pages, cursors, |pages|);
      PageReached(fetch, pages, cursors, n);
      NoMorePages(fetch, n, maxPages);
      assert pages[..|pages|] == pages;
    } else {
      PrefixIsPages(fetch, pages, cursors, maxPages);
    }
  }
}
