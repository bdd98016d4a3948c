/** Draining a paged listing: the items of every page, in page order, or the
    listing's error with no items at all. */
module Listings {
  import opened Types

  /** The items of `pages`, page after page. */
  function Concat<T>(pages: seq<seq<T>>): seq<T>
    decreases |pages|
  {
    if pages == [] then [] else Concat(pages[..|pages| - 1]) + pages[|pages| - 1]
  }

  /** An item is drained exactly when some page holds it. */
  lemma {:induction false} ConcatMembers<T>(pages: seq<seq<T>>, x: T)
    ensures x in Concat(pages) <==> exists i :: 0 <= i < |pages| && x in pages[i]
    decreases |pages|
  {
    if pages != [] {
      var front := pages[..|pages| - 1];
      ConcatMembers(front, x);
      if x in Concat(pages) && x !in pages[|pages| - 1] {
        var i :| 0 <= i < |front| && x in front[i];
        assert pages[i] == front[i];
      }
      if exists i :: 0 <= i < |pages| && x in pages[i] {
        var i :| 0 <= i < |pages| && x in pages[i];
        if i < |front| { assert front[i] == pages[i]; }
      }
    }
  }

  /** The outcome of draining a listing: an error discards every page. */
  function Drained<T>(l: Listing<T>): Result<seq<T>>
  {
    match l.failure
    case Some(e) => Err(e)
    case None => Ok(Concat(l.pages))
  }

  /** The page callback of the listing functions: append each page's items in
      order; on a listing error return no items. */
  method DrainPages<T>(l: Listing<T>) returns (res: Result<seq<T>>)
    ensures res == Drained(l)
  {
    var items: seq<T> := [];
    var i := 0;
    while i < |l.pages|
      invariant 0 <= i <= |l.pages|
      invariant items == Concat(l.pages[..i])
    {
      var page := l.pages[i];
      var j := 0;
      while j < |page|
        invariant 0 <= j <= |page|
        invariant items == Concat(l.pages[..i]) + page[..j]
      {
        items := items + [page[j]];
        j := j + 1;
      }
      assert page[..j] == page;
      assert l.pages[..i + 1][..i] == l.pages[..i];
      i := i + 1;
    }
    assert l.pages[..i] == l.pages;
    if l.failure.Some? {
      return Err(l.failure.value);
    }
    return Ok(items);
  }
}
