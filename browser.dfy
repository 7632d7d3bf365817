/** The shared browser session, seen only through the pages it opens and
    closes. Every outcome the real browser decides (whether a page can be
    created, navigation, waits, DOM queries, screenshots) is a parameter
    of the caller: an oracle answer that may be a failure. */
module Browser {
  import opened Values

  type PageId = nat

  class Session {
    /** Pages currently open (tabs not yet closed). */
    var open: set<PageId>
    /** How many pages were ever created; also the next page's id. */
    var created: nat

    ghost predicate Valid()
      reads this
    {
      forall p :: p in open ==> p < created
    }

    constructor ()
      ensures Valid() && open == {} && created == 0
    {
      open := {};
      created := 0;
    }

    /** `stealth.Page(browser)`: a new isolated page, unless the browser
        refuses with `failure`. */
    method OpenPage(failure: Option<string>) returns (r: Result<PageId, string>)
      requires Valid()
      modifies this
      ensures Valid()
      ensures failure.Some? ==> r == Err(failure.value) && open == old(open) && created == old(created)
      ensures failure.None? ==> r == Ok(old(created)) && old(created) !in old(open)
      ensures failure.None? ==> open == old(open) + {old(created)} && created == old(created) + 1
    {
      if failure.Some? {
        return Err(failure.value);
      }
      r := Ok(created);
      open := open + {created};
      created := created + 1;
    }

    /** `page.Close()`. */
    method ClosePage(page: PageId)
      requires Valid()
      modifies this
      ensures Valid()
      ensures open == old(open) - {page} && created == old(created)
    {
      open := open - {page};
    }
  }
}
