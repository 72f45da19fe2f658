/**
 * The ebook screen: the PDF address, the page-by-page viewer that runs in the
 * embedded page, and the loading indicator over it.
 */
module EbookDetail {
  import opened Wrappers
  import BaseUrl

  /** `getPdfUrl`: the path itself when absolute, otherwise joined to the server address. */
  function PdfUrl(base: string, pdfPath: string): (r: string)
    ensures BaseUrl.IsAbsolute(pdfPath) ==> r == pdfPath
    ensures !BaseUrl.IsAbsolute(pdfPath) ==> r == BaseUrl.FullUrl(base, pdfPath) && |r| > |base|
  {
    BaseUrl.FullUrl(base, pdfPath)
  }

  /** The viewer is shown when the ebook has a PDF file and its address is non-empty, which is whenever it has the file. */
  lemma ViewerShownIffPdfFile(base: string, pdfFile: string)
    ensures (pdfFile != "" && PdfUrl(base, pdfFile) != "") <==> pdfFile != ""
  {
  }

  /**
   * The viewer's globals: the page asked for, the page count once the
   * document is open, whether a render is in flight, the one page waiting for
   * it, and the pages whose rendering has started, in order.
   */
  class PdfPager {
    var pageNum: int
    var numPages: nat
    var loaded: bool
    var rendering: bool
    var pending: Option<int>
    var renders: seq<int>

    /**
     * The page number stays within the document, a page waits only behind
     * a render in flight, and the page that waits, or else the last one
     * started, is the current page: the display ends on the page asked for last.
     */
    ghost predicate Valid()
      reads this
    {
      && 1 <= pageNum
      && (loaded ==> 1 <= numPages && pageNum <= numPages)
      && (pending.Some? ==> rendering && loaded)
      && (loaded && pending.Some? ==> pending.value == pageNum)
      && (loaded && pending.None? ==> |renders| > 0 && renders[|renders| - 1] == pageNum)
      && (!loaded ==> pageNum == 1 && renders == [] && !rendering)
    }

    constructor ()
      ensures Valid()
      ensures pageNum == 1 && !loaded && !rendering && pending.None? && renders == []
    {
      pageNum := 1;
      numPages := 0;
      loaded := false;
      rendering := false;
      pending := None;
      renders := [];
    }

    /** `renderPage(num)`: a render of `num` starts. */
    method RenderPage(num: int)
      modifies this
      ensures rendering && renders == old(renders) + [num]
      ensures pageNum == old(pageNum) && numPages == old(numPages) && loaded == old(loaded) && pending == old(pending)
    {
      rendering := true;
      renders := renders + [num];
    }

    /** The document opened with `n` pages; the current page is rendered. */
    method Open(n: nat)
      requires Valid() && !loaded && n >= 1
      modifies this
      ensures Valid() && loaded && numPages == n
      ensures pageNum == old(pageNum) && renders == old(renders) + [old(pageNum)] && rendering
      ensures pending.None?
    {
      numPages := n;
      loaded := true;
      RenderPage(pageNum);
    }

    /** `queueRenderPage(num)`: waits behind a render in flight (replacing any waiting page), else starts. */
    method QueueRenderPage(num: int)
      modifies this
      ensures old(rendering) ==> pending == Some(num) && renders == old(renders) && rendering
      ensures !old(rendering) ==> pending == old(pending) && renders == old(renders) + [num] && rendering
      ensures pageNum == old(pageNum) && numPages == old(numPages) && loaded == old(loaded)
    {
      if rendering {
        pending := Some(num);
      } else {
        RenderPage(num);
      }
    }

    /** `onPrevPage`: nothing on the first page, otherwise one page back. */
    method PrevPage()
      requires Valid() && loaded
      modifies this
      ensures Valid() && loaded && numPages == old(numPages)
      ensures old(pageNum) <= 1 ==>
        pageNum == old(pageNum) && renders == old(renders) && pending == old(pending) && rendering == old(rendering)
      ensures old(pageNum) > 1 ==> pageNum == old(pageNum) - 1 && rendering
      ensures old(pageNum) > 1 && old(rendering) ==> pending == Some(pageNum) && renders == old(renders)
      ensures old(pageNum) > 1 && !old(rendering) ==> pending == old(pending) && renders == old(renders) + [pageNum]
    {
      if pageNum <= 1 {
        return;
      }
      pageNum := pageNum - 1;
      QueueRenderPage(pageNum);
    }

    /** `onNextPage`: nothing on the last page, otherwise one page on. */
    method NextPage()
      requires Valid() && loaded
      modifies this
      ensures Valid() && loaded && numPages == old(numPages)
      ensures old(pageNum) >= numPages ==>
        pageNum == old(pageNum) && renders == old(renders) && pending == old(pending) && rendering == old(rendering)
      ensures old(pageNum) < numPages ==> pageNum == old(pageNum) + 1 && rendering
      ensures old(pageNum) < numPages && old(rendering) ==> pending == Some(pageNum) && renders == old(renders)
      ensures old(pageNum) < numPages && !old(rendering) ==> pending == old(pending) && renders == old(renders) + [pageNum]
    {
      if pageNum >= numPages {
        return;
      }
      pageNum := pageNum + 1;
      QueueRenderPage(pageNum);
    }

    /** The render in flight completes: the waiting page, if any, is rendered and the slot cleared. */
    method RenderDone()
      requires Valid() && rendering
      modifies this
      ensures Valid() && pending.None? && pageNum == old(pageNum) && numPages == old(numPages)
      ensures old(pending).Some? ==> rendering && renders == old(renders) + [old(pending).value]
      ensures old(pending).None? ==> !rendering && renders == old(renders)
    {
      rendering := false;
      if pending.Some? {
        RenderPage(pending.value);
        pending := None;
      }
    }
  }

  /**
   * Opening a document of at least two pages, letting the first render
   * finish, and asking for the next page renders page 1, then page 2, and
   * leaves nothing in flight.
   */
  method OpenFinishNext(n: nat) returns (shown: seq<int>, current: int, busy: bool)
    requires n >= 2
    ensures shown == [1, 2] && current == 2 && !busy
  {
    var pager := new PdfPager();
    pager.Open(n);
    pager.RenderDone();
    pager.NextPage();
    pager.RenderDone();
    shown, current, busy := pager.renders, pager.pageNum, pager.rendering;
  }

  /** The events of the viewer's web view that end the loading indicator. */
  datatype ViewerEvent = LoadEnd | Error | HttpError(statusCode: int)

  /** The `pdfLoading` flag over the viewer: set at first, cleared by any end event. */
  class PdfIndicator {
    var loading: bool

    constructor ()
      ensures loading
    {
      loading := true;
    }

    /** `onLoadEnd`, `onError` and `onHttpError` each clear the flag, whatever it was. */
    method Handle(e: ViewerEvent)
      modifies this
      ensures !loading
    {
      loading := false;
    }
  }
}
