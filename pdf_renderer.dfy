/** The viewer state of src/components/PdfRenderer.tsx: page navigation with its form
    field and validator, zoom, rotation, and the loading flag derived from the scale last
    rendered. Zoom levels are integer percentages. */
module PdfRenderer {
  import opened Wrappers

  // ---------------------------------------------------------------- numbers and strings

  predicate IsDigit(c: char) {
    '0' <= c <= '9'
  }

  predicate AllDigits(s: string) {
    forall k :: 0 <= k < |s| ==> IsDigit(s[k])
  }

  /** The value of a string of decimal digits (the empty string is 0). */
  function DigitsValue(s: string): nat
    requires AllDigits(s)
  {
    if |s| == 0 then 0
    else DigitsValue(s[..|s| - 1]) * 10 + (s[|s| - 1] as int - '0' as int)
  }

  /** `Number(s)` on the strings this model covers: a string of decimal digits gives its
      value (the empty string gives 0), any other string gives NaN (None). */
  function JsNumber(s: string): (r: Option<nat>)
    ensures r.Some? <==> AllDigits(s)
    ensures r.Some? ==> r.value == DigitsValue(s)
  {
    if AllDigits(s) then Some(DigitsValue(s)) else None
  }

  function Digit(d: nat): (c: char)
    requires d < 10
    ensures IsDigit(c) && c as int - '0' as int == d
  {
    ('0' as int + d) as char
  }

  /** `String(n)` for a natural number: its decimal digits, without leading zeros. */
  function NatToString(n: nat): (s: string)
    ensures |s| > 0 && AllDigits(s)
    ensures |s| > 1 ==> s[0] != '0'
  {
    if n < 10 then [Digit(n)] else NatToString(n / 10) + [Digit(n % 10)]
  }

  /** `String(i)` for any integer. */
  function IntToString(i: int): string {
    if i < 0 then "-" + NatToString(-i) else NatToString(i)
  }

  /** Reading back the string of a number gives the number. */
  lemma {:induction false} NumberOfString(n: nat)
    ensures JsNumber(NatToString(n)) == Some(n)
  {
    var s := NatToString(n);
    if n < 10 {
      assert s[..|s| - 1] == [];
    } else {
      NumberOfString(n / 10);
      assert s[..|s| - 1] == NatToString(n / 10);
      assert DigitsValue(s) == (n / 10) * 10 + n % 10;
    }
  }

  // ---------------------------------------------------------------- the page field

  /** `customPageValidator`: `Number(page) > 0 && Number(page) <= numPages!`. NaN fails
      both comparisons, and so does a comparison with an unknown page count. */
  predicate PageValid(page: string, numPages: Option<nat>) {
    match JsNumber(page)
    case None => false
    case Some(n) => n > 0 && numPages.Some? && n <= numPages.value
  }

  /** The field validates exactly when it reads as a number between 1 and the page count;
      for the string of a number `k` that means `0 < k <= numPages`. */
  lemma PageValidRange(page: string, numPages: Option<nat>, k: nat)
    ensures PageValid(page, numPages) <==>
      JsNumber(page).Some? && numPages.Some? && 0 < JsNumber(page).value <= numPages.value
    ensures PageValid(NatToString(k), numPages) <==> numPages.Some? && 0 < k <= numPages.value
    ensures !PageValid(page, None)
  {
    NumberOfString(k);
  }

  // ---------------------------------------------------------------- state updaters

  /** The updater of the "previous" button: `prev - 1 > 1 ? prev - 1 : prev`. */
  function PreviousPage(prev: int): (r: int)
    ensures r <= prev && r >= prev - 1
    ensures r == prev - 1 <==> prev > 2
  {
    if prev - 1 > 1 then prev - 1 else prev
  }

  /** From page 2 or beyond, "previous" never reaches page 1. */
  lemma PreviousNeverReachesFirstPage(prev: int)
    requires prev >= 2
    ensures PreviousPage(prev) >= 2
    ensures PreviousPage(2) == 2
  {
  }

  /** What the "previous" button evidently means: one page back, never before page 1. */
  function IntendedPreviousPage(prev: int): (r: int)
    ensures r >= 1
    ensures prev > 1 ==> r == prev - 1
  {
    if prev - 1 >= 1 then prev - 1 else 1
  }

  /** Whenever the button is enabled, the corrected updater moves back exactly one page and
      lands on the page the field then shows; the updater as written differs on page 2. */
  lemma IntendedPreviousAgreesWithField(prev: int)
    requires prev > 1
    ensures JsNumber(IntToString(prev - 1)) == Some(IntendedPreviousPage(prev))
    ensures prev == 2 ==> PreviousPage(prev) != IntendedPreviousPage(prev)
  {
    NumberOfString(prev - 1);
  }

  /** The updater of the "next" button: `prev + 1 > numPages ? numPages : prev + 1`. */
  function NextPage(prev: int, numPages: nat): (r: int)
    ensures r <= numPages
    ensures r == prev + 1 || r == numPages
    ensures prev < numPages ==> r == prev + 1
  {
    if prev + 1 > numPages then numPages else prev + 1
  }

  datatype ZoomLevel = Zoom50 | Zoom75 | Zoom100 | Zoom150 | Zoom200 | Zoom250

  /** The scale each zoom menu item sets, in percent. */
  function Percent(level: ZoomLevel): (p: nat)
    ensures p in {50, 75, 100, 150, 200, 250}
  {
    match level
    case Zoom50 => 50
    case Zoom75 => 75
    case Zoom100 => 100
    case Zoom150 => 150
    case Zoom200 => 200
    case Zoom250 => 250
  }

  class PdfViewer {
    var numPages: Option<nat>
    var currPage: int
    /** In percent. */
    var scale: nat
    var rotation: int
    var renderedScale: Option<nat>
    /** The text of the page input. */
    var pageField: string

    /** `isLoading = renderedScale !== scale` */
    predicate IsLoading()
      reads this
    {
      renderedScale != Some(scale)
    }

    /** The initial state: page 1 of an unknown count, 100%, no rotation, nothing rendered
        yet, so loading. */
    constructor ()
      ensures numPages.None? && currPage == 1 && scale == 100 && rotation == 0
      ensures renderedScale.None? && pageField == "1" && IsLoading()
    {
      numPages, currPage, scale, rotation := None, 1, 100, 0;
      renderedScale, pageField := None, "1";
    }

    /** `onLoadSuccess` of the document. */
    method OnLoadSuccess(n: nat)
      modifies this
      ensures numPages == Some(n)
      ensures currPage == old(currPage) && scale == old(scale) && rotation == old(rotation)
      ensures renderedScale == old(renderedScale) && pageField == old(pageField)
    {
      numPages := Some(n);
    }

    /** Typing in the page input. */
    method EditPageField(text: string)
      modifies this
      ensures pageField == text
      ensures numPages == old(numPages) && currPage == old(currPage) && scale == old(scale)
      ensures rotation == old(rotation) && renderedScale == old(renderedScale)
    {
      pageField := text;
    }

    /** Enter in the page input: `handleSubmit(handlePageSubmit)` runs the handler only when
        the validator accepts; the handler sets the page to `Number(page)` and the field to
        `String(page)`, which for a string is the same text. */
    method SubmitPage() returns (accepted: bool)
      modifies this
      ensures numPages == old(numPages) && scale == old(scale)
      ensures accepted == PageValid(old(pageField), old(numPages))
      ensures accepted ==> currPage == JsNumber(old(pageField)).value && 0 < currPage <= numPages.value
      ensures !accepted ==> currPage == old(currPage)
      ensures pageField == old(pageField)
      ensures rotation == old(rotation) && renderedScale == old(renderedScale)
    {
      accepted := PageValid(pageField, numPages);
      if accepted {
        var page := pageField;
        currPage := JsNumber(page).value;
        pageField := page;
      }
    }

    /** The "previous" button, disabled while `currPage <= 1`, with the corrected updater:
        one page back, and the field shows the page it lands on. */
    method Previous() returns (clicked: bool)
      modifies this
      ensures clicked == (old(currPage) > 1)
      ensures clicked ==> currPage == old(currPage) - 1 && pageField == IntToString(currPage)
      ensures clicked ==> JsNumber(pageField) == Some(currPage)
      ensures !clicked ==> currPage == old(currPage) && pageField == old(pageField)
      ensures numPages == old(numPages) && scale == old(scale)
      ensures rotation == old(rotation) && renderedScale == old(renderedScale)
    {
      clicked := currPage > 1;
      if clicked {
        var shown := currPage;
        currPage := IntendedPreviousPage(currPage);
        pageField := IntToString(shown - 1);
        IntendedPreviousAgreesWithField(shown);
      }
    }

    /** The "previous" button as the source writes it: the updater steps back only above
        page 2, while the field is set from the page before the update. From page 2 the
        page stays 2 while the field shows "1". */
    method PreviousAsWritten() returns (clicked: bool)
      modifies this
      ensures numPages == old(numPages) && scale == old(scale)
      ensures rotation == old(rotation) && renderedScale == old(renderedScale)
      ensures clicked == (old(currPage) > 1)
      ensures clicked ==> currPage == PreviousPage(old(currPage)) && pageField == IntToString(old(currPage) - 1)
      ensures clicked && old(currPage) == 2 ==> currPage == 2 && pageField == "1"
      ensures clicked && old(currPage) == 2 ==> JsNumber(pageField) != Some(currPage)
      ensures !clicked ==> currPage == old(currPage) && pageField == old(pageField)
    {
      clicked := currPage > 1;
      if clicked {
        var shown := currPage;
        currPage := PreviousPage(currPage);
        pageField := IntToString(shown - 1);
        if shown == 2 {
          NumberOfString(1);
          assert NatToString(1) == "1";
        }
      }
    }

    /** The "next" button, disabled while the page count is unknown or reached. The page
        is clamped to the count; the field is not. */
    method Next() returns (clicked: bool)
      modifies this
      ensures numPages == old(numPages)
      ensures clicked == (old(numPages).Some? && old(currPage) != old(numPages).value)
      ensures clicked ==>
        && currPage == NextPage(old(currPage), numPages.value)
        && currPage <= numPages.value
        && pageField == IntToString(old(currPage) + 1)
      ensures !clicked ==> currPage == old(currPage) && pageField == old(pageField)
      ensures numPages == old(numPages) && scale == old(scale)
      ensures rotation == old(rotation) && renderedScale == old(renderedScale)
    {
      clicked := numPages.Some? && currPage != numPages.value;
      if clicked {
        var shown := currPage;
        currPage := NextPage(currPage, numPages.value);
        pageField := IntToString(shown + 1);
      }
    }

    /** A zoom menu item: the new scale is loading until a page renders at it. */
    method SetZoom(level: ZoomLevel)
      modifies this
      ensures scale == Percent(level)
      ensures IsLoading() <==> old(renderedScale) != Some(Percent(level))
      ensures numPages == old(numPages) && currPage == old(currPage) && rotation == old(rotation)
      ensures renderedScale == old(renderedScale) && pageField == old(pageField)
    {
      scale := Percent(level);
    }

    /** The rotate button: 90 degrees more each click, never reduced modulo 360. */
    method Rotate()
      modifies this
      ensures rotation == old(rotation) + 90
      ensures numPages == old(numPages) && currPage == old(currPage) && scale == old(scale)
      ensures renderedScale == old(renderedScale) && pageField == old(pageField)
    {
      rotation := rotation + 90;
    }

    /** `onRenderSuccess` of the page: the current scale is rendered, so loading ends. */
    method OnRenderSuccess()
      modifies this
      ensures renderedScale == Some(scale) && !IsLoading()
      ensures numPages == old(numPages) && currPage == old(currPage) && scale == old(scale)
      ensures rotation == old(rotation) && pageField == old(pageField)
    {
      renderedScale := Some(scale);
    }
  }
}
