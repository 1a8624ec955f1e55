/** The layout arithmetic of the CV page (src/app/cv/page.tsx): the width each
    PDF page is rendered at, clamped to `maxWidth`, and the list of pages, one
    per page of the loaded document, keyed `page_<n>`. The two state setters
    that feed them are the methods of `CvViewer`. */
module CvPage {
  import opened Wrappers

  const MaxWidth: real := 800.0

  /** A resize-observer entry, reduced to the width of its content rectangle. */
  datatype ResizeEntry = ResizeEntry(contentWidth: real)

  /** A loaded PDF document, reduced to its page count. */
  datatype PdfDocument = PdfDocument(numPages: nat)

  /** The props of one rendered `<Page>`. */
  datatype PageProps = PageProps(key: string, pageNumber: nat, width: real)

  /** JavaScript truthiness of a `number | undefined`: unset and `0` are false. */
  predicate Truthy(w: Option<real>) {
    w.Some? && w.value != 0.0
  }

  /** `containerWidth ? Math.min(containerWidth, maxWidth) : maxWidth`. */
  function PageWidth(containerWidth: Option<real>): (w: real)
    ensures w <= MaxWidth
    ensures w == MaxWidth || (containerWidth.Some? && w == containerWidth.value)
    ensures Truthy(containerWidth) ==> w <= containerWidth.value
    ensures !Truthy(containerWidth) ==> w == MaxWidth
  {
    if Truthy(containerWidth) then
      (if containerWidth.value <= MaxWidth then containerWidth.value else MaxWidth)
    else MaxWidth
  }

  /** `Array.from({ length: numPages }, ...)` takes length 0 while the page
      count is still undefined. */
  function PageCount(numPages: Option<nat>): nat {
    if numPages.Some? then numPages.value else 0
  }

  /** The page numbers rendered: `index + 1` for each index below the count. */
  function PageNumbers(numPages: Option<nat>): (ps: seq<nat>)
    ensures |ps| == PageCount(numPages)
    ensures forall n :: n in ps <==> 1 <= n <= PageCount(numPages)
    ensures forall i, j :: 0 <= i < j < |ps| ==> ps[i] < ps[j]
    ensures numPages == None ==> ps == []
  {
    var ps := seq(PageCount(numPages), i => i + 1);
    forall n | 1 <= n <= PageCount(numPages) ensures n in ps {
      assert ps[n - 1] == n;
    }
    ps
  }

  /** The ASCII digit for `n`. */
  function Digit(n: nat): (c: char)
    requires n < 10
    ensures c as int == '0' as int + n
  {
    (('0' as int) + n) as char
  }

  /** JavaScript's rendering of a non-negative integer below 10^21 (larger
      ones are written in exponent form, which no page count reaches). */
  function Decimal(n: nat): (s: string)
    ensures |s| >= 1
    ensures |s| == 1 <==> n < 10
    ensures forall i :: 0 <= i < |s| ==> '0' <= s[i] <= '9'
    ensures s[0] == '0' ==> n == 0
    decreases n
  {
    if n < 10 then [Digit(n)] else Decimal(n / 10) + [Digit(n % 10)]
  }

  /** The number a string of decimal digits denotes. */
  function Value(s: string): nat
    requires forall i :: 0 <= i < |s| ==> '0' <= s[i] <= '9'
    decreases |s|
  {
    if s == [] then 0 else 10 * Value(s[..|s| - 1]) + (s[|s| - 1] as int - '0' as int)
  }

  /** Reading back the rendering of a number gives that number. */
  lemma {:induction false} DecimalValue(n: nat)
    ensures Value(Decimal(n)) == n
    decreases n
  {
    var s := Decimal(n);
    if n >= 10 {
      assert s[..|s| - 1] == Decimal(n / 10);
      DecimalValue(n / 10);
    } else {
      assert s[..0] == [];
    }
  }

  /** Different numbers have different decimal renderings. */
  lemma {:induction false} DecimalInjective(a: nat, b: nat)
    requires Decimal(a) == Decimal(b)
    ensures a == b
    decreases a
  {
    var s := Decimal(a);
    if a >= 10 {
      assert b >= 10;
      assert Decimal(a / 10) == s[..|s| - 1] == Decimal(b / 10);
      DecimalInjective(a / 10, b / 10);
      assert Digit(a % 10) == s[|s| - 1] == Digit(b % 10);
    } else {
      assert Digit(a) == s[0] == Digit(b);
    }
  }

  /** The React key of the page with number `n`: `page_${n}`. */
  function PageKey(n: nat): string {
    "page_" + Decimal(n)
  }

  lemma PageKeyInjective(a: nat, b: nat)
    requires PageKey(a) == PageKey(b)
    ensures a == b
  {
    assert Decimal(a) == PageKey(a)[5..] == PageKey(b)[5..] == Decimal(b);
    DecimalInjective(a, b);
  }

  /** The pages rendered for a page count and a container width. */
  function Pages(numPages: Option<nat>, containerWidth: Option<real>): (ps: seq<PageProps>)
    ensures |ps| == |PageNumbers(numPages)|
    ensures forall i :: 0 <= i < |ps| ==> ps[i].pageNumber == PageNumbers(numPages)[i]
    ensures forall i :: 0 <= i < |ps| ==> ps[i].width == PageWidth(containerWidth) <= MaxWidth
    ensures forall i :: 0 <= i < |ps| ==> ps[i].key == PageKey(ps[i].pageNumber)
    ensures numPages == None ==> ps == []
  {
    var numbers := PageNumbers(numPages);
    seq(|numbers|, i requires 0 <= i < |numbers| =>
      PageProps(PageKey(numbers[i]), numbers[i], PageWidth(containerWidth)))
  }

  /** The rendered pages carry pairwise distinct keys, and each page is
      labelled with its own number. */
  lemma PageKeysDistinct(numPages: Option<nat>, containerWidth: Option<real>)
    ensures forall i :: 0 <= i < |Pages(numPages, containerWidth)| ==>
      Pages(numPages, containerWidth)[i].key == PageKey(Pages(numPages, containerWidth)[i].pageNumber)
    ensures forall i, j :: 0 <= i < j < |Pages(numPages, containerWidth)| ==>
      Pages(numPages, containerWidth)[i].key != Pages(numPages, containerWidth)[j].key
  {
    var ps := Pages(numPages, containerWidth);
    forall i, j | 0 <= i < j < |ps| ensures ps[i].key != ps[j].key {
      if ps[i].key == ps[j].key {
        assert PageKey(ps[i].pageNumber) == PageKey(ps[j].pageNumber);
        PageKeyInjective(ps[i].pageNumber, ps[j].pageNumber);
      }
    }
  }

  /** The CV component's held layout state. */
  class CvViewer {
    var numPages: Option<nat>
    var containerWidth: Option<real>

    constructor ()
      ensures numPages == None && containerWidth == None
    {
      numPages := None;
      containerWidth := None;
    }

    /** `onResize`: take the first entry's width, if there is an entry. */
    method OnResize(entries: seq<ResizeEntry>)
      modifies this
      ensures numPages == old(numPages)
      ensures containerWidth ==
        if entries == [] then old(containerWidth) else Some(entries[0].contentWidth)
    {
      if entries != [] {
        var entry := entries[0];
        containerWidth := Some(entry.contentWidth);
      }
    }

    /** `onDocumentLoadSuccess`: record the loaded document's page count. */
    method OnDocumentLoadSuccess(doc: PdfDocument)
      modifies this
      ensures numPages == Some(doc.numPages)
      ensures containerWidth == old(containerWidth)
    {
      numPages := Some(doc.numPages);
    }

    /** The pages the component renders from its current state. */
    function Rendered(): (ps: seq<PageProps>)
      reads this
      ensures |ps| == PageCount(numPages)
      ensures forall i :: 0 <= i < |ps| ==> ps[i].pageNumber == i + 1
      ensures forall i :: 0 <= i < |ps| ==> ps[i].width == PageWidth(containerWidth)
    {
      Pages(numPages, containerWidth)
    }
  }
}
