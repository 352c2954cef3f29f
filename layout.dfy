/**
 * getLayoutMetricsForSize: the { linesPerPage, charsPerLine } the packer
 * gets for a page of a fixed width and height in pixels, with the padding
 * (32), title block (46) and line height (21) of the non-compact layout.
 * The factors 0.7 and 1 / 7.5 are read as the exact fractions 7/10 and 2/15.
 */
module Layout {
  import opened Packer

  const Padding: int := 32
  const TitleBlock: int := 46
  const LineHeight: int := 21

  /** Math.floor(contentHeight / lineHeight): whole text lines below the title block. */
  function BaseLines(height: int): (b: int)
    ensures LineHeight * b <= height - 2 * Padding - TitleBlock < LineHeight * b + LineHeight
  {
    (height - 2 * Padding - TitleBlock) / LineHeight
  }

  /** The name column: the page width less padding and the 140 pixels of the other columns, at least 120. */
  function NameColumnWidth(width: int): (w: int)
    ensures w >= 120 && w >= width - 2 * Padding - 140
    ensures w == 120 || w == width - 2 * Padding - 140
  {
    if width - 2 * Padding - 140 > 120 then width - 2 * Padding - 140 else 120
  }

  /**
   * getLayoutMetricsForSize. linesPerPage is 70% of the base lines, rounded
   * down and at least 8; charsPerLine is the name column over 7.5 pixels,
   * rounded down and at least 16.
   */
  function LayoutMetricsForSize(width: int, height: int): (m: Metrics)
    ensures m.linesPerPage >= 8 && m.charsPerLine >= 16
    ensures var b, l := BaseLines(height), m.linesPerPage;
            (10 * l <= 7 * b < 10 * l + 10) || (l == 8 && 7 * b < 80)
    ensures var w, c := NameColumnWidth(width), m.charsPerLine;
            (15 * c <= 2 * w < 15 * c + 15) || (c == 16 && 2 * w < 240)
  {
    var lines := BaseLines(height) * 7 / 10;
    var chars := NameColumnWidth(width) * 2 / 15;
    Metrics(if lines > 8 then lines else 8, if chars > 16 then chars else 16)
  }

  /** A taller page never gets fewer lines. */
  lemma LinesMonotone(width: int, h1: int, h2: int)
    requires h1 <= h2
    ensures LayoutMetricsForSize(width, h1).linesPerPage <= LayoutMetricsForSize(width, h2).linesPerPage
  {
    var b1, b2 := BaseLines(h1), BaseLines(h2);
    assert b1 <= b2;
    assert b1 * 7 / 10 <= b2 * 7 / 10;
  }

  /** A wider page never gets fewer characters per line. */
  lemma CharsMonotone(w1: int, w2: int, height: int)
    requires w1 <= w2
    ensures LayoutMetricsForSize(w1, height).charsPerLine <= LayoutMetricsForSize(w2, height).charsPerLine
  {
    var c1, c2 := NameColumnWidth(w1), NameColumnWidth(w2);
    assert c1 <= c2;
    assert c1 * 2 / 15 <= c2 * 2 / 15;
  }

  /** The minimums apply exactly up to 12 base lines and up to a 127-pixel name column. */
  lemma Minimums(width: int, height: int)
    ensures LayoutMetricsForSize(width, height).linesPerPage == 8 <==> height <= 382
    ensures LayoutMetricsForSize(width, height).charsPerLine == 16 <==> width <= 331
  {
  }
}
