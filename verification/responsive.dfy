/**
 * Responsive layout values: the screen-size class of a window width and the
 * content, card and font measures derived from it. Widths are exact reals.
 */
module Responsive {

  /** Declared with the others, but the classification starts at the medium breakpoint. */
  const SmallBreakpoint: real := 375.0
  const MediumBreakpoint: real := 390.0
  const LargeBreakpoint: real := 428.0
  const TabletBreakpoint: real := 768.0
  const MaxContentWidth: real := 500.0
  /** The theme's large spacing step, used as the horizontal screen padding. */
  const HorizontalPadding: real := 24.0
  /** The theme's medium spacing step, used between gallery cards. */
  const CardGap: real := 16.0
  /** The reference width the scale factor is relative to. */
  const BaseWidth: real := 390.0

  datatype ScreenClass = ScreenClass(isSmallScreen: bool, isMediumScreen: bool, isLargeScreen: bool, isTablet: bool)

  datatype Layout = Layout(
    contentWidth: real,
    contentPadding: real,
    imageSize: real,
    cardWidth: real,
    cardGap: real,
    fontScale: real)

  /** The subset of the layout available outside components. */
  datatype StaticLayout = StaticLayout(contentWidth: real, imageSize: real, cardWidth: real)

  function Min(a: real, b: real): real { if a <= b then a else b }
  function Max(a: real, b: real): real { if a >= b then a else b }

  /** Number of the four screen-class flags that hold. */
  function FlagsSet(c: ScreenClass): nat
  {
    (if c.isSmallScreen then 1 else 0) + (if c.isMediumScreen then 1 else 0)
    + (if c.isLargeScreen then 1 else 0) + (if c.isTablet then 1 else 0)
  }

  /** The screen class of a width: exactly one flag holds, and widths order the classes. */
  function Classify(width: real): (c: ScreenClass)
    ensures FlagsSet(c) == 1
    ensures c.isSmallScreen <==> width < MediumBreakpoint
    ensures c.isMediumScreen <==> MediumBreakpoint <= width < LargeBreakpoint
    ensures c.isLargeScreen <==> LargeBreakpoint <= width < TabletBreakpoint
    ensures c.isTablet <==> width >= TabletBreakpoint
  {
    ScreenClass(
      width < MediumBreakpoint,
      width >= MediumBreakpoint && width < LargeBreakpoint,
      width >= LargeBreakpoint && width < TabletBreakpoint,
      width >= TabletBreakpoint)
  }

  /** The content column: the width minus both paddings, capped. */
  function ContentWidth(width: real): (w: real)
    ensures w <= MaxContentWidth && w <= width - 2.0 * HorizontalPadding
    ensures w == MaxContentWidth || w == width - 2.0 * HorizontalPadding
  {
    Min(width - HorizontalPadding * 2.0, MaxContentWidth)
  }

  /** Two cards and the gap between them fill the content column. */
  function CardWidth(contentWidth: real): (w: real)
    ensures 2.0 * w + CardGap == contentWidth
  {
    (contentWidth - CardGap) / 2.0
  }

  /** The hook's layout measures for a window width. */
  function LayoutFor(width: real): (l: Layout)
    ensures l.contentWidth == ContentWidth(width)
    ensures l.contentPadding >= HorizontalPadding
    ensures 2.0 * l.contentPadding + l.contentWidth == width
    ensures l.imageSize == l.contentWidth
    ensures l.cardGap == CardGap && 2.0 * l.cardWidth + l.cardGap == l.contentWidth
    ensures 0.9 <= l.fontScale <= 1.1
    ensures 0.9 < width / BaseWidth < 1.1 ==> l.fontScale == width / BaseWidth
    ensures width / BaseWidth <= 0.9 ==> l.fontScale == 0.9
    ensures width / BaseWidth >= 1.1 ==> l.fontScale == 1.1
  {
    var contentWidth := ContentWidth(width);
    Layout(
      contentWidth,
      Max(HorizontalPadding, (width - contentWidth) / 2.0),
      contentWidth,
      CardWidth(contentWidth),
      CardGap,
      Max(0.9, Min(1.1, width / BaseWidth)))
  }

  /** The static variant of the layout values. */
  function GetResponsiveValues(width: real): (v: StaticLayout)
    ensures v.contentWidth <= MaxContentWidth
    ensures v.imageSize == v.contentWidth
    ensures 2.0 * v.cardWidth + CardGap == v.contentWidth
  {
    var contentWidth := Min(width - HorizontalPadding * 2.0, MaxContentWidth);
    StaticLayout(contentWidth, contentWidth, (contentWidth - CardGap) / 2.0)
  }

  /** The static values agree with the hook's for every width. */
  lemma StaticAgreesWithHook(width: real)
    ensures GetResponsiveValues(width).contentWidth == LayoutFor(width).contentWidth
    ensures GetResponsiveValues(width).imageSize == LayoutFor(width).imageSize
    ensures GetResponsiveValues(width).cardWidth == LayoutFor(width).cardWidth
  {
  }
}
