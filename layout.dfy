/**
 The enumerated layout rules shared by the charts: the dash-separated
 keyword settings ("right-top", "start-bottom") and how they pick the legend
 corner and the caption rows, the marks a remark adds, which remarks the
 daily chart shows for a highlighted year, and how year lines are styled and
 re-stacked when the highlighted year changes. D3 scales are abstracted as a
 function from a key to a pixel offset.
 */
module Layout {
  import opened Wrappers
  import opened Seqs

  /** String.prototype.split with a one-character separator: never empty, no piece holds the separator. */
  function Split(s: string, sep: char): (parts: seq<string>)
    ensures |parts| >= 1
    ensures forall i :: 0 <= i < |parts| ==> sep !in parts[i]
    decreases |s|
  {
    if s == [] then [[]]
    else
      var rest := Split(s[1..], sep);
      if s[0] == sep then [[]] + rest
      else [[s[0]] + rest[0]] + rest[1..]
  }

  /** Array.prototype.join, the inverse of Split. */
  function Join(parts: seq<string>, sep: char): string
    requires |parts| >= 1
    decreases |parts|
  {
    if |parts| == 1 then parts[0] else parts[0] + [sep] + Join(parts[1..], sep)
  }

  /** Splitting and joining again gives back the original string. */
  lemma {:induction false} SplitThenJoin(s: string, sep: char)
    ensures Join(Split(s, sep), sep) == s
    decreases |s|
  {
    if s != [] {
      var rest := Split(s[1..], sep);
      SplitThenJoin(s[1..], sep);
      if s[0] == sep {
        assert ([[]] + rest)[1..] == rest;
      } else {
        var parts := [[s[0]] + rest[0]] + rest[1..];
        assert parts[1..] == rest[1..];
        if |rest| > 1 {
          assert Join(rest, sep) == rest[0] + [sep] + Join(rest[1..], sep);
        }
        assert Join(parts, sep) == [s[0]] + Join(rest, sep);
      }
    }
  }

  /** A separator-free prefix glues onto the first piece of whatever follows it. */
  lemma {:induction false} SplitAfterPlainPrefix(p: string, t: string, sep: char)
    requires sep !in p
    ensures Split(p + t, sep) == [p + Split(t, sep)[0]] + Split(t, sep)[1..]
    decreases |p|
  {
    var st := Split(t, sep);
    if p == [] {
      assert p + t == t;
      assert st == [st[0]] + st[1..];
      assert p + st[0] == st[0];
    } else {
      SplitAfterPlainPrefix(p[1..], t, sep);
      assert (p + t)[1..] == p[1..] + t;
      assert [p[0]] + (p[1..] + Split(t, sep)[0]) == p + Split(t, sep)[0];
    }
  }

  /** Joining separator-free pieces and splitting again gives back the pieces. */
  lemma {:induction false} JoinThenSplit(parts: seq<string>, sep: char)
    requires |parts| >= 1
    requires forall i :: 0 <= i < |parts| ==> sep !in parts[i]
    ensures Split(Join(parts, sep), sep) == parts
    decreases |parts|
  {
    if |parts| == 1 {
      SplitAfterPlainPrefix(parts[0], [], sep);
      assert parts[0] + [] == parts[0];
    } else {
      var rest := parts[1..];
      JoinThenSplit(rest, sep);
      var t := [sep] + Join(rest, sep);
      assert t[1..] == Join(rest, sep);
      assert Split(t, sep) == [[]] + rest;
      assert parts[0] + [sep] + Join(rest, sep) == parts[0] + t;
      SplitAfterPlainPrefix(parts[0], t, sep);
      assert parts[0] + [] == parts[0];
    }
  }

  /** `s.split("-")[i]`, or None where JavaScript gives undefined. */
  function Field(s: string, i: nat): (r: Option<string>)
    ensures r.Some? <==> i < |Split(s, '-')|
    ensures r.Some? ==> '-' !in r.value
  {
    var parts := Split(s, '-');
    if i < |parts| then Some(parts[i]) else None
  }

  /** The three charts that draw a legend. */
  datatype ChartKind = ByMonths | ByDays | Predicted

  /**
   Height of the plot area: 300 px less the top margin (20) and the bottom
   margin (30, or 0 in the predictive chart).
   */
  function PlotHeight(chart: ChartKind): int
  {
    if chart == Predicted then 280 else 250
  }

  /** How far from the right edge the "right" legend starts. */
  function RightInset(chart: ChartKind): int
  {
    if chart == ByDays then 210 else 200
  }

  /** The legend frame is 210 px wide and 52 px high. */
  const LegendWidth: int := 210
  const LegendHeight: int := 52

  /** Horizontal keyword (the part before the first dash) to the legend's left edge. */
  function LegendX(chart: ChartKind, position: string, width: int): (x: real)
    ensures x == 20.0 || x == width as real / 2.0 || x == (width - RightInset(chart)) as real
  {
    var h := Split(position, '-')[0];
    if h == "left" then 20.0
    else if h == "center" then width as real / 2.0
    else if h == "right" then (width - RightInset(chart)) as real
    else 20.0
  }

  /** Vertical keyword (the part after the first dash) to the legend's top edge. */
  function LegendY(chart: ChartKind, position: string): (y: real)
    ensures y == 0.0 || y == PlotHeight(chart) as real / 2.0 || y == 180.0
  {
    var v := Field(position, 1);
    if v == Some("top") then 0.0
    else if v == Some("center") then PlotHeight(chart) as real / 2.0
    else if v == Some("bottom") then 180.0
    else 180.0
  }

  /**
   A position written as "<horizontal>-<vertical>" is read keyword by
   keyword: the horizontal one alone decides x, the vertical one alone
   decides y, and an unknown keyword falls back to the left or the bottom.
   */
  lemma LegendFromKeywords(chart: ChartKind, h: string, v: string, width: int)
    requires '-' !in h && '-' !in v
    ensures LegendX(chart, h + "-" + v, width) ==
      if h == "center" then width as real / 2.0
      else if h == "right" then (width - RightInset(chart)) as real
      else 20.0
    ensures LegendY(chart, h + "-" + v) ==
      if v == "top" then 0.0
      else if v == "center" then PlotHeight(chart) as real / 2.0
      else 180.0
  {
    JoinThenSplit([h, v], '-');
    assert Join([h, v], '-') == h + "-" + v;
  }

  /** A position without a dash has no vertical keyword, so the legend goes to the bottom row. */
  lemma LegendWithoutDash(chart: ChartKind, position: string)
    requires '-' !in position
    ensures LegendY(chart, position) == 180.0
  {
    JoinThenSplit([position], '-');
  }

  /**
   In the daily chart the legend frame stays inside the plot area for every
   position string once the plot is at least two frames wide; the "right"
   position puts it flush with the right edge.
   */
  lemma DailyLegendInsidePlot(position: string, width: int)
    requires width >= 2 * LegendWidth
    ensures var x, y := LegendX(ByDays, position, width), LegendY(ByDays, position);
      && 0.0 <= x && x + LegendWidth as real <= width as real
      && 0.0 <= y && y + LegendHeight as real <= PlotHeight(ByDays) as real
      && (Split(position, '-')[0] == "right" ==> x + LegendWidth as real == width as real)
  {
  }

  /**
   In the monthly and predictive charts the "right" legend starts 200 px
   from the edge, so its 210 px frame runs 10 px into the 50 px right
   margin; every other position stays inside the plot.
   */
  lemma LegendOverhangsRightEdge(chart: ChartKind, position: string, width: int)
    requires chart != ByDays
    requires width >= 2 * LegendWidth
    ensures var x, y := LegendX(chart, position, width), LegendY(chart, position);
      && 0.0 <= x && x + LegendWidth as real <= width as real + 10.0
      && (Split(position, '-')[0] == "right" <==> x + LegendWidth as real == width as real + 10.0)
      && 0.0 <= y && y + LegendHeight as real <= PlotHeight(chart) as real
  {
  }

  /** The first caption row: 210 when the vertical keyword of text-position is "bottom", else 10. */
  function CaptionTop(textPosition: string): (top: int)
    ensures top == 210 || top == 10
    ensures top == 210 <==> Field(textPosition, 1) == Some("bottom")
  {
    if Field(textPosition, 1) == Some("bottom") then 210 else 10
  }

  /**
   A text-position written as two keywords: the captions start on row 210
   when the second keyword is "bottom" and on row 10 otherwise, anchored by
   the first keyword.
   */
  lemma CaptionFromKeywords(h: string, v: string)
    requires '-' !in h && '-' !in v
    ensures CaptionTop(h + "-" + v) == if v == "bottom" then 210 else 10
    ensures CaptionAnchor(h + "-" + v) == h
  {
    JoinThenSplit([h, v], '-');
    assert Join([h, v], '-') == h + "-" + v;
  }

  /** The text-anchor of both captions: the horizontal keyword of text-position. */
  function CaptionAnchor(textPosition: string): (anchor: string)
    ensures '-' !in anchor
    ensures Field(textPosition, 0) == Some(anchor)
  {
    Split(textPosition, '-')[0]
  }

  /** A remark from the settings: an "area" between two dates or a "line" at one date. */
  datatype Remark = Remark(
    kind: string,
    date: int,
    dateFrom: int,
    dateTo: int,
    textPosition: string,
    upper: string,
    lower: string,
    years: seq<int>)

  /** The settings object a chart may be given: where the legend goes and which remarks to draw. */
  datatype Settings = Settings(legendPosition: string, remarks: seq<Remark>)

  /** An element a remark adds: a shaded band, a vertical rule, or a caption. */
  datatype Mark =
    | Band(x: real, y: real, width: real, height: real)
    | Rule(x: real, y1: real, y2: real)
    | Caption(x: real, y: real, size: int, anchor: string, text: string)

  /**
   Where the marks are drawn. ChartGroup: in a frame whose origin the
   element's container has already moved 40 px right: the monthly chart's
   group, translated by its margins (40, 20), or, for the predictive chart,
   the bare svg under the (40, 0) translate each of its settings remarks
   carries. DailyChange: on the bare svg of the daily chart's change view,
   which adds the 40 px left margin and the 20 px top margin itself.
   */
  datatype View = ChartGroup | DailyChange

  /** The midpoint between the pixel positions of an area's two dates. */
  function Midpoint(xFrom: real, xTo: real): (mid: real)
    ensures mid - xFrom == xTo - mid
    ensures xFrom <= xTo ==> xFrom <= mid <= xTo
  {
    xFrom + (xTo - xFrom) / 2.0
  }

  /** The marks one remark adds, through the date scale `x`, in a plot `height` high. */
  function RemarkMarks(view: View, r: Remark, x: int -> real, height: real): (marks: seq<Mark>)
    ensures |marks| == if Drawable(r) then 3 else 0
    ensures Drawable(r) ==>
      && marks[1].Caption? && marks[1].text == r.upper && marks[1].size == 12
      && marks[2].Caption? && marks[2].text == r.lower && marks[2].size == 10
      && marks[1].anchor == marks[2].anchor == CaptionAnchor(r.textPosition)
  {
    var top := CaptionTop(r.textPosition) as real;
    var anchor := CaptionAnchor(r.textPosition);
    if r.kind == "area" then
      var mid := Midpoint(x(r.dateFrom), x(r.dateTo));
      var bandWidth := x(r.dateTo) - x(r.dateFrom);
      if view == ChartGroup then
        [Band(x(r.dateFrom), 0.0, bandWidth, height),
         Caption(mid, top, 12, anchor, r.upper),
         Caption(mid, top + 15.0, 10, anchor, r.lower)]
      else
        [Band(x(r.dateFrom) + 40.0, 20.0, bandWidth, height),
         Caption(mid + 40.0, top + 30.0, 12, anchor, r.upper),
         Caption(mid + 40.0, top + 45.0, 10, anchor, r.lower)]
    else if r.kind == "line" then
      if view == ChartGroup then
        [Rule(x(r.date), 0.0, height),
         Caption(x(r.date) + 5.0, top, 12, anchor, r.upper),
         Caption(x(r.date) + 5.0, top + 15.0, 10, anchor, r.lower)]
      else
        [Rule(x(r.date) + 40.0, 20.0, height + 20.0),
         Caption(x(r.date) + 50.0, top + 20.0, 12, anchor, r.upper),
         Caption(x(r.date) + 50.0, top + 35.0, 10, anchor, r.lower)]
    else []
  }

  /** A remark of kind "area" or "line"; any other kind draws nothing. */
  predicate Drawable(r: Remark)
  {
    r.kind == "area" || r.kind == "line"
  }

  /**
   What every remark draws: nothing unless its kind is known; otherwise a
   band or rule followed by the upper caption (12 px type) and, 15 px
   lower, the lower caption (10 px type), both anchored by the horizontal
   keyword of text-position and placed on the row that its vertical keyword
   picks. An area's captions sit over the middle of its band and a line's
   captions 5 px right of it (10 px in the daily change view).
   */
  lemma RemarkMarksShape(view: View, r: Remark, x: int -> real, height: real)
    ensures var m := RemarkMarks(view, r, x, height);
      && (!Drawable(r) <==> m == [])
      && (Drawable(r) ==>
            && |m| == 3
            && m[1].Caption? && m[2].Caption?
            && m[1].text == r.upper && m[2].text == r.lower
            && m[1].size == 12 && m[2].size == 10
            && m[2].y == m[1].y + 15.0
            && m[1].x == m[2].x
            && Field(r.textPosition, 0) == Some(m[1].anchor) && m[1].anchor == m[2].anchor
            && (m[1].y >= 210.0 <==> Field(r.textPosition, 1) == Some("bottom")))
      && (r.kind == "area" ==> m[0].Band? && m[1].x == m[0].x + m[0].width / 2.0)
      && (r.kind == "line" ==> m[0].Rule? && m[1].x == m[0].x + (if view == ChartGroup then 5.0 else 10.0))
  {
  }

  /** With an order-preserving scale an area's band has non-negative width and its captions stay over it. */
  lemma AreaCaptionOverBand(view: View, r: Remark, x: int -> real, height: real)
    requires r.kind == "area" && r.dateFrom <= r.dateTo
    requires x(r.dateFrom) <= x(r.dateTo)
    ensures var m := RemarkMarks(view, r, x, height);
      && m[0].width >= 0.0
      && m[0].x <= m[1].x <= m[0].x + m[0].width
  {
  }

  /** Moves a mark by (dx, dy). */
  function Shift(m: Mark, dx: real, dy: real): (s: Mark)
    ensures s.Band? == m.Band? && s.Rule? == m.Rule? && s.Caption? == m.Caption?
  {
    match m
    case Band(x, y, w, h) => Band(x + dx, y + dy, w, h)
    case Rule(x, y1, y2) => Rule(x + dx, y1 + dy, y2 + dy)
    case Caption(x, y, size, anchor, text) => Caption(x + dx, y + dy, size, anchor, text)
  }

  /**
   The daily change view redraws a remark as the chart group would, moved
   by the margins (40, 20), except for the captions: a line's captions are
   moved by (45, 20), 5 px further right, and an area's by (40, 30), 10 px
   lower than the translation would put them.
   */
  lemma DailyChangeIsShiftedChartGroup(r: Remark, x: int -> real, height: real)
    requires Drawable(r)
    ensures var g, d := RemarkMarks(ChartGroup, r, x, height), RemarkMarks(DailyChange, r, x, height);
      && d[0] == Shift(g[0], 40.0, 20.0)
      && (r.kind == "line" ==> d[1] == Shift(g[1], 45.0, 20.0) && d[2] == Shift(g[2], 45.0, 20.0))
      && (r.kind == "area" ==> d[1] == Shift(g[1], 40.0, 30.0) && d[2] == Shift(g[2], 40.0, 30.0))
  {
    if r.kind == "line" {
      assert r.kind != "area" by { assert r.kind[0] == 'l'; }
    }
  }

  /** The marks of all remarks, in settings order (settings.remarks.forEach). */
  function AllRemarkMarks(view: View, remarks: seq<Remark>, x: int -> real, height: real): seq<Mark>
  {
    if remarks == [] then []
    else
      AllRemarkMarks(view, remarks[..|remarks| - 1], x, height)
      + RemarkMarks(view, remarks[|remarks| - 1], x, height)
  }

  /** Three marks per remark of a known kind and none for the others. */
  lemma {:induction false} AllRemarkMarksCount(view: View, remarks: seq<Remark>, x: int -> real, height: real)
    ensures |AllRemarkMarks(view, remarks, x, height)| == 3 * |Filter(remarks, Drawable)|
  {
    if remarks != [] {
      AllRemarkMarksCount(view, remarks[..|remarks| - 1], x, height);
      RemarkMarksShape(view, remarks[|remarks| - 1], x, height);
    }
  }

  /** The predicate "lists the highlighted year" (`remark.years.includes(highlighted)`). */
  function ListsYear(highlighted: int): Remark -> bool
  {
    (r: Remark) => highlighted in r.years
  }

  /** The remarks the daily change view draws for the highlighted year. */
  function VisibleRemarks(remarks: seq<Remark>, highlighted: int): seq<Remark>
  {
    Filter(remarks, ListsYear(highlighted))
  }

  /**
   A remark is drawn exactly when it lists the highlighted year, as often
   as it occurs in the settings, and the drawn ones keep settings order.
   */
  lemma VisibleRemarksSpec(remarks: seq<Remark>, highlighted: int)
    ensures forall r :: r in VisibleRemarks(remarks, highlighted) <==> r in remarks && highlighted in r.years
    ensures forall r ::
      multiset(VisibleRemarks(remarks, highlighted))[r] == (if highlighted in r.years then multiset(remarks)[r] else 0)
    ensures forall a, b :: VisibleRemarks(a + b, highlighted) == VisibleRemarks(a, highlighted) + VisibleRemarks(b, highlighted)
  {
    FilterCounts(remarks, ListsYear(highlighted));
    forall a, b {
      FilterConcat(a, b, ListsYear(highlighted));
    }
  }

  /** The highlighted year's line when every remark lists it: then all remarks are drawn. */
  lemma AllRemarksShownForListedYear(remarks: seq<Remark>, highlighted: int)
    requires forall i :: 0 <= i < |remarks| ==> highlighted in remarks[i].years
    ensures VisibleRemarks(remarks, highlighted) == remarks
  {
    FilterKeepsAll(remarks, ListsYear(highlighted));
  }

  /** How a year line is drawn: its stroke colour, stroke width and whether it is blurred. */
  datatype LineStyle = LineStyle(stroke: string, strokeWidth: int, blurred: bool)

  const Crimson: string := "#DC143C"
  const Grey: string := "#B3B3B3"

  /** The style a year line gets when the daily chart is loaded (color(), the width and filter callbacks). */
  function LoadStyle(year: int, highlighted: int): (s: LineStyle)
    ensures year == highlighted ==> s == LineStyle(Crimson, 2, false)
    ensures year != highlighted ==> s == LineStyle(Grey, 1, true)
  {
    LineStyle(
      if year == highlighted then Crimson else Grey,
      if year != highlighted then 1 else 2,
      year != highlighted)
  }

  /** The style a year line gets when the highlighted year is changed. */
  function ChangeStyle(year: int, highlighted: int): (s: LineStyle)
    ensures year == highlighted ==> s == LineStyle(Crimson, 2, false)
    ensures year != highlighted ==> s == LineStyle(Grey, 1, true)
  {
    LineStyle(
      if year == highlighted then Crimson else Grey,
      if year == highlighted then 2 else 1,
      if year == highlighted then false else true)
  }

  /**
   Loading and changing agree: a line's style depends only on whether its
   year is the highlighted one, which is crimson, 2 px and sharp, while every
   other year is grey, 1 px and blurred.
   */
  lemma HighlightStyles(year: int, highlighted: int)
    ensures LoadStyle(year, highlighted) == ChangeStyle(year, highlighted)
    ensures var s := ChangeStyle(year, highlighted);
      && (year == highlighted <==> s.stroke == Crimson)
      && (year == highlighted <==> s.strokeWidth == 2)
      && (year == highlighted <==> !s.blurred)
      && (year != highlighted <==> s == LineStyle(Grey, 1, true))
  {
  }

  function IsYear(highlighted: int): int -> bool
  {
    (y: int) => y == highlighted
  }

  function IsOtherYear(highlighted: int): int -> bool
  {
    (y: int) => y != highlighted
  }

  /**
   selection.filter(year == highlighted).raise(): each selected line is
   moved, in order, after all the others, so it is drawn on top.
   */
  function Raise(lines: seq<int>, highlighted: int): (raised: seq<int>)
    ensures forall y :: y in raised <==> y in lines
  {
    Filter(lines, IsOtherYear(highlighted)) + Filter(lines, IsYear(highlighted))
  }

  /** Raising only reorders the lines: each year occurs as often as before. */
  lemma RaisePermutes(lines: seq<int>, highlighted: int)
    ensures multiset(Raise(lines, highlighted)) == multiset(lines)
  {
    FilterCounts(lines, IsOtherYear(highlighted));
    FilterCounts(lines, IsYear(highlighted));
    var r := Raise(lines, highlighted);
    forall y
      ensures multiset(r)[y] == multiset(lines)[y]
    {
      assert multiset(r)[y] == multiset(Filter(lines, IsOtherYear(highlighted)))[y]
        + multiset(Filter(lines, IsYear(highlighted)))[y];
    }
  }

  /** After raising, the highlighted year's line is the last one (drawn on top) whenever it is present. */
  lemma RaisePutsHighlightedOnTop(lines: seq<int>, highlighted: int)
    ensures highlighted in lines ==> Raise(lines, highlighted)[|Raise(lines, highlighted)| - 1] == highlighted
  {
    var chosen := Filter(lines, IsYear(highlighted));
    if highlighted in lines {
      assert highlighted in chosen;
      FilterPassesAll(lines, IsYear(highlighted));
      assert IsYear(highlighted)(chosen[|chosen| - 1]);
    }
  }

  /** Raising keeps the other years' lines in their relative order. */
  lemma RaiseKeepsOtherOrder(lines: seq<int>, highlighted: int)
    ensures Filter(Raise(lines, highlighted), IsOtherYear(highlighted)) == Filter(lines, IsOtherYear(highlighted))
  {
    var others, chosen := Filter(lines, IsOtherYear(highlighted)), Filter(lines, IsYear(highlighted));
    FilterConcat(others, chosen, IsOtherYear(highlighted));
    FilterPassesAll(lines, IsOtherYear(highlighted));
    FilterKeepsAll(others, IsOtherYear(highlighted));
    FilterPassesAll(lines, IsYear(highlighted));
    assert forall i :: 0 <= i < |chosen| ==> !IsOtherYear(highlighted)(chosen[i]);
    FilterDropsAll(chosen, IsOtherYear(highlighted));
  }

  /** Raising keeps the highlighted year's lines in their relative order. */
  lemma RaiseKeepsHighlightedOrder(lines: seq<int>, highlighted: int)
    ensures Filter(Raise(lines, highlighted), IsYear(highlighted)) == Filter(lines, IsYear(highlighted))
  {
    var others, chosen := Filter(lines, IsOtherYear(highlighted)), Filter(lines, IsYear(highlighted));
    FilterConcat(others, chosen, IsYear(highlighted));
    FilterPassesAll(lines, IsYear(highlighted));
    FilterKeepsAll(chosen, IsYear(highlighted));
    FilterPassesAll(lines, IsOtherYear(highlighted));
    assert forall i :: 0 <= i < |others| ==> !IsYear(highlighted)(others[i]);
    FilterDropsAll(others, IsYear(highlighted));
  }

  /** Raising twice for the same year is the same as raising once. */
  lemma RaiseIdempotent(lines: seq<int>, highlighted: int)
    ensures Raise(Raise(lines, highlighted), highlighted) == Raise(lines, highlighted)
  {
    RaiseKeepsOtherOrder(lines, highlighted);
    RaiseKeepsHighlightedOrder(lines, highlighted);
  }
}
