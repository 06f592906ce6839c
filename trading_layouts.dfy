/**
 * `TradingLayout` (`trading_layouts.py`): which colour an indicator or overlay
 * line gets, which reference levels an indicator pane shows, and which
 * subcharts `create_standard` builds, in what order. Charts are modelled by
 * the lines they are given; styling calls and pane heights are not modelled.
 */
module TradingLayouts {
  import opened Wrappers
  import opened Text

  // ----------------------------------------------------------------- colours

  /** `color_map` of `_get_indicator_color`, in dictionary order. */
  const IndicatorColors: seq<(string, string)> := [
    ("rsi", "rgba(156, 39, 176, 1.0)"),
    ("macd", "rgba(33, 150, 243, 1.0)"),
    ("stoch", "rgba(255, 152, 0, 1.0)"),
    ("cci", "rgba(76, 175, 80, 1.0)"),
    ("momentum", "rgba(244, 67, 54, 1.0)"),
    ("volume", "rgba(100, 130, 180, 0.6)")
  ]

  const DefaultIndicatorColor: string := "rgba(156, 39, 176, 0.9)"

  /** The colour of the first key of `table` that occurs in `lower`. */
  function FirstKeyColor(lower: string, table: seq<(string, string)>): Option<string> {
    if table == [] then None
    else if Contains(lower, table[0].0) then Some(table[0].1)
    else FirstKeyColor(lower, table[1..])
  }

  /** `_get_indicator_color`. */
  function IndicatorColor(name: string): string {
    match FirstKeyColor(Lower(name), IndicatorColors)
    case Some(color) => color
    case None => DefaultIndicatorColor
  }

  /** Key `k` is the first key of `table` occurring in `lower`. */
  predicate FirstMatchAt(lower: string, table: seq<(string, string)>, k: int) {
    0 <= k < |table| && Contains(lower, table[k].0) &&
    forall j :: 0 <= j < k ==> !Contains(lower, table[j].0)
  }

  /** The search returns the colour of the first key that matches, and nothing
      exactly when no key matches. */
  lemma {:induction false} FirstKeyColorIsFirstMatch(lower: string, table: seq<(string, string)>)
    ensures FirstKeyColor(lower, table).None? <==> forall j :: 0 <= j < |table| ==> !Contains(lower, table[j].0)
    ensures forall k :: FirstMatchAt(lower, table, k) ==> FirstKeyColor(lower, table) == Some(table[k].1)
  {
    if table != [] && !Contains(lower, table[0].0) {
      FirstKeyColorIsFirstMatch(lower, table[1..]);
      forall k | FirstMatchAt(lower, table, k) ensures FirstKeyColor(lower, table) == Some(table[k].1) {
        assert FirstMatchAt(lower, table[1..], k - 1);
      }
    }
  }

  /** The six indicator colours and the default are pairwise different. */
  lemma IndicatorColorsDistinct()
    ensures forall j, k :: 0 <= j < k < |IndicatorColors| ==> IndicatorColors[j].1 != IndicatorColors[k].1
    ensures forall k :: 0 <= k < |IndicatorColors| ==> IndicatorColors[k].1 != DefaultIndicatorColor
  {
  }

  /** An indicator gets the colour of key `k` exactly when `k` is the first key
      in its lowercased name, and the default exactly when no key is. */
  lemma IndicatorColorChoice(name: string, k: int)
    requires 0 <= k < |IndicatorColors|
    ensures IndicatorColor(name) == IndicatorColors[k].1 <==> FirstMatchAt(Lower(name), IndicatorColors, k)
    ensures IndicatorColor(name) == DefaultIndicatorColor <==>
      forall j :: 0 <= j < |IndicatorColors| ==> !Contains(Lower(name), IndicatorColors[j].0)
  {
    var lower := Lower(name);
    FirstKeyColorIsFirstMatch(lower, IndicatorColors);
    IndicatorColorsDistinct();
    if FirstKeyColor(lower, IndicatorColors).Some? {
      var m := FirstMatch(lower, IndicatorColors);
      assert IndicatorColor(name) == IndicatorColors[m].1;
    }
  }

  /** The index of the first matching key, when some key matches. */
  lemma FirstMatch(lower: string, table: seq<(string, string)>) returns (m: int)
    requires exists j :: 0 <= j < |table| && Contains(lower, table[j].0)
    ensures FirstMatchAt(lower, table, m)
  {
    m := 0;
    while !Contains(lower, table[m].0)
      invariant 0 <= m < |table|
      invariant forall j :: 0 <= j < m ==> !Contains(lower, table[j].0)
      invariant exists j :: m <= j < |table| && Contains(lower, table[j].0)
      decreases |table| - m
    {
      m := m + 1;
    }
  }

  const VwapUpperColor: string := "rgba(255, 82, 82, 0.4)"
  const VwapLowerColor: string := "rgba(76, 175, 80, 0.4)"
  const VwapColor: string := "rgba(255, 193, 7, 0.9)"

  /** `colors` of `_get_overlay_color`. */
  const OverlayPalette: seq<string> := [
    "rgba(255, 193, 7, 0.9)",
    "rgba(33, 150, 243, 0.9)",
    "rgba(76, 175, 80, 0.9)",
    "rgba(244, 67, 54, 0.9)",
    "rgba(156, 39, 176, 0.9)",
    "rgba(255, 152, 0, 0.9)"
  ]

  /** `_get_overlay_color`. With a positive divisor Python's `%` and Dafny's
      agree, so `index % 6` is taken as written. */
  function OverlayColor(name: string, index: int): (color: string)
    ensures color in OverlayPalette || color in [VwapUpperColor, VwapLowerColor, VwapColor]
  {
    var lower := Lower(name);
    if Contains(lower, "vwap") then
      if Contains(lower, "upper") then VwapUpperColor
      else if Contains(lower, "lower") then VwapLowerColor
      else VwapColor
    else OverlayPalette[index % |OverlayPalette|]
  }

  /** A name mentioning `vwap` in any case gets a fixed colour whatever its
      position, with `upper` taking precedence over `lower`. */
  lemma VwapOverlayColor(name: string, index: int)
    requires Contains(Lower(name), "vwap")
    ensures OverlayColor(name, index) == OverlayColor(name, 0)
    ensures Contains(Lower(name), "upper") ==> OverlayColor(name, index) == VwapUpperColor
    ensures !Contains(Lower(name), "upper") && Contains(Lower(name), "lower") ==> OverlayColor(name, index) == VwapLowerColor
    ensures !Contains(Lower(name), "upper") && !Contains(Lower(name), "lower") ==> OverlayColor(name, index) == VwapColor
  {
  }

  /** Other overlays cycle the palette: six consecutive positions get six
      different colours, and position `i + 6` repeats position `i`. */
  lemma PaletteOverlayColor(name: string, i: int, j: int)
    requires !Contains(Lower(name), "vwap")
    ensures OverlayColor(name, i + 6) == OverlayColor(name, i)
    ensures 0 <= i < j < i + 6 ==> OverlayColor(name, i) != OverlayColor(name, j)
  {
    assert (i + 6) % 6 == i % 6;
    if 0 <= i < j < i + 6 {
      assert i % 6 != j % 6;
    }
  }

  /** Both colour choices ignore the case of the name. */
  lemma ColorsIgnoreCase(name: string, index: int)
    ensures IndicatorColor(Lower(name)) == IndicatorColor(name)
    ensures OverlayColor(Lower(name), index) == OverlayColor(name, index)
  {
    LowerIsIdempotent(name);
  }

  // ------------------------------------------------------------------- lines

  datatype LineStyle = Solid | Dashed

  /** What a line is `set` to: an indicator's or overlay's frame, the volume
      column, or a constant level over the indicator's times. */
  datatype LineData = SeriesData(name: string) | VolumeData | LevelData(level: int)

  /** A line created with `create_line(name, color, width, style)` and `set`;
      `hiddenPriceLine` records `price_line(label_visible=False, line_visible=False)`. */
  datatype Line = Line(name: string, color: string, width: nat, style: LineStyle, data: LineData, hiddenPriceLine: bool)

  /** `(level, color, style)` of each reference line `_add_reference_lines` draws. */
  function ReferenceLevels(name: string): seq<(int, string, LineStyle)> {
    var lower := Lower(name);
    if Contains(lower, "rsi") then
      [(70, "rgba(255, 82, 82, 0.3)", Dashed), (50, "rgba(128, 128, 128, 0.2)", Dashed), (30, "rgba(76, 175, 80, 0.3)", Dashed)]
    else if Contains(lower, "stoch") then
      [(80, "rgba(255, 82, 82, 0.3)", Dashed), (20, "rgba(76, 175, 80, 0.3)", Dashed)]
    else if Contains(lower, "macd") then
      [(0, "rgba(128, 128, 128, 0.3)", Solid)]
    else []
  }

  function ReferenceLine(level: (int, string, LineStyle)): Line {
    Line("", level.1, 1, level.2, LevelData(level.0), true)
  }

  /** The reference lines of an indicator, in drawing order. */
  function ReferenceLines(name: string): seq<Line> {
    seq(|ReferenceLevels(name)|, k requires 0 <= k < |ReferenceLevels(name)| => ReferenceLine(ReferenceLevels(name)[k]))
  }

  /** Level choice by precedence rsi, stoch, macd; levels are drawn top down. */
  lemma ReferenceLevelChoice(name: string)
    ensures var levels := seq(|ReferenceLevels(name)|, k requires 0 <= k < |ReferenceLevels(name)| => ReferenceLevels(name)[k].0);
      (Contains(Lower(name), "rsi") ==> levels == [70, 50, 30]) &&
      (!Contains(Lower(name), "rsi") && Contains(Lower(name), "stoch") ==> levels == [80, 20]) &&
      (!Contains(Lower(name), "rsi") && !Contains(Lower(name), "stoch") && Contains(Lower(name), "macd") ==> levels == [0]) &&
      (!Contains(Lower(name), "rsi") && !Contains(Lower(name), "stoch") && !Contains(Lower(name), "macd") ==> levels == []) &&
      forall j, k :: 0 <= j < k < |levels| ==> levels[j] > levels[k]
  {
  }

  /** Reference levels and line colour come from the same keyword, except for a
      name holding both `macd` and `stoch`: the colour table tries `macd`
      first, the level chain `stoch`. */
  lemma LevelsFollowColorKey(name: string)
    ensures Contains(Lower(name), "rsi") ==> IndicatorColor(name) == IndicatorColors[0].1 && |ReferenceLevels(name)| == 3
    ensures !Contains(Lower(name), "rsi") && Contains(Lower(name), "macd") && !Contains(Lower(name), "stoch") ==>
      IndicatorColor(name) == IndicatorColors[1].1 && |ReferenceLevels(name)| == 1
    ensures !Contains(Lower(name), "rsi") && !Contains(Lower(name), "macd") && Contains(Lower(name), "stoch") ==>
      IndicatorColor(name) == IndicatorColors[2].1 && |ReferenceLevels(name)| == 2
    ensures !Contains(Lower(name), "rsi") && Contains(Lower(name), "macd") && Contains(Lower(name), "stoch") ==>
      IndicatorColor(name) == IndicatorColors[1].1 && |ReferenceLevels(name)| == 2
  {
    var lower := Lower(name);
    FirstKeyColorIsFirstMatch(lower, IndicatorColors);
    if Contains(lower, "rsi") {
      assert FirstMatchAt(lower, IndicatorColors, 0);
    } else if Contains(lower, "macd") {
      assert FirstMatchAt(lower, IndicatorColors, 1);
    } else if Contains(lower, "stoch") {
      assert FirstMatchAt(lower, IndicatorColors, 2);
    }
  }

  /** A chart or subchart, seen through the lines created on it. */
  class ChartPane {
    var lines: seq<Line>

    constructor ()
      ensures lines == []
    {
      lines := [];
    }

    /** `create_line(...)` followed by `set(...)`. */
    method AddLine(line: Line)
      modifies this
      ensures lines == old(lines) + [line]
    {
      lines := lines + [line];
    }
  }

  /** `_add_reference_lines`: one line per chosen level, in order. */
  method AddReferenceLines(chart: ChartPane, name: string)
    modifies chart
    ensures chart.lines == old(chart.lines) + ReferenceLines(name)
  {
    var levels := ReferenceLevels(name);
    for k := 0 to |levels|
      invariant chart.lines == old(chart.lines) + ReferenceLines(name)[..k]
    {
      chart.AddLine(ReferenceLine(levels[k]));
      assert ReferenceLines(name)[..k + 1] == ReferenceLines(name)[..k] + [ReferenceLine(levels[k])];
    }
  }

  /** The lines of the subchart `create_standard` builds for one indicator. */
  function IndicatorLines(name: string): seq<Line> {
    [Line(name, IndicatorColor(name), 2, Solid, SeriesData(name), false)] + ReferenceLines(name)
  }

  function VolumeLine(volumeColor: string): Line {
    Line("Volume", volumeColor, 1, Solid, VolumeData, false)
  }

  /** The subcharts `create_standard` builds, as the lines each one holds. */
  function StandardSubcharts(columns: seq<string>, indicators: seq<string>, volumePane: bool, volumeColor: string): (panes: seq<seq<Line>>)
    ensures |panes| == |indicators| + if volumePane && "volume" in columns then 1 else 0
  {
    (if volumePane && "volume" in columns then [[VolumeLine(volumeColor)]] else []) +
    seq(|indicators|, k requires 0 <= k < |indicators| => IndicatorLines(indicators[k]))
  }

  /** `create_standard`: a volume subchart first when asked for and present,
      then one subchart per indicator in dictionary order. */
  method CreateStandard(columns: seq<string>, indicators: seq<string>, volumePane: bool, volumeColor: string)
    returns (chart: ChartPane, subcharts: seq<ChartPane>)
    ensures fresh(chart) && chart.lines == []
    ensures forall k :: 0 <= k < |subcharts| ==> fresh(subcharts[k]) && subcharts[k] != chart
    ensures forall j, k :: 0 <= j < k < |subcharts| ==> subcharts[j] != subcharts[k]
    ensures |subcharts| == |StandardSubcharts(columns, indicators, volumePane, volumeColor)|
    ensures forall k :: 0 <= k < |subcharts| ==>
      subcharts[k].lines == StandardSubcharts(columns, indicators, volumePane, volumeColor)[k]
  {
    chart := new ChartPane();
    var volume: seq<ChartPane> := [];
    if volumePane && "volume" in columns {
      var pane := new ChartPane();
      pane.AddLine(VolumeLine(volumeColor));
      volume := [pane];
    }
    var panes := IndicatorSubcharts(indicators);
    subcharts := volume + panes;
    forall k | 0 <= k < |subcharts|
      ensures subcharts[k].lines == StandardSubcharts(columns, indicators, volumePane, volumeColor)[k]
    {
      StandardSubchartAt(columns, indicators, volumePane, volumeColor, k);
      if k >= |volume| {
        assert subcharts[k] == panes[k - |volume|];
      }
    }
  }

  /** Subchart `k` of the standard layout: the volume pane first when there is one, then the indicators. */
  lemma StandardSubchartAt(columns: seq<string>, indicators: seq<string>, volumePane: bool, volumeColor: string, k: int)
    requires 0 <= k < |StandardSubcharts(columns, indicators, volumePane, volumeColor)|
    ensures var v := if volumePane && "volume" in columns then 1 else 0;
      StandardSubcharts(columns, indicators, volumePane, volumeColor)[k] ==
        if k < v then [VolumeLine(volumeColor)] else IndicatorLines(indicators[k - v])
  {
  }

  /** The indicator subcharts of `create_standard`, one per indicator in order. */
  method IndicatorSubcharts(indicators: seq<string>) returns (panes: seq<ChartPane>)
    ensures |panes| == |indicators|
    ensures forall k :: 0 <= k < |panes| ==> fresh(panes[k]) && panes[k].lines == IndicatorLines(indicators[k])
    ensures forall j, k :: 0 <= j < k < |panes| ==> panes[j] != panes[k]
  {
    panes := [];
    for k := 0 to |indicators|
      invariant |panes| == k
      invariant forall i :: 0 <= i < k ==> fresh(panes[i]) && panes[i].lines == IndicatorLines(indicators[i])
      invariant forall i, j :: 0 <= i < j < k ==> panes[i] != panes[j]
    {
      var subchart := NewIndicatorSubchart(indicators[k]);
      panes := panes + [subchart];
    }
  }

  /** The subchart of one indicator: its line, then its reference lines. */
  method NewIndicatorSubchart(name: string) returns (subchart: ChartPane)
    ensures fresh(subchart) && subchart.lines == IndicatorLines(name)
  {
    subchart := new ChartPane();
    subchart.AddLine(Line(name, IndicatorColor(name), 2, Solid, SeriesData(name), false));
    AddReferenceLines(subchart, name);
  }

  /** The lines `create_with_overlays` adds to the main chart. */
  function OverlayLines(overlays: seq<string>): seq<Line> {
    seq(|overlays|, i requires 0 <= i < |overlays| => Line(overlays[i], OverlayColor(overlays[i], i), 2, Solid, SeriesData(overlays[i]), false))
  }

  /** `create_with_overlays`: the standard layout, then the i-th overlay on the
      main chart in the colour `_get_overlay_color(name, i)`. */
  method CreateWithOverlays(columns: seq<string>, overlays: seq<string>, indicators: seq<string>, volumePane: bool, volumeColor: string)
    returns (chart: ChartPane, subcharts: seq<ChartPane>)
    ensures fresh(chart) && chart.lines == OverlayLines(overlays)
    ensures forall k :: 0 <= k < |subcharts| ==> fresh(subcharts[k]) && subcharts[k] != chart
    ensures |subcharts| == |StandardSubcharts(columns, indicators, volumePane, volumeColor)|
    ensures forall k :: 0 <= k < |subcharts| ==>
      subcharts[k].lines == StandardSubcharts(columns, indicators, volumePane, volumeColor)[k]
  {
    chart, subcharts := CreateStandard(columns, indicators, volumePane, volumeColor);
    for i := 0 to |overlays|
      invariant chart.lines == OverlayLines(overlays)[..i]
      invariant forall k :: 0 <= k < |subcharts| ==>
        subcharts[k].lines == StandardSubcharts(columns, indicators, volumePane, volumeColor)[k]
    {
      var name := overlays[i];
      chart.AddLine(Line(name, OverlayColor(name, i), 2, Solid, SeriesData(name), false));
    }
  }
}
