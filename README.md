# lightweight-charts-python, core model in Dafny

This project models the core of `lightweight_charts`, a Python wrapper that
draws TradingView Lightweight Charts in a webview window. It proves
properties of that model. The modelled parts are:

- **The bridge between the controller and the renderer process** (`chart.py`).
  - `WebviewHandler` hands out window handles, queues commands to the
    renderer, starts the renderer process and tears it down.
  - `PyWV.loop` is the renderer's command loop. It creates windows, shows
    and hides them, evaluates scripts, and returns marked results.
  - `PyWV._parse_js_error` turns a script failure into
    `name[line:column]` and a message.
  - The dispatch loop of `Chart.show_async` drains the emit queue until the
    `'exit'` sentinel arrives or an event handler calls `Chart.exit()`.
- **`PaneManager`** (`panes.py`): the pane indices of a chart and the series
  tracked in each pane.
- **`GridLayoutManager`** (`grid_manager.py`): a grid of cells with exact
  fractional geometry, and the chart assigned to each cell.
- **`OHLCValidator`** (`validators.py`): the column check, the OHLC rules
  and their repairs, the missing-value check with `ffill().bfill()`, and
  the final sort by time.
- **`TradingLayout`** (`trading_layouts.py`):
  - indicator and overlay colours;
  - reference levels;
  - the subcharts and lines `create_standard` and `create_with_overlays`
    build.

### Modelling conventions

- There is one Dafny module per component:
  - `Renderer`, `Supervisor`, `EventPump` and `JsError` model `chart.py`;
  - `Panes`, `Grid`, `Validators` and `TradingLayouts` model the other
    four files;
  - `Wrappers` and `Text` are shared helpers.
- Code that updates objects in place is a `class` whose methods carry
  `modifies` clauses. These are `PyWV`, `WebviewHandler`, `Chart`,
  `PaneManager`, `GridLayoutManager`, `GridCell` and the chart panes of a
  layout.
- Each such method is proved equal to a pure specification function:
  - `Run` for the renderer loop;
  - `Pump` for the event pump;
  - `OhlcRules` for the OHLC passes;
  - `CheckedColumns` for the column check;
  - `Validated` for `validate`;
  - `StandardSubcharts` and `OverlayLines` for the layouts.
  
  The lemmas are stated about those functions.
- Exceptions the source raises become `Result` or `Option` values. Calls
  into code outside the core are parameters:
  - the webview's `evaluate_js`;
  - `json.loads`;
  - the screen list;
  - the type conversion of `_validate_types`;
  - whether the renderer process exits when asked;
  - when the user closes the windows of a running UI (`Renderer.Env.uiCloses`);
  - which event handlers call `Chart.exit()`.

### Source behaviour worth noting

- **An out-of-range window index.** The loop indexes `self.windows[i]`
  outside any `try` (`chart.py:101`), so an invalid handle raises
  `IndexError` and ends the loop. It is not ignored. The model's `Step`
  returns `Raised(IndexError)`.
- **Handle reuse.** `_reset` sets the handle counter back to -1
  (`chart.py:164`), so handles restart at 0 after `exit()`. They are not
  unique over the handler's lifetime. `Supervisor.HandlesRestartAfterExit`
  shows this.
- **The fallback regexes.** They look only for single-quoted keys and values
  (`chart.py:133-140`). Double-quoted JSON-like text that `json.loads`
  rejects therefore falls back to the defaults for every field.
  `JsError.NoQuoteKeepsDefaults` shows this.
- **`webview.start` blocks until the windows close.** It runs `self.loop`
  on a thread of its own (`chart.py:91`). A `'stop'`, a `KeyError` or an
  exception in that thread ends the thread only. The loop itself puts
  `'exit'` on the emit queue only after the user closes the windows
  (`chart.py:92-94`).
  `Renderer.StartBehaviour` and `Renderer.ExitOncePerRunLoop` state this.

## Model

| member | source | states |
|---|---|---|
| Text.Lower | lightweight_charts/validators.py:61 | lowercasing keeps the length and lowers each character (ASCII) |
| Text.LowerIsIdempotent | lightweight_charts/trading_layouts.py:303 | lowercasing twice is lowercasing once |
| Text.NatToString | lightweight_charts/chart.py:118 | the decimal text of a number is non-empty and all digits |
| Text.DigitsOfNatToString | lightweight_charts/chart.py:134-141 | `int()` of the digits captured by `\d+` reads back the number written |
| JsError.RunEnd | lightweight_charts/chart.py:133-140 | a regex run `\s*`, `\d+` or `[^']+` ends at the first character that breaks it, and every character before that satisfies the class |
| JsError.ParseJsError | lightweight_charts/chart.py:122-143 | JSON decoding takes the fields of the decoded object; text that is not JSON falls back to the regex search with non-negative line and column; other JSON yields no info, because reading its fields raises (`KeyError` or `TypeError`) |
| JsError.ScriptErrorMessage | lightweight_charts/chart.py:114-120 | the re-raised message holds the script at offset 13, `name[line:column]` after it, and ends with the message |
| JsError.SearchIsLeftmost | lightweight_charts/chart.py:133-140 | `re.search` fails iff no position matches; otherwise it returns the capture at the leftmost matching position |
| JsError.AbsentKeysDefault | lightweight_charts/chart.py:128-143 | a key absent from the text leaves its field at `'Unknown'`, 0, 0 or the whole text |
| JsError.NoQuoteKeepsDefaults | lightweight_charts/chart.py:128-143 | text without a single quote gives exactly `('Unknown', 0, 0, text)` |
| JsError.SearchSkipsMisses | lightweight_charts/chart.py:133-140 | `re.search` passes over every start index where the pattern fails: searching from before them finds what searching from after them finds |
| JsError.TextFieldRoundTrip | lightweight_charts/chart.py:133-139 | a field written `'name': 'v'` is read back as `v`, whatever text follows it and whatever text precedes it in which the key does not start |
| JsError.NumberFieldRoundTrip | lightweight_charts/chart.py:134-141 | a number written `'line': n` and not followed by a digit is read back as `n`, whatever text precedes it in which the key does not start |
| JsError.RunEndStopsAt | lightweight_charts/chart.py:133-140 | a run holding on `[i, j)` and broken at `j` ends exactly at `j` |
| Renderer.PyIndex | lightweight_charts/chart.py:101 | Python list indexing succeeds iff `-n <= i < n`, and negative indices count from the end |
| Renderer.NewWindow | lightweight_charts/chart.py:37-68 | title, position and on-top are kept, and the size is kept unless maximized; it fails with `IndexError` iff the screen index is out of range, or it maximizes with no screen given and none available |
| Renderer.ScriptOf | lightweight_charts/chart.py:108-111 | a marked script loses its first 14 characters; any other script is evaluated as given |
| Renderer.Step | lightweight_charts/chart.py:82-120 | one command other than `'start'` leaves the queue and the emit queue alone, adds exactly the window it builds, and adds at most one native call (never the run-loop) and at most one return value |
| Renderer.StepBehaviour | lightweight_charts/chart.py:82-120 | a `'create_window'` whose screen resolves continues with its window appended, otherwise raises the screen's `IndexError`; `'stop'` clears `is_alive`; a bad index raises `IndexError`; `'show'` and `'hide'` continue with exactly that native call; a script is evaluated once, only a marked script's value is queued, `KeyError` ends the loop quietly, and a script error is raised again as a `JavascriptException` with the parsed message, or as a field-access error when the decoded JSON lacks the fields |
| Renderer.ThreadShare | lightweight_charts/chart.py:91 | the loop's thread takes the whole rest of the queue, unless the windows close after fewer commands |
| Renderer.StartBehaviour | lightweight_charts/chart.py:86-94 | `'start'` with no window ends the loop without emitting. Otherwise the run-loop starts and the loop's thread runs on its share of the queue. While the windows stay open, the loop stays blocked and emits nothing of its own. Once they close, the loop is dead, exactly one `'exit'` follows the thread's output, and the commands the thread did not take stay queued |
| Renderer.CountCreatesAppend | lightweight_charts/chart.py:166-175 | appending a command raises the create count by one iff it is `'create_window'` |
| Renderer.ExtendsTransitive | lightweight_charts/chart.py:70-120 | extension of the output queues is transitive |
| Renderer.RunOnlyAppends | lightweight_charts/chart.py:70-120 | the loop only appends windows, returns, emits and native calls, and only consumes its queue from the front |
| Renderer.CountRunLoopsAppend | lightweight_charts/chart.py:91 | appending a native call raises the run-loop count by one iff it is `webview.start` |
| Renderer.ExitOncePerRunLoop | lightweight_charts/chart.py:91-94 | the loop itself puts nothing but `'exit'` on the emit queue, exactly one per run-loop that returned; every run-loop entered returns once the user closes the windows, and none returns while they stay open |
| Renderer.NothingAfterStop | lightweight_charts/chart.py:96-98 | no command queued after a `'stop'` is taken, and once the stop is taken the loop is no longer alive |
| Renderer.RunBuildsWindows | lightweight_charts/chart.py:82-84 | the loop's windows are the old ones plus, in order, the windows built by the commands it took, its thread's included |
| Renderer.RunFindsScreens | lightweight_charts/chart.py:37-68 | every `'create_window'` the loop took, except possibly the last command taken, found its screen, because a failing one halts the loop |
| Renderer.BuiltAt | lightweight_charts/chart.py:82-84 | the `'create_window'` at position `k` builds the window at index `CountCreates(q[..k])` when every earlier one found its screen |
| Renderer.RunCreatesEveryWindow | lightweight_charts/chart.py:82-84 | whether the loop then idles, stops, raises or runs the UI, each `'create_window'` it took whose screen resolved built its window at index = old windows + earlier creates |
| Renderer.PyWV.constructor | lightweight_charts/chart.py:27-35 | a fresh renderer is alive, with the given commands and empty windows and queues |
| Renderer.PyWV.CreateWindow | lightweight_charts/chart.py:37-68 | appends the new window, or reports `IndexError` and leaves the windows alone |
| Renderer.PyWV.Loop | lightweight_charts/chart.py:70-120 | the loop's final state and halt reason are exactly those of `Run`: in its `'start'` case the thread runs the loop on its share of the queue, and `'exit'` is emitted only once the windows close |
| Supervisor.TeardownClimbsLadder | lightweight_charts/chart.py:211-249 | teardown steps are a prefix of stop, join(2), terminate, join(1), kill; kill only when the process survives both; at most 3 s of joins |
| Supervisor.JoinTimePrefix | lightweight_charts/chart.py:219-233 | joins in the first `n` ladder steps wait 0, 0, 2, 2, 3, 3 seconds |
| Supervisor.WebviewHandler.constructor | lightweight_charts/chart.py:146-148 | a new handler is in the reset state with the handle counter at -1 |
| Supervisor.WebviewHandler.Reset | lightweight_charts/chart.py:152-164 | `_reset` gives fresh queues, a cleared loaded event, an unstarted process and counter -1 |
| Supervisor.WebviewHandler.CreateWindow | lightweight_charts/chart.py:166-175 | queues one `create_window` and returns the next handle, which equals the number of creates queued before it |
| Supervisor.WebviewHandler.Send | lightweight_charts/chart.py:202-209 | queues exactly one window-addressed command |
| Supervisor.WebviewHandler.Show | lightweight_charts/chart.py:202-203 | queues `(window, 'show')` |
| Supervisor.WebviewHandler.Hide | lightweight_charts/chart.py:205-206 | queues `(window, 'hide')` |
| Supervisor.WebviewHandler.EvaluateJs | lightweight_charts/chart.py:208-209 | queues `(window, script)` |
| Supervisor.WebviewHandler.Exit | lightweight_charts/chart.py:211-249 | climbs the teardown ladder for the process's behaviour (a process never started takes no step), cut short at a raising step, which is logged and not raised; the drain loops take the queues from the front until empty; then it resets |
| Supervisor.WebviewHandler.Start | lightweight_charts/chart.py:190-200 | a started process fails to start again; otherwise it queues `'start'`, and either is loaded or, on a timeout, exits and fails; with no window queued since the last reset it always times out, exits and fails |
| Renderer.NoCreateNoWindow | lightweight_charts/chart.py:56-68 | a queue without `'create_window'` leaves the renderer with no window, so no `loaded` event can fire |
| Supervisor.HandlesRestartAfterExit | lightweight_charts/chart.py:164-175 | handles go 0, 1, and then 0 again after `exit()` |
| Supervisor.HandleNamesRendererWindow | lightweight_charts/chart.py:166-175 | for any run of the renderer, started or not and however it ends, the handle returned for a `create_window` it took whose screen resolved indexes the very window it built for it |
| EventPump.PumpIsFifo | lightweight_charts/chart.py:312-324 | a live pump dispatches a prefix of the queue once each, in order, never `'exit'`; it stops at the first `'exit'` (not dispatched) or after the first message whose handler calls `Chart.exit()` (dispatched last), leaving what follows; with neither it dispatches everything and waits |
| EventPump.PumpSkipsDispatched | lightweight_charts/chart.py:312-324 | a live pump dispatches a prefix free of `'exit'` and of exiting handlers in order, and goes on from what follows it |
| EventPump.PumpAfterDispatch | lightweight_charts/chart.py:312-324 | a queue split into such a prefix, the message that ended the pump if any, and the rest is pumped to exactly that prefix, that ending and that rest |
| EventPump.Chart.constructor | lightweight_charts/chart.py:285 | a chart starts alive with nothing dispatched |
| EventPump.Chart.Exit | lightweight_charts/chart.py:334-339 | `Chart.exit` tears the bridge down and resets it, then marks the chart dead |
| EventPump.Chart.DispatchUntilEnd | lightweight_charts/chart.py:312-324 | the loop takes messages from the front while the chart is alive: those it dispatched and went past hold no `'exit'` and no exiting handler, the one that ended it is `'exit'` or exits, and with no ending a live chart has drained the queue |
| EventPump.Chart.ShowAsync | lightweight_charts/chart.py:307-324 | dispatches exactly what `Pump` says; after `'exit'` or a handler's `Chart.exit()` the chart is dead and the bridge reset; otherwise the emit queue holds what `Pump` leaves and no other field of the bridge changes |
| Panes.RemoveFirst | lightweight_charts/panes.py:70-71 | `list.remove` shortens the list by one iff the value occurs |
| Panes.FirstIndex | lightweight_charts/panes.py:70-71 | locates the first occurrence |
| Panes.RemoveFirstOccurrence | lightweight_charts/panes.py:70-71 | removal cuts out exactly the first occurrence and keeps the rest in order; an absent value leaves the list unchanged |
| Panes.RemoveFirstCutsAt | lightweight_charts/panes.py:70-71 | removal cuts out position `i` when that is where the value first occurs |
| Panes.RemoveFirstMultiset | lightweight_charts/panes.py:70-71 | removal takes one copy of the value out and nothing else |
| Panes.PaneManager.constructor | lightweight_charts/panes.py:14-17 | only the main pane 0, with an empty series list |
| Panes.PaneManager.CreatePane | lightweight_charts/panes.py:19-43 | the new index is `len(_panes)`; it is appended with an empty series list; a height script is sent iff the height is truthy |
| Panes.PaneManager.RemovePane | lightweight_charts/panes.py:63-73 | pane 0 raises and nothing changes; otherwise the removal script is sent, the first occurrence is removed and the series entry deleted |
| Panes.PaneManager.GetPaneCount | lightweight_charts/panes.py:94-96 | the number of panes, at least one |
| Panes.PaneManager.TrackSeries | lightweight_charts/panes.py:98-102 | appends the series to its pane's list, creating the list if missing; every other pane is unchanged |
| Panes.IndexCollisionAfterRemoval | lightweight_charts/panes.py:29-73 | after removing pane 1 of three, `create_pane` returns 2 again and empties pane 2's series |
| Grid.GridCell.constructor | lightweight_charts/grid_manager.py:8-17 | a cell holds its geometry and no chart |
| Grid.GridLayoutManager.constructor | lightweight_charts/grid_manager.py:27-42 | with nonzero dimensions, the grid holds exactly the in-grid keys, each cell placed and unassigned |
| Grid.GridLayoutManager.CalculateCells | lightweight_charts/grid_manager.py:44-62 | builds one fresh cell per `(row, col)` with width `total/cols`, height `total/rows` and offsets `col*width`, `row*height` |
| Grid.GridLayoutManager.GetCell | lightweight_charts/grid_manager.py:64-66 | a cell iff the position is in the grid, and that cell sits at the position |
| Grid.GridLayoutManager.GetCellConfig | lightweight_charts/grid_manager.py:68-79 | off the grid it raises `Invalid cell position`; otherwise the cell's width, height and offsets |
| Grid.GridLayoutManager.AssignChart | lightweight_charts/grid_manager.py:81-85 | sets the chart of that cell only; off the grid nothing changes |
| Grid.New | lightweight_charts/grid_manager.py:27-48 | fails with division by zero iff a dimension is 0; otherwise builds a valid grid |
| Grid.CellCount | lightweight_charts/grid_manager.py:47-62 | a grid with positive dimensions holds `rows * cols` cells |
| Grid.CellsTile | lightweight_charts/grid_manager.py:45-52 | adjacent cells abut, and the last row and column end at the total height and width |
| Validators.CheckedColumns | lightweight_charts/validators.py:54-79 | succeeds iff every required name is among the relabelled columns, returning them; otherwise it reports exactly the required names still missing |
| Validators.KnownNamesAreNormal | lightweight_charts/validators.py:59-65 | the required names are their own `lower().strip()` |
| Validators.LowercaseWordIsNormal | lightweight_charts/validators.py:61 | a lowercase word is its own `lower().strip()` |
| Validators.NewLabelIgnoresCase | lightweight_charts/validators.py:61-65 | recognising a column ignores the case of its label |
| Validators.CheckColumnsIsIdempotent | lightweight_charts/validators.py:54-79 | checking the columns of an accepted frame again renames nothing |
| Validators.ColumnMapEntries | lightweight_charts/validators.py:59-65 | `column_map` holds exactly the recognised columns, each with its new label |
| Validators.ColumnMapStep | lightweight_charts/validators.py:59-65 | each column adds its entry to `column_map` iff it is recognised |
| Validators.BuildColumnMap | lightweight_charts/validators.py:59-65 | the loop builds exactly `column_map` |
| Validators.RenameByColumnMap | lightweight_charts/validators.py:67-69 | renaming by `column_map` gives every column its new label |
| Validators.CheckColumns | lightweight_charts/validators.py:54-79 | the column loop computes `CheckedColumns` |
| Validators.Selected | lightweight_charts/validators.py:106-150 | the rows a mask selects, strictly increasing and exactly those selected |
| Validators.OhlcRulesRepairEachBar | lightweight_charts/validators.py:106-150 | with `fix`, the three passes never raise and repair each bar independently, in the order swap, raise high, lower low |
| Validators.RepairedBarIsWellFormed | lightweight_charts/validators.py:106-150 | a bar with all four prices comes out with `low <= open, close <= high` |
| Validators.RepairKeepsGoodBar | lightweight_charts/validators.py:106-150 | a bar that no mask selects is left unchanged |
| Validators.NothingSelected | lightweight_charts/validators.py:106-150 | a mask is empty iff it holds for no bar, and then its assignment changes nothing |
| Validators.OhlcRulesWithoutFix | lightweight_charts/validators.py:106-150 | without `fix`, the rules pass iff every bar satisfies all three, and then the frame is unchanged |
| Validators.ValidateOhlcRules | lightweight_charts/validators.py:106-150 | the masked in-place passes compute `OhlcRules` |
| Validators.RepairWhere | lightweight_charts/validators.py:106-150 | `df.loc[mask, col] = ...` changes exactly the masked rows |
| Validators.CountMissing | lightweight_charts/validators.py:156-158 | `isna().sum()` is zero iff nothing is missing |
| Validators.FFillMeaning | lightweight_charts/validators.py:162 | `ffill` keeps present cells and fills each gap from the nearest present cell above; a cell stays missing iff nothing above is present |
| Validators.BFillMeaning | lightweight_charts/validators.py:162 | `bfill` keeps present cells and fills each gap from the nearest present cell below; a cell stays missing iff nothing below is present |
| Validators.FillLeavesNoGap | lightweight_charts/validators.py:162 | `ffill().bfill()` keeps present cells and leaves no gap in a column with any value |
| Validators.FillMissingIsComplete | lightweight_charts/validators.py:162 | filling keeps every present value in all five columns, and completes each column that had a value |
| Validators.DataQualityOutcome | lightweight_charts/validators.py:153-169 | without `fix`, it passes iff no required cell is missing, and then the frame is unchanged; with `fix` it never raises |
| Validators.InsertByTime | lightweight_charts/validators.py:49 | insertion keeps the frame sorted by time, with `NaT` last |
| Validators.SortByTime | lightweight_charts/validators.py:49 | `sort_values('time')` is sorted with `NaT` last and keeps the length |
| Validators.InsertByTimeAddsOne | lightweight_charts/validators.py:49 | insertion adds exactly the one bar |
| Validators.SortByTimeIsPermutation | lightweight_charts/validators.py:49 | the sorted frame holds the same bars |
| Validators.Validate | lightweight_charts/validators.py:19-51 | the pipeline computes `Validated` |
| Validators.StrictValidation | lightweight_charts/validators.py:19-51 | without `fix`, an accepted frame comes back as a time-sorted permutation of its converted bars, each complete and well formed |
| Validators.LenientValidation | lightweight_charts/validators.py:19-51 | with `fix`, only the empty check, the column check or conversion can raise; the result is the repaired bars sorted; no column with a value keeps a gap |
| Validators.RepairFillsColumn | lightweight_charts/validators.py:43-46 | with `fix`, a column that had a value before the repairs has one in every row after them |
| Validators.RepairKeepsPresence | lightweight_charts/validators.py:106-150 | the OHLC repairs never make a present cell missing |
| Validators.FillAfterRepairBreaksOrdering | lightweight_charts/validators.py:43-46 | a two-bar frame whose second `high` is missing comes out of the repair steps with `high` 12 below `low` 19 |
| Validators.RepairFillFirstIsWellFormed | lightweight_charts/validators.py:43-46 | filling first, then applying the rules with `fix`, leaves every bar well formed when each price column has a value |
| TradingLayouts.FirstKeyColorIsFirstMatch | lightweight_charts/trading_layouts.py:312-316 | the dictionary scan returns the colour of the first key in the name, and nothing iff no key occurs |
| TradingLayouts.IndicatorColorsDistinct | lightweight_charts/trading_layouts.py:305-318 | the six indicator colours and the default are pairwise different |
| TradingLayouts.IndicatorColorChoice | lightweight_charts/trading_layouts.py:301-318 | an indicator gets key `k`'s colour iff `k` is the first key in its lowercased name, and the default iff no key occurs |
| TradingLayouts.FirstMatch | lightweight_charts/trading_layouts.py:312-316 | some key occurring means a first occurring key exists |
| TradingLayouts.OverlayColor | lightweight_charts/trading_layouts.py:321-342 | the colour is a palette colour or one of the three VWAP colours |
| TradingLayouts.VwapOverlayColor | lightweight_charts/trading_layouts.py:326-332 | a VWAP overlay's colour ignores its position, with `upper` before `lower` before plain |
| TradingLayouts.PaletteOverlayColor | lightweight_charts/trading_layouts.py:334-342 | other overlays cycle through six distinct colours with period 6 |
| TradingLayouts.ColorsIgnoreCase | lightweight_charts/trading_layouts.py:301-326 | both colour choices ignore the case of the name |
| TradingLayouts.ReferenceLevelChoice | lightweight_charts/trading_layouts.py:345-376 | levels are 70/50/30 for rsi, else 80/20 for stoch, else 0 for macd, else none; they always strictly decrease |
| TradingLayouts.LevelsFollowColorKey | lightweight_charts/trading_layouts.py:301-376 | colour and levels come from the same keyword, except a name with both macd and stoch, which gets the macd colour and the stoch levels |
| TradingLayouts.ChartPane.constructor | lightweight_charts/trading_layouts.py:116-156 | a new subchart has no lines |
| TradingLayouts.ChartPane.AddLine | lightweight_charts/trading_layouts.py:119-156 | `create_line` followed by `set` appends one line |
| TradingLayouts.AddReferenceLines | lightweight_charts/trading_layouts.py:345-376 | appends exactly the indicator's reference lines, in order |
| TradingLayouts.StandardSubcharts | lightweight_charts/trading_layouts.py:67-158 | one subchart per indicator, plus one iff the volume pane is asked for and a `volume` column exists |
| TradingLayouts.StandardSubchartAt | lightweight_charts/trading_layouts.py:116-158 | subchart `k` is the volume pane when there is one and `k` is 0, otherwise the subchart of indicator `k` minus the volume offset |
| TradingLayouts.CreateStandard | lightweight_charts/trading_layouts.py:16-158 | builds fresh, distinct subcharts, volume first, then one per indicator in order, each with the indicator line and its reference lines |
| TradingLayouts.IndicatorSubcharts | lightweight_charts/trading_layouts.py:136-156 | one fresh, distinct subchart per indicator, in order |
| TradingLayouts.NewIndicatorSubchart | lightweight_charts/trading_layouts.py:137-156 | the subchart of one indicator holds its line in its colour, then its reference lines |
| TradingLayouts.CreateWithOverlays | lightweight_charts/trading_layouts.py:161-207 | the standard subcharts, and on the main chart the i-th overlay in `_get_overlay_color(name, i)` |

## Left out

- Processes, queues and threads are modelled as sequences within a single
  program. `multiprocessing` scheduling, locks, `QueueFull` and real timeouts
  are not modelled. How long a join waits is a number in the teardown ladder,
  and whether the process exits is a parameter.
- The webview library is a parameter. This covers window creation,
  `evaluate_js`, the screen list and the `loaded` callback. Its rendering and
  its own threads are not modelled.
- The windows' JS callback (`CallbackAPI.callback`, `chart.py:22-23`,
  registered as every window's `js_api` at `chart.py:33` and `chart.py:59`)
  puts the page's event messages on the emit queue. It is not modelled: the
  renderer's model emits only its own `'exit'`, and `EventPump.Pump` takes
  the emit queue as an arbitrary sequence of messages.
- Supervisor.WebviewHandler.Start: whether a window loads in time is the
  parameter `ready`, which counts only when a `'create_window'` was queued
  since the last reset. A queued window whose creation fails in the renderer
  (an out-of-range screen) is still left to `ready`.
- Renderer.Run: when the queue is empty while alive, the source sleeps and
  polls forever. The model ends with the `Idle` halt, inside `UiRunning` or
  `RunLoopReturned` for the loop's thread.
- Loop: the moment the user closes the windows is counted in commands the
  loop's thread has taken (`Env.uiCloses`). Closing while the thread waits
  for a command is the same as closing before its next one. The thread is
  taken to stop when `webview.start` returns; the source clears `is_alive`,
  which stops it at its next check.
- StartBehaviour: a `'start'` that the loop's thread itself takes runs a
  nested run-loop under the same rule. What the toolkit does with a second
  `webview.start` is not modelled.
- ExitOncePerRunLoop: all run-loops entered return together when the user
  closes the windows (`uiCloses` is one moment for the whole run).
- EventPump.Chart.ShowAsync: an empty emit queue while alive ends with
  `Waiting` instead of polling forever. A handler that raises an exception
  and `KeyboardInterrupt` are not modelled. Whether a handler calls
  `Chart.exit()` is the parameter `exits`.
- JsError.ParseJsError: a decoded JSON value without the four fields gives
  `FieldAccessError`. Python raises `KeyError` for an object lacking a
  field and `TypeError` for a value that is not an object; the model does
  not tell the two apart.
- Validators.CheckedColumns: column labels are strings. A label of another
  type makes `col.lower()` raise `AttributeError` (`validators.py:61`); that
  case is not modelled.
- `json.loads` is a parameter (`JsonDecoding`). Only the regex fallback of
  `_parse_js_error` is modelled character by character.
- `parse_event_message` and the handlers it calls are foreign code. The pump
  records each message it hands to them.
- The first `evaluate_js` definition in `WebviewHandler` (`chart.py:179-188`)
  is not modelled. The later definition at line 208 replaces it.
- `Chart.show` and the rest of `AbstractChart` are not modelled. Neither is
  the JavaScript they send.
- Python's `lower()`, `strip()`, `\s` and `\d` are modelled on ASCII only.
- The scripts sent through `run_script` are kept as a log of what they ask
  for (`PaneScript`), not as text. `set_pane_height`, `move_pane` and
  `configure_panes` (`panes.py:45-92`) only send such scripts. They are not
  modelled.
- Validators.Validated: `_validate_types` is a parameter (`Converter`). Its
  pandas conversions are not modelled.
- Frames have only the five required columns after conversion. Extra columns
  are carried by the labels only.
- Row labels are positions. The reported row indices of `HighBelowLow` are
  therefore positions.
- Validators.SortByTime is stable. pandas' default `sort_values` is not
  guaranteed to be stable, so the order of bars with equal times may differ
  from the source.
- Prices are exact reals. Floating point rounding and `inf` are not modelled.
  A missing value is `None`.
- `create_standard` styling options and pane heights are not modelled. This
  covers `layout`, `grid`, `crosshair`, `legend` and `watermark`. A subchart
  is seen through the lines created on it. `indicators=None` is the empty
  list.
- The other layout helpers are not modelled. This covers `create_grid_2x2`,
  `create_grid_3x3`, `create_grid_1x4_vertical` and the indicator
  calculations of `trading_layouts.py`. It also covers the
  `create_2x2`/`create_3x3`/`create_1x4_vertical` helpers of
  `grid_manager.py` and `layouts.py`. They create charts in foreign code.
- Logging is not modelled. `Exit` reports whether it logged an exception.
- Grid.GridLayoutManager.constructor requires nonzero dimensions.
  `Grid.New` is the entry point that models the `ZeroDivisionError` for a
  zero dimension.

## Findings

| source | as written | input that shows it | evidently intended | confidence | as-written member | corrected member |
|---|---|---|---|---|---|---|
| lightweight_charts/validators.py:43-46 | `validate(fix_issues=True)` runs the OHLC repair before `ffill().bfill()`, so a missing price is filled after the rules were enforced | bars `(t=1, o=10, h=12, l=9, c=11)` and `(t=2, o=20, h=NaN, l=19, c=21)`: the fill gives the second bar `high = 12`, below its `low = 19` and its open and close | a frame returned by `validate(fix_issues=True)` obeys `low <= open, close <= high` in every row | medium, not executed | Validators.FillAfterRepairBreaksOrdering | Validators.RepairFillFirstIsWellFormed |

`Validators.Validated` keeps the source's order (`Validators.Repair`) so that
it models `validate` as written. `Validators.RepairFillFirst` is the
corrected order: the missing-value check first, then the OHLC rules. For it
`RepairFillFirstIsWellFormed` proves that every bar is well formed whenever
each price column holds at least one value.
