# Decision calendar: plotting core in Dafny

This project models the plotting core of the decision calendar, a tool that
draws a circular calendar with one sector per month. Each sector carries
coloured bands, arrows, lines and markers that mark seasonal decision
windows. A multi-column legend sits beside the circle. The core is the
`DecisionCalendar` class in `scripts/decision_calendars.py`:

- `_get_color` resolves a dotted colour key such as `flow.high` through the
  nested `colors` mapping. It is modelled as `ColorKeys.ColorOf` (a function)
  and `ColorKeys.GetColor` (its loop).
- `_add_track` decides, for one sector and one track configuration, whether
  anything is drawn and which primitive, where and in which colour. It can
  also raise. It is modelled as `Tracks.AddTrack`, which returns a draw record
  instead of calling pycirclize.
- `create_plot` loops over the sectors, and inside that over every
  `track_configs` entry and over the items of a list-valued entry. It is
  modelled by the methods `Plotting.DrawSectors`, `Plotting.SectorTracks`,
  `Plotting.EntryTracks` and `Plotting.ListTracks`. They are proved equal to
  the functions `Plotting.Plot` and `Plotting.Dispatch`, which say which
  `_add_track` calls are made and in what order.
- `_add_legend` builds one (handles, labels) column per legend group. It is
  modelled by the methods `LegendAssembly.AddLegend`,
  `LegendAssembly.GroupEntries` and `LegendAssembly.LegendEntry`. They are
  proved equal to the functions `LegendAssembly.Legend`,
  `LegendAssembly.GroupColumn` and `LegendAssembly.ElementEntry`.

Python exceptions become `Err` values (`Config.Error`). An exception in
Python stops the whole plot, so the first failing call decides the result.
A missing key read with `config[key]` is `KeyMissing(key)`. A key read with
`.get(key, default)` falls back to its default. The configuration is a
value (`Config.Calendar`) because `DecisionCalendar` never updates its fields
after `__init__`. The mappings of the YAML document become sequences in
insertion order, which is the order Python iterates them in.

Where the code and the system's written design description disagree, the
model follows the code:

- The description puts day-of-year statistics and a `data_plot` track type at
  the centre. The code has neither, so neither is modelled.
- The description says an unknown track type is a configuration error. The
  code skips it silently, so `AddTrack` returns `Ok(None)` for it.
- The description says a failing sector/track pair leaves the others
  unaffected. The code lets the exception end `create_plot`. The model
  follows the code (`Plotting.DispatchFirstFailure`).

Files: `wrappers.dfy` (Option, Result), `config.dfy` (configuration and
errors), `color_keys.dfy`, `tracks.dfy`, `legend.dfy`, `plot.dfy`.

## Model

| member | source | states |
|---|---|---|
| ColorKeys.Split | scripts/decision_calendars.py:46 | `color_key.split('.')` always gives at least one segment, and no segment contains a dot |
| ColorKeys.SplitCount | scripts/decision_calendars.py:46 | there is exactly one more segment than there are dots in the key |
| ColorKeys.JoinSplit | scripts/decision_calendars.py:46 | joining the segments with '.' gives the original key back, so no character of the key is lost |
| ColorKeys.SplitJoin | scripts/decision_calendars.py:46 | splitting a join of dot-free segments gives the same segments back, so a split is determined by its key |
| ColorKeys.GetColor | scripts/decision_calendars.py:44-56 | the segment-by-segment walk of `_get_color` returns exactly `ColorOf`: the colour, "not found", or "not a colour string" |
| ColorKeys.ResolveAppend | scripts/decision_calendars.py:47-52 | walking a path is walking its first part and then the rest from where it ended |
| ColorKeys.ColorOfPath | scripts/decision_calendars.py:44-56 | three exclusive outcomes. The colour is returned iff the walk ends on a string. "Not found" is raised iff some segment is missing or reached through a non-mapping. "Not a colour" is raised iff the walk ends on a mapping or a non-string value |
| ColorKeys.NotFoundOnceBroken | scripts/decision_calendars.py:48-52 | once one segment cannot be followed, the key is "not found", whatever the later segments are |
| Tracks.AddTrackDecides | scripts/decision_calendars.py:58-137 | Nothing is drawn iff the sector is not in `months` or the type has no branch. The call raises only on a missing required key or a failing colour lookup, and succeeds when all required keys are present and the colour resolves. A drawn track belongs to the sector, has the configured type, the resolved colour and its layer. The band and full-sector span hold for infill, arrow and line. The `(p-2, p)` band at `r_points[sector]` holds for markers. The fixed values (edge colour none, alpha 0.7, shaft ratio 0.3) hold, and so do the `.get` defaults (alpha 1.0, linestyle '-', linewidth 1, s 200) |
| Plotting.FlattenAppend | scripts/decision_calendars.py:157-162 | the configurations visited for consecutive `track_configs` entries are those of the first entries followed by those of the rest |
| Plotting.FlattenSplice | scripts/decision_calendars.py:157-162 | a list-valued entry's configurations are visited together, in list order, between those of the entries before and after it |
| Plotting.AllVisitsAt | scripts/decision_calendars.py:151-162 | there are `len(sectors) * len(configs)` calls, and call `i * len(configs) + j` is `_add_track(sector i, configuration j)`: every pair once, sector by sector |
| Plotting.DispatchAppend | scripts/decision_calendars.py:151-162 | making two batches of calls is making the first and, unless it raised, the second, with the tracks of both in order |
| Plotting.DispatchFirstFailure | scripts/decision_calendars.py:151-162 | the calls succeed iff every call succeeds. Otherwise the error is that of the first failing call, and every earlier call succeeded |
| Plotting.DispatchOnlyTracks | scripts/decision_calendars.py:85-136 | the `_add_track` calls add only track records, each at its layer (1 for infill, arrow and line, 5 for markers) |
| Plotting.UnselectedSectorDrawsNothing | scripts/decision_calendars.py:63 | a sector that no configuration lists in `months` gets no track and raises nothing, whatever the rest of the configurations and the colours are |
| Plotting.PlotVisitsEveryPair | scripts/decision_calendars.py:151-164 | the tracks of the plot are exactly those of the calls of `AllVisits`, in that order, and the plot fails with exactly their first error |
| Plotting.PlotVisitsEverySector | scripts/decision_calendars.py:151-153 | a finished plot draws one sector axis per sector, in sector order |
| Plotting.PlotLayers | scripts/decision_calendars.py:151-164 | every record of a finished plot is at its fixed layer: axis 0, tracks 1, labels 3, markers 5 |
| Plotting.ListTracks | scripts/decision_calendars.py:158-160 | the loop over a list-valued entry makes the calls `Dispatch` describes and stops at the first exception |
| Plotting.EntryTracks | scripts/decision_calendars.py:158-162 | one entry, a single configuration or a list of them, makes the calls for its configurations |
| Plotting.SectorTracks | scripts/decision_calendars.py:157-162 | the track loop of one sector makes the calls for the flattened `track_configs`, in order |
| Plotting.DrawSectors | scripts/decision_calendars.py:151-164 | the sector loop draws, for each sector in turn, its axis and label, its tracks and the optional centre image, and stops at the first exception (`Plot`) |
| Plotting.CreatePlot | scripts/decision_calendars.py:138-173 | `create_plot` gives the drawn sectors and then the legend columns, or the first exception of either |
| LegendAssembly.ReplaceUnderscores | scripts/decision_calendars.py:186 | `replace('_', ' ')` keeps the length and changes exactly the underscores, each into a space |
| LegendAssembly.Header | scripts/decision_calendars.py:186 | a group header is the name with no underscore left, plus a final ':' |
| LegendAssembly.MakeHandle | scripts/decision_calendars.py:205-239 | patch gives a patch handle with alpha 0.5. Line and arrow give a line handle with linestyle '-' and linewidth 1 by default. Marker gives a marker-only line with marker 'o', markersize 10 and edge width 1 by default. The handle carries the element's label |
| LegendAssembly.ElementEntry | scripts/decision_calendars.py:193-241 | A space always gives a blank entry and never raises. Any other element raises only for a missing `type`, a missing `color`, a failing colour lookup or a missing `label`. It succeeds when all are present and the colour resolves, with label and handle caption equal |
| LegendAssembly.EntriesShape | scripts/decision_calendars.py:193-241 | a group's entries have one (handle, label) pair per element, in element order. They fail with the first failing element's error |
| LegendAssembly.GroupColumnShape | scripts/decision_calendars.py:181-243 | a group without `elements` raises KeyError('elements'). A built column is the header and then one entry per element. A failing column fails with its entries' error |
| LegendAssembly.LegendShape | scripts/decision_calendars.py:181-243 | the legend has one column per group, in group order, or it fails with the error of the first failing group, every group before it having built its column |
| LegendAssembly.LegendLayout | scripts/decision_calendars.py:181-246 | a built legend has `ncols == len(groups)` columns. Each starts with its group header, then lists each element's label, with a blank label for every space |
| LegendAssembly.SpacesNeverFail | scripts/decision_calendars.py:195-198 | a group made only of spaces gives blank entries whatever the colour table holds |
| LegendAssembly.LegendEntry | scripts/decision_calendars.py:193-241 | the body of the element loop, using the `_get_color` walk, gives exactly `ElementEntry` |
| LegendAssembly.GroupEntries | scripts/decision_calendars.py:182-243 | the element loop, appending to `group_handles` and `group_labels` after the header, builds exactly `GroupColumn` |
| LegendAssembly.AddLegend | scripts/decision_calendars.py:175-246 | the group loop appending to `legends` builds exactly `Legend` |

## Left out

- YAML loading, `_parse_colors`, `__init__` and the months and sectors it reads, the debugging `print`s, `save_plot` and the command-line entry point are not modelled. The model starts from an already loaded `Calendar`.
- pycirclize and matplotlib are not modelled. Each drawing call becomes a record (`Tracks.DrawInstr`), and the figure is its list of records and legend columns. The angle layout of `Circos(space=0, start=0, end=360)` and `plotfig` are not modelled.
- `create_plot` first reads `plot_settings['figsize']['plot']`. A missing key there raises before any drawing, and this is not modelled.
- The legend placement in `_add_legend` is not modelled: the bounding box, the column widths `1.0 / ncols`, the legend styling and the bold headers. A legend with no groups divides by zero there, and this is not modelled either.
- LegendAssembly.ElementEntry requires a known element type (`KnownElements`). An element whose type is none of space, patch, line, arrow or marker reaches `group_handles.append(handle)` with `handle` unbound, or bound to an earlier element's handle. That behaviour depends on Python scoping and is excluded.
- The `TypeError` re-raise around `track.rect` comes from the plotting library and is not modelled.
- A track whose colour lookup fails has already been added to its sector before the exception. The model returns only the exception.
- Dynamic typing is not modelled: the typed configuration excludes wrong value types. For example, a `months` value that is a string would turn the membership test into a substring test, and non-numeric radii would fail inside the library.
- Floating-point values are modelled as exact `real`s: alpha, line width, marker area, marker position and raster size. Radii and sector sizes are modelled as `int`.
- Tracks.AddTrackDecides: for a missing key it states only that some key required by the branch is absent, not which one is reported first. `AddTrack` itself reads them in source order.
- Tracks.AddTrackDecides: the arrow branch resolves the colour twice, for `fc` and for `ec`. The model resolves it once, because the lookup has no side effect and gives the same result both times.
