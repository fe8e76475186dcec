/**
 * `DecisionCalendar.create_plot`: every sector gets its axis and label, then
 * every track configuration in `track_configs` order (a list-valued entry
 * element by element), then the optional centre image; the legend follows.
 */
module Plotting {
  import opened Wrappers
  import opened Config
  import opened ColorKeys
  import opened Tracks
  import opened LegendAssembly

  /** The configurations held by one `track_configs` value, in list order. */
  function EntryConfigs(e: TrackEntry): seq<TrackConfig> {
    match e
    case Single(cfg) => [cfg]
    case Several(cfgs) => cfgs
  }

  /** All configurations of `track_configs`, in the order the plot visits them. */
  function Flatten(entries: seq<TrackEntry>): seq<TrackConfig> {
    if entries == [] then []
    else Flatten(entries[..|entries| - 1]) + EntryConfigs(entries[|entries| - 1])
  }

  lemma FlattenSnoc(xs: seq<TrackEntry>, e: TrackEntry)
    ensures Flatten(xs + [e]) == Flatten(xs) + EntryConfigs(e)
  {
    assert (xs + [e])[..|xs|] == xs;
  }

  /** Flattening distributes over concatenation. */
  lemma {:induction false} FlattenAppend(a: seq<TrackEntry>, b: seq<TrackEntry>)
    ensures Flatten(a + b) == Flatten(a) + Flatten(b)
  {
    if b == [] {
      assert a + b == a;
    } else {
      var n := |b|;
      var init, last := b[..n - 1], b[n - 1];
      calc {
        Flatten(a + b);
        { assert a + b == (a + init) + [last]; }
        Flatten((a + init) + [last]);
        { FlattenSnoc(a + init, last); }
        Flatten(a + init) + EntryConfigs(last);
        { FlattenAppend(a, init); }
        Flatten(a) + Flatten(init) + EntryConfigs(last);
        { assert b == init + [last]; FlattenSnoc(init, last); }
        Flatten(a) + Flatten(b);
      }
    }
  }

  /** An entry's configurations are visited together, in list order, between those of its neighbours. */
  lemma FlattenSplice(a: seq<TrackEntry>, e: TrackEntry, b: seq<TrackEntry>)
    ensures Flatten(a + [e] + b) == Flatten(a) + EntryConfigs(e) + Flatten(b)
  {
    FlattenAppend(a + [e], b);
    assert (a + [e])[..|a|] == a;
  }

  /** One call `_add_track(sector, cfg)`. */
  datatype Visit = Visit(sector: Sector, config: TrackConfig)

  /** The calls made for one sector. */
  function Visits(s: Sector, cfgs: seq<TrackConfig>): seq<Visit> {
    seq(|cfgs|, i requires 0 <= i < |cfgs| => Visit(s, cfgs[i]))
  }

  /** The calls made for all sectors: sector by sector, each over every configuration. */
  function AllVisits(sectors: seq<Sector>, cfgs: seq<TrackConfig>): seq<Visit> {
    if sectors == [] then []
    else AllVisits(sectors[..|sectors| - 1], cfgs) + Visits(sectors[|sectors| - 1], cfgs)
  }

  /** Every sector makes one call per configuration. */
  lemma {:induction false} AllVisitsLength(sectors: seq<Sector>, cfgs: seq<TrackConfig>)
    ensures |AllVisits(sectors, cfgs)| == |sectors| * |cfgs|
  {
    if sectors != [] {
      var n := |sectors|;
      AllVisitsLength(sectors[..n - 1], cfgs);
      assert n * |cfgs| == (n - 1) * |cfgs| + |cfgs|;
    }
  }

  /** Row `i` of a table with `m` columns lies before row `k` when i < k. */
  lemma {:induction false} RowBefore(i: nat, k: nat, m: nat, j: nat)
    requires i < k && j < m
    ensures i * m + j < k * m
    decreases k - i
  {
    if i + 1 < k {
      RowBefore(i + 1, k, m, j);
    }
    assert (i + 1) * m == i * m + m;
  }

  /**
   * Every (sector, configuration) pair is visited exactly once, sector-major:
   * the pair (i, j) is call number i * |cfgs| + j.
   */
  lemma {:induction false} AllVisitsAt(sectors: seq<Sector>, cfgs: seq<TrackConfig>, i: nat, j: nat)
    requires i < |sectors| && j < |cfgs|
    ensures |AllVisits(sectors, cfgs)| == |sectors| * |cfgs|
    ensures AllVisits(sectors, cfgs)[i * |cfgs| + j] == Visit(sectors[i], cfgs[j])
  {
    var n, m := |sectors|, |cfgs|;
    var prefix := sectors[..n - 1];
    AllVisitsLength(sectors, cfgs);
    AllVisitsLength(prefix, cfgs);
    if i < n - 1 {
      AllVisitsAt(prefix, cfgs, i, j);
      RowBefore(i, n - 1, m, j);
    }
  }

  /** The records one `_add_track` call adds. */
  function Emitted(d: Option<DrawInstr>): seq<DrawInstr> {
    match d
    case None => []
    case Some(x) => [x]
  }

  /** The calls in order, stopping at the first exception. */
  function Dispatch(colors: ColorTree, visits: seq<Visit>): Result<seq<DrawInstr>, Error> {
    if visits == [] then Ok([])
    else
      var before :- Dispatch(colors, visits[..|visits| - 1]);
      var last := visits[|visits| - 1];
      var d :- AddTrack(colors, last.sector, last.config);
      Ok(before + Emitted(d))
  }

  /** One more call: the calls so far, then the new one unless they raised. */
  lemma DispatchSnoc(colors: ColorTree, visits: seq<Visit>, v: Visit)
    ensures Dispatch(colors, visits + [v])
            == match Dispatch(colors, visits)
               case Err(e) => Err(e)
               case Ok(before) =>
                 match AddTrack(colors, v.sector, v.config)
                 case Err(e) => Err(e)
                 case Ok(d) => Ok(before + Emitted(d))
  {
    assert (visits + [v])[..|visits|] == visits;
  }

  /** Running two batches of calls is running the first, then the second. */
  lemma {:induction false} DispatchAppend(colors: ColorTree, a: seq<Visit>, b: seq<Visit>)
    ensures Dispatch(colors, a + b) == AndThen(Dispatch(colors, a), Dispatch(colors, b))
  {
    if b == [] {
      assert a + b == a;
      if Dispatch(colors, a).Ok? {
        assert Dispatch(colors, a).value + [] == Dispatch(colors, a).value;
      }
    } else {
      var init, last := b[..|b| - 1], b[|b| - 1];
      DispatchAppend(colors, a, init);
      assert b == init + [last];
      assert a + b == (a + init) + [last];
      DispatchSnoc(colors, a + init, last);
      DispatchSnoc(colors, init, last);
      if Dispatch(colors, a).Ok? && Dispatch(colors, init).Ok? {
        var d := AddTrack(colors, last.sector, last.config);
        if d.Ok? {
          Regroup(Dispatch(colors, a).value, Dispatch(colors, init).value, Emitted(d.value));
        }
      }
    }
  }

  /**
   * The calls succeed exactly when each one does; otherwise the first
   * failing call's exception is the result.
   */
  lemma {:induction false} DispatchFirstFailure(colors: ColorTree, visits: seq<Visit>)
    ensures Dispatch(colors, visits).Ok? <==>
              forall i :: 0 <= i < |visits| ==> AddTrack(colors, visits[i].sector, visits[i].config).Ok?
    ensures Dispatch(colors, visits).Err? ==>
              exists i :: 0 <= i < |visits|
                          && AddTrack(colors, visits[i].sector, visits[i].config) == Err(Dispatch(colors, visits).error)
                          && forall j :: 0 <= j < i ==> AddTrack(colors, visits[j].sector, visits[j].config).Ok?
  {
    if visits != [] {
      var n := |visits|;
      var prefix, last := visits[..n - 1], visits[n - 1];
      DispatchFirstFailure(colors, prefix);
      assert forall j :: 0 <= j < n - 1 ==> prefix[j] == visits[j];
      assert visits == prefix + [last];
      DispatchSnoc(colors, prefix, last);
      var d := AddTrack(colors, last.sector, last.config);
      if Dispatch(colors, prefix).Ok? && d.Err? {
        assert Dispatch(colors, visits) == Err(d.error);
        assert AddTrack(colors, visits[n - 1].sector, visits[n - 1].config) == Err(d.error);
      }
    }
  }

  /** The z-order each record is drawn at. */
  predicate LayerOk(d: DrawInstr) {
    match d
    case SectorAxis(_, _, _, _, z) => z == AxisLayer
    case SectorText(_, _, _, _, z) => z == LabelLayer
    case Track(_, _, shape) => shape.zorder == if shape.Scatter? then MarkerLayer else TrackLayer
    case CenterRaster(_, _, _, _) => true
  }

  /** The calls add only tracks, each at its layer. */
  lemma {:induction false} DispatchOnlyTracks(colors: ColorTree, visits: seq<Visit>)
    requires Dispatch(colors, visits).Ok?
    ensures forall d <- Dispatch(colors, visits).value :: d.Track? && LayerOk(d)
  {
    if visits != [] {
      var prefix, last := visits[..|visits| - 1], visits[|visits| - 1];
      DispatchOnlyTracks(colors, prefix);
      AddTrackDecides(colors, last.sector, last.config);
      var before, d := Dispatch(colors, prefix).value, AddTrack(colors, last.sector, last.config).value;
      assert Dispatch(colors, visits).value == before + Emitted(d);
      forall x <- before + Emitted(d) ensures x.Track? && LayerOk(x) {
        if x !in before {
          assert x == d.value;
        }
      }
    }
  }

  /**
   * A sector that no configuration lists in its `months` gets no track and
   * raises nothing, whatever the configurations and colours say.
   */
  lemma {:induction false} UnselectedSectorDrawsNothing(colors: ColorTree, s: Sector, cfgs: seq<TrackConfig>)
    requires forall cfg <- cfgs :: !Selected(s, cfg)
    ensures Dispatch(colors, Visits(s, cfgs)) == Ok([])
  {
    if cfgs != [] {
      var n := |cfgs|;
      UnselectedSectorDrawsNothing(colors, s, cfgs[..n - 1]);
      assert Visits(s, cfgs)[..n - 1] == Visits(s, cfgs[..n - 1]);
      assert cfgs[n - 1] in cfgs;
      assert Visits(s, cfgs)[n - 1] == Visit(s, cfgs[n - 1]);
      assert AddTrack(colors, s, cfgs[n - 1]) == Ok(None);
      assert [] + Emitted(None) == [];
    }
  }

  /** `sector.axis(...)` and `sector.text(...)`, drawn before a sector's tracks. */
  function SectorHeader(s: Sector): seq<DrawInstr> {
    [SectorAxis(s.name, "none", "grey", 0.5, AxisLayer), SectorText(s.name, s.name, 15, 26, LabelLayer)]
  }

  /** `sector.raster(center_image, r=0, size=0.15)` when an image is given. */
  function CenterDraws(s: Sector, centerImage: Option<string>): seq<DrawInstr> {
    match centerImage
    case None => []
    case Some(image) => [CenterRaster(s.name, image, 0, 0.15)]
  }

  /** What one iteration of the sector loop draws. */
  function SectorDraws(colors: ColorTree, s: Sector, cfgs: seq<TrackConfig>, centerImage: Option<string>)
    : Result<seq<DrawInstr>, Error>
  {
    var tracks :- Dispatch(colors, Visits(s, cfgs));
    Ok(SectorHeader(s) + tracks + CenterDraws(s, centerImage))
  }

  /** The sector loop of `create_plot`, stopping at the first exception. */
  function Plot(colors: ColorTree, sectors: seq<Sector>, cfgs: seq<TrackConfig>, centerImage: Option<string>)
    : Result<seq<DrawInstr>, Error>
  {
    if sectors == [] then Ok([])
    else
      var before :- Plot(colors, sectors[..|sectors| - 1], cfgs, centerImage);
      var these :- SectorDraws(colors, sectors[|sectors| - 1], cfgs, centerImage);
      Ok(before + these)
  }

  /** The track records among the draws, in order. */
  function TrackDraws(ds: seq<DrawInstr>): seq<DrawInstr> {
    if ds == [] then []
    else TrackDraws(ds[..|ds| - 1]) + (if ds[|ds| - 1].Track? then [ds[|ds| - 1]] else [])
  }

  /** The sectors whose axis is drawn, in order. */
  function AxisSectors(ds: seq<DrawInstr>): seq<string> {
    if ds == [] then []
    else AxisSectors(ds[..|ds| - 1]) + (if ds[|ds| - 1].SectorAxis? then [ds[|ds| - 1].sector] else [])
  }

  lemma {:induction false} FiltersAppend(a: seq<DrawInstr>, b: seq<DrawInstr>)
    ensures TrackDraws(a + b) == TrackDraws(a) + TrackDraws(b)
    ensures AxisSectors(a + b) == AxisSectors(a) + AxisSectors(b)
  {
    if b == [] {
      assert a + b == a;
    } else {
      var init, last := b[..|b| - 1], b[|b| - 1];
      FiltersAppend(a, init);
      assert b == init + [last];
      assert a + b == (a + init) + [last];
      FiltersSnoc(a + init, last);
      FiltersSnoc(init, last);
      Regroup(TrackDraws(a), TrackDraws(init), TrackDraws([last]));
      Regroup(AxisSectors(a), AxisSectors(init), AxisSectors([last]));
    }
  }

  lemma Regroup<T>(x: seq<T>, y: seq<T>, z: seq<T>)
    ensures x + y + z == x + (y + z)
  {
  }

  lemma FiltersSnoc(ds: seq<DrawInstr>, d: DrawInstr)
    ensures TrackDraws(ds + [d]) == TrackDraws(ds) + TrackDraws([d])
    ensures AxisSectors(ds + [d]) == AxisSectors(ds) + AxisSectors([d])
  {
    assert (ds + [d])[..|ds|] == ds;
    assert [d][..0] == [];
  }

  lemma {:induction false} FiltersOfTracks(ds: seq<DrawInstr>)
    requires forall d <- ds :: d.Track?
    ensures TrackDraws(ds) == ds && AxisSectors(ds) == []
  {
    if ds != [] {
      var n := |ds|;
      FiltersOfTracks(ds[..n - 1]);
      assert ds == ds[..n - 1] + [ds[n - 1]];
    }
  }

  lemma HeaderFilters(s: Sector)
    ensures TrackDraws(SectorHeader(s)) == [] && AxisSectors(SectorHeader(s)) == [s.name]
  {
    var header := SectorHeader(s);
    var first := header[..1];
    assert first[..0] == [];
    assert TrackDraws(first) == [] && AxisSectors(first) == [s.name];
    assert header[..|header| - 1] == first;
  }

  lemma CenterFilters(s: Sector, centerImage: Option<string>)
    ensures TrackDraws(CenterDraws(s, centerImage)) == [] && AxisSectors(CenterDraws(s, centerImage)) == []
  {
    if centerImage.Some? {
      assert CenterDraws(s, centerImage)[..0] == [];
    }
  }

  /** What one sector contributes to each filter. */
  lemma SectorFilters(s: Sector, tracks: seq<DrawInstr>, centerImage: Option<string>)
    requires forall d <- tracks :: d.Track?
    ensures TrackDraws(SectorHeader(s) + tracks + CenterDraws(s, centerImage)) == tracks
    ensures AxisSectors(SectorHeader(s) + tracks + CenterDraws(s, centerImage)) == [s.name]
  {
    var header, center := SectorHeader(s), CenterDraws(s, centerImage);
    FiltersOfTracks(tracks);
    FiltersAppend(header, tracks);
    FiltersAppend(header + tracks, center);
    HeaderFilters(s);
    CenterFilters(s, centerImage);
    assert [] + tracks + [] == tracks;
    assert [s.name] + [] + [] == [s.name];
  }

  /**
   * The plot makes exactly the `_add_track` calls of AllVisits, in that order:
   * its tracks are theirs, and it fails with their first exception.
   */
  lemma {:induction false} PlotVisitsEveryPair(colors: ColorTree, sectors: seq<Sector>, cfgs: seq<TrackConfig>,
                                               centerImage: Option<string>)
    ensures match Plot(colors, sectors, cfgs, centerImage)
            case Ok(ds) => Dispatch(colors, AllVisits(sectors, cfgs)) == Ok(TrackDraws(ds))
            case Err(e) => Dispatch(colors, AllVisits(sectors, cfgs)) == Err(e)
  {
    if sectors != [] {
      var n := |sectors|;
      var prefix, s := sectors[..n - 1], sectors[n - 1];
      PlotVisitsEveryPair(colors, prefix, cfgs, centerImage);
      DispatchAppend(colors, AllVisits(prefix, cfgs), Visits(s, cfgs));
      var here := Dispatch(colors, Visits(s, cfgs));
      if Plot(colors, prefix, cfgs, centerImage).Ok? && here.Ok? {
        DispatchOnlyTracks(colors, Visits(s, cfgs));
        SectorFilters(s, here.value, centerImage);
        FiltersAppend(Plot(colors, prefix, cfgs, centerImage).value,
                      SectorHeader(s) + here.value + CenterDraws(s, centerImage));
      }
    }
  }

  /** Every sector is visited, in order: each gets its axis exactly once. */
  lemma {:induction false} PlotVisitsEverySector(colors: ColorTree, sectors: seq<Sector>, cfgs: seq<TrackConfig>,
                                                 centerImage: Option<string>)
    requires Plot(colors, sectors, cfgs, centerImage).Ok?
    ensures |AxisSectors(Plot(colors, sectors, cfgs, centerImage).value)| == |sectors|
    ensures forall i :: 0 <= i < |sectors| ==>
              AxisSectors(Plot(colors, sectors, cfgs, centerImage).value)[i] == sectors[i].name
  {
    var n := |sectors|;
    if n > 0 {
      var prefix := sectors[..n - 1];
      PlotVisitsEverySector(colors, prefix, cfgs, centerImage);
      PlotAxesStep(colors, sectors, cfgs, centerImage);
      var axes := AxisSectors(Plot(colors, sectors, cfgs, centerImage).value);
      forall i | 0 <= i < n
        ensures axes[i] == sectors[i].name
      {
        if i < n - 1 {
          assert prefix[i] == sectors[i];
        }
      }
    }
  }

  /** The last sector adds exactly its own name to the drawn axes. */
  lemma PlotAxesStep(colors: ColorTree, sectors: seq<Sector>, cfgs: seq<TrackConfig>, centerImage: Option<string>)
    requires sectors != [] && Plot(colors, sectors, cfgs, centerImage).Ok?
    ensures Plot(colors, sectors[..|sectors| - 1], cfgs, centerImage).Ok?
    ensures AxisSectors(Plot(colors, sectors, cfgs, centerImage).value)
            == AxisSectors(Plot(colors, sectors[..|sectors| - 1], cfgs, centerImage).value) + [sectors[|sectors| - 1].name]
  {
    var s := sectors[|sectors| - 1];
    var before := Plot(colors, sectors[..|sectors| - 1], cfgs, centerImage).value;
    var here := Dispatch(colors, Visits(s, cfgs)).value;
    var these := SectorHeader(s) + here + CenterDraws(s, centerImage);
    assert Plot(colors, sectors, cfgs, centerImage).value == before + these;
    DispatchOnlyTracks(colors, Visits(s, cfgs));
    SectorFilters(s, here, centerImage);
    FiltersAppend(before, these);
  }

  /**
   * Layers are fixed: sector axes at 0, infill/arrow/line at 1, sector labels
   * at 3, markers at 5.
   */
  lemma {:induction false} PlotLayers(colors: ColorTree, sectors: seq<Sector>, cfgs: seq<TrackConfig>,
                                      centerImage: Option<string>)
    requires Plot(colors, sectors, cfgs, centerImage).Ok?
    ensures forall d <- Plot(colors, sectors, cfgs, centerImage).value :: LayerOk(d)
  {
    if sectors != [] {
      var n := |sectors|;
      PlotLayers(colors, sectors[..n - 1], cfgs, centerImage);
      DispatchOnlyTracks(colors, Visits(sectors[n - 1], cfgs));
    }
  }

  /** A failing sector makes the plot of every longer list of sectors fail the same way. */
  lemma {:induction false} PlotPrefixFailure(colors: ColorTree, sectors: seq<Sector>, cfgs: seq<TrackConfig>,
                                             centerImage: Option<string>, n: nat)
    requires n <= |sectors| && Plot(colors, sectors[..n], cfgs, centerImage).Err?
    ensures Plot(colors, sectors, cfgs, centerImage) == Plot(colors, sectors[..n], cfgs, centerImage)
    decreases |sectors| - n
  {
    if n < |sectors| {
      var shorter := sectors[..|sectors| - 1];
      assert shorter[..n] == sectors[..n];
      PlotPrefixFailure(colors, shorter, cfgs, centerImage, n);
    } else {
      assert sectors[..n] == sectors;
    }
  }

  /** One more call for the sector: the calls so far, then `_add_track(s, cfg)`. */
  lemma DispatchStep(colors: ColorTree, s: Sector, done: seq<TrackConfig>, cfg: TrackConfig)
    ensures Dispatch(colors, Visits(s, done + [cfg]))
            == match Dispatch(colors, Visits(s, done))
               case Err(e) => Err(e)
               case Ok(before) =>
                 match AddTrack(colors, s, cfg)
                 case Err(e) => Err(e)
                 case Ok(d) => Ok(before + Emitted(d))
  {
    var vs := Visits(s, done + [cfg]);
    assert vs[..|done|] == Visits(s, done);
  }

  /** A failure among the first calls for a sector is the failure of all its calls. */
  lemma DispatchPrefixFailure(colors: ColorTree, s: Sector, done: seq<TrackConfig>, rest: seq<TrackConfig>)
    requires Dispatch(colors, Visits(s, done)).Err?
    ensures Dispatch(colors, Visits(s, done + rest)) == Dispatch(colors, Visits(s, done))
  {
    assert Visits(s, done + rest) == Visits(s, done) + Visits(s, rest);
    DispatchAppend(colors, Visits(s, done), Visits(s, rest));
  }

  /** Calls for consecutive configurations are consecutive calls. */
  lemma VisitsAppend(s: Sector, a: seq<TrackConfig>, b: seq<TrackConfig>)
    ensures Visits(s, a + b) == Visits(s, a) + Visits(s, b)
  {
  }

  /** The inner loop over a list-valued entry: `_add_track` on each element, in list order. */
  method ListTracks(colors: ColorTree, sector: Sector, cfgs: seq<TrackConfig>)
    returns (r: Result<seq<DrawInstr>, Error>)
    ensures r == Dispatch(colors, Visits(sector, cfgs))
  {
    var tracks: seq<DrawInstr> := [];
    assert cfgs[..0] == [];
    for k := 0 to |cfgs|
      invariant Dispatch(colors, Visits(sector, cfgs[..k])) == Ok(tracks)
    {
      assert cfgs[..k + 1] == cfgs[..k] + [cfgs[k]];
      DispatchStep(colors, sector, cfgs[..k], cfgs[k]);
      var d := AddTrack(colors, sector, cfgs[k]);
      if d.Err? {
        assert cfgs == cfgs[..k + 1] + cfgs[k + 1..];
        DispatchPrefixFailure(colors, sector, cfgs[..k + 1], cfgs[k + 1..]);
        return Err(d.error);
      }
      tracks := tracks + Emitted(d.value);
    }
    assert cfgs[..|cfgs|] == cfgs;
    r := Ok(tracks);
  }

  /** One entry of `track_configs` for one sector: a single configuration or a list of them. */
  method EntryTracks(colors: ColorTree, sector: Sector, entry: TrackEntry)
    returns (r: Result<seq<DrawInstr>, Error>)
    ensures r == Dispatch(colors, Visits(sector, EntryConfigs(entry)))
  {
    match entry {
      case Single(cfg) =>
        var d := AddTrack(colors, sector, cfg);
        r := if d.Err? then Err(d.error) else Ok(Emitted(d.value));
        DispatchStep(colors, sector, [], cfg);
        assert [] + [cfg] == [cfg] && Visits(sector, []) == [];
        assert d.Ok? ==> [] + Emitted(d.value) == Emitted(d.value);
      case Several(cfgs) =>
        r := ListTracks(colors, sector, cfgs);
    }
  }

  /** Visiting one more entry appends its calls to those already made. */
  lemma SectorStep(colors: ColorTree, sector: Sector, entries: seq<TrackEntry>, j: nat)
    requires j < |entries|
    ensures Dispatch(colors, Visits(sector, Flatten(entries[..j + 1])))
            == AndThen(Dispatch(colors, Visits(sector, Flatten(entries[..j]))),
                       Dispatch(colors, Visits(sector, EntryConfigs(entries[j]))))
  {
    var done, these := Flatten(entries[..j]), EntryConfigs(entries[j]);
    assert entries[..j + 1][..j] == entries[..j];
    assert Flatten(entries[..j + 1]) == done + these;
    VisitsAppend(sector, done, these);
    DispatchAppend(colors, Visits(sector, done), Visits(sector, these));
  }

  /** A failure among the first entries is the failure of the sector's whole track loop. */
  lemma {:induction false} SectorPrefixFailure(colors: ColorTree, sector: Sector, entries: seq<TrackEntry>, n: nat)
    requires n <= |entries| && Dispatch(colors, Visits(sector, Flatten(entries[..n]))).Err?
    ensures Dispatch(colors, Visits(sector, Flatten(entries))) == Dispatch(colors, Visits(sector, Flatten(entries[..n])))
    decreases |entries| - n
  {
    if n < |entries| {
      var shorter := entries[..|entries| - 1];
      assert shorter[..n] == entries[..n];
      SectorPrefixFailure(colors, sector, shorter, n);
      DispatchPrefixFailure(colors, sector, Flatten(shorter), EntryConfigs(entries[|entries| - 1]));
    } else {
      assert entries[..n] == entries;
    }
  }

  /** The track loop of one sector: every entry in `track_configs` order. */
  method SectorTracks(colors: ColorTree, sector: Sector, entries: seq<TrackEntry>)
    returns (r: Result<seq<DrawInstr>, Error>)
    ensures r == Dispatch(colors, Visits(sector, Flatten(entries)))
  {
    var tracks: seq<DrawInstr> := [];
    assert entries[..0] == [];
    for j := 0 to |entries|
      invariant Dispatch(colors, Visits(sector, Flatten(entries[..j]))) == Ok(tracks)
    {
      var more := EntryTracks(colors, sector, entries[j]);
      SectorStep(colors, sector, entries, j);
      if more.Err? {
        SectorPrefixFailure(colors, sector, entries, j + 1);
        return Err(more.error);
      }
      tracks := tracks + more.value;
    }
    assert entries[..|entries|] == entries;
    r := Ok(tracks);
  }

  /** The figure `create_plot` returns: its draw records and its legend columns. */
  datatype Figure = Figure(draws: seq<DrawInstr>, legend: seq<Column>)

  /** The figure of a calendar, or the first exception raised while building it. */
  function Render(cal: Calendar, centerImage: Option<string>): Result<Figure, Error>
    requires KnownElements(cal.legendGroups)
  {
    var draws :- Plot(cal.colors, cal.sectors, Flatten(cal.trackConfigs), centerImage);
    var legend :- Legend(cal.colors, cal.legendGroups);
    Ok(Figure(draws, legend))
  }

  /** The sector loop of `create_plot`: axis, label, tracks and centre image of each sector in turn. */
  method DrawSectors(colors: ColorTree, sectors: seq<Sector>, entries: seq<TrackEntry>, centerImage: Option<string>)
    returns (r: Result<seq<DrawInstr>, Error>)
    ensures r == Plot(colors, sectors, Flatten(entries), centerImage)
  {
    ghost var cfgs := Flatten(entries);
    var drawn: seq<DrawInstr> := [];
    assert sectors[..0] == [];
    for i := 0 to |sectors|
      invariant Plot(colors, sectors[..i], cfgs, centerImage) == Ok(drawn)
    {
      assert sectors[..i + 1][..i] == sectors[..i];
      var sector := sectors[i];
      var tracks := SectorTracks(colors, sector, entries);
      if tracks.Err? {
        PlotPrefixFailure(colors, sectors, cfgs, centerImage, i + 1);
        return Err(tracks.error);
      }
      drawn := drawn + (SectorHeader(sector) + tracks.value + CenterDraws(sector, centerImage));
    }
    assert sectors[..|sectors|] == sectors;
    r := Ok(drawn);
  }

  /** `create_plot`: the sector loop, then the legend. */
  method CreatePlot(cal: Calendar, centerImage: Option<string>) returns (r: Result<Figure, Error>)
    requires KnownElements(cal.legendGroups)
    ensures r == Render(cal, centerImage)
  {
    var drawn := DrawSectors(cal.colors, cal.sectors, cal.trackConfigs, centerImage);
    if drawn.Err? {
      return Err(drawn.error);
    }
    var legend := AddLegend(cal.colors, cal.legendGroups);
    if legend.Err? {
      return Err(legend.error);
    }
    r := Ok(Figure(drawn.value, legend.value));
  }
}
