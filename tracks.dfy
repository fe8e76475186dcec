/**
 * `DecisionCalendar._add_track`: for one sector and one track configuration,
 * decide whether anything is drawn and, if so, which primitive, where and in
 * which colour. The pycirclize calls become the draw records below.
 */
module Tracks {
  import opened Wrappers
  import opened Config
  import opened ColorKeys

  /** Stacking layers (matplotlib z-order) used by the plot. */
  const AxisLayer := 0
  const TrackLayer := 1
  const LabelLayer := 3
  const MarkerLayer := 5

  /** A radial band of a sector: the `r_lim` of a track. */
  datatype Band = Band(lo: int, hi: int)

  /** The primitive drawn on a track; angles are positions inside the sector. */
  datatype Shape =
    | Rect(start: int, end: int, rLim: Band, facecolor: string, edgecolor: string,
           alpha: real, zorder: int)
    | Arrow(start: int, end: int, shaftRatio: real, headLength: real, fc: string, ec: string,
            alpha: real, linestyle: string, linewidth: real, zorder: int)
    | Line(xs: (int, int), ys: (int, int), vmin: int, vmax: int, color: string,
           linestyle: string, linewidth: real, zorder: int)
    | Scatter(x: real, y: int, vmin: int, vmax: int, size: real, color: string,
              marker: string, linewidth: real, zorder: int)
  {
    /** The track `type` that draws this primitive. */
    function Kind(): string {
      match this
      case Rect(_, _, _, _, _, _, _) => "infill"
      case Arrow(_, _, _, _, _, _, _, _, _, _) => "arrow"
      case Line(_, _, _, _, _, _, _, _) => "line"
      case Scatter(_, _, _, _, _, _, _, _, _) => "marker"
    }

    /** The resolved colour it is drawn in (the face colour of a rectangle or arrow). */
    function Paint(): string {
      match this
      case Rect(_, _, _, c, _, _, _) => c
      case Arrow(_, _, _, _, c, _, _, _, _, _) => c
      case Line(_, _, _, _, c, _, _, _) => c
      case Scatter(_, _, _, _, _, c, _, _, _) => c
    }

    /** The angular extent of the band primitives. */
    function Span(): (int, int)
      requires !Scatter?
    {
      match this
      case Rect(start, end, _, _, _, _, _) => (start, end)
      case Arrow(start, end, _, _, _, _, _, _, _, _) => (start, end)
      case Line(xs, _, _, _, _, _, _, _) => xs
    }
  }

  /** What the plot draws, one record per pycirclize call. */
  datatype DrawInstr =
    | SectorAxis(sector: string, facecolor: string, edgecolor: string, alpha: real, zorder: int)
    | SectorText(sector: string, text: string, fontsize: int, r: int, zorder: int)
    | Track(sector: string, band: Band, shape: Shape)
    | CenterRaster(sector: string, image: string, r: int, scale: real)

  /** The sector's name is in the configuration's `months` (a missing list is empty). */
  predicate Selected(sector: Sector, cfg: TrackConfig) {
    sector.name in cfg.months.GetOr([])
  }

  /** The `type` values `_add_track` has a branch for. */
  predicate KnownKind(cfg: TrackConfig) {
    cfg.kind == Some("infill") || cfg.kind == Some("arrow") || cfg.kind == Some("line")
    || cfg.kind == Some("marker")
  }

  /** Every key the branch for `cfg`'s type reads with `[...]` is present. */
  predicate RequiredKeysPresent(sector: Sector, cfg: TrackConfig) {
    if cfg.kind == Some("marker") then
      && cfg.rPoints.Some? && sector.name in cfg.rPoints.value
      && cfg.position.Some? && cfg.color.Some? && cfg.marker.Some?
    else
      cfg.rStart.Some? && cfg.rEnd.Some? && cfg.color.Some?
  }

  /** `_add_track(sector, track_config)`: the track it adds, nothing, or the exception it raises. */
  function AddTrack(colors: ColorTree, sector: Sector, cfg: TrackConfig): Result<Option<DrawInstr>, Error>
  {
    if !Selected(sector, cfg) then Ok(None)
    else if cfg.kind == Some("infill") then
      var lo :- Required(cfg.rStart, "r_start");
      var hi :- Required(cfg.rEnd, "r_end");
      var key :- Required(cfg.color, "color");
      var c :- ColorOf(colors, key);
      Ok(Some(Track(sector.name, Band(lo, hi),
                    Rect(0, sector.size, Band(lo, hi), c, "none", cfg.alpha.GetOr(1.0), TrackLayer))))
    else if cfg.kind == Some("arrow") then
      var lo :- Required(cfg.rStart, "r_start");
      var hi :- Required(cfg.rEnd, "r_end");
      var key :- Required(cfg.color, "color");
      var c :- ColorOf(colors, key);
      Ok(Some(Track(sector.name, Band(lo, hi),
                    Arrow(0, sector.size, 0.3, 0.0, c, c, 0.7,
                          cfg.linestyle.GetOr("-"), cfg.linewidth.GetOr(1.0), TrackLayer))))
    else if cfg.kind == Some("line") then
      var lo :- Required(cfg.rStart, "r_start");
      var hi :- Required(cfg.rEnd, "r_end");
      var key :- Required(cfg.color, "color");
      var c :- ColorOf(colors, key);
      Ok(Some(Track(sector.name, Band(lo, hi),
                    Line((0, sector.size), (lo, lo), lo, hi, c,
                         cfg.linestyle.GetOr("-"), cfg.linewidth.GetOr(1.0), TrackLayer))))
    else if cfg.kind == Some("marker") then
      var points :- Required(cfg.rPoints, "r_points");
      var p :- Required(if sector.name in points then Some(points[sector.name]) else None, sector.name);
      var position :- Required(cfg.position, "position");
      var key :- Required(cfg.color, "color");
      var c :- ColorOf(colors, key);
      var marker :- Required(cfg.marker, "marker");
      Ok(Some(Track(sector.name, Band(p - 2, p),
                    Scatter(position, p, p - 2, p, cfg.size.GetOr(200.0), c, marker,
                            cfg.linewidth.GetOr(1.0), MarkerLayer))))
    else Ok(None)
  }

  /**
   * What `_add_track` decides for one call, stated of its outcome `r`:
   * whether anything is drawn, which primitive, where, in which colour, with
   * which defaults and at which layer, and when it raises.
   */
  predicate TrackDecision(colors: ColorTree, sector: Sector, cfg: TrackConfig, r: Result<Option<DrawInstr>, Error>) {
    // Nothing is drawn exactly when the sector is not selected or the type has no branch.
    && ((r.Ok? && r.value.None?) <==> !Selected(sector, cfg) || !KnownKind(cfg))
    // The call raises only on a missing required key or from the colour lookup.
    && (r.Err? ==> Selected(sector, cfg) && KnownKind(cfg))
    && (r.Err? && r.error.KeyMissing? ==> !RequiredKeysPresent(sector, cfg))
    && (r.Err? && !r.error.KeyMissing? ==>
          cfg.color.Some? && ColorOf(colors, cfg.color.value) == Err(r.error))
    && ((Selected(sector, cfg) && KnownKind(cfg) && RequiredKeysPresent(sector, cfg)
         && ColorOf(colors, cfg.color.value).Ok?) ==> r.Ok? && r.value.Some?)
    // A drawn track belongs to this sector, has the configured type, the resolved colour and its layer.
    && (r.Ok? && r.value.Some? ==>
          var d := r.value.value;
          && RequiredKeysPresent(sector, cfg) && cfg.kind.Some?
          && d.Track? && d.sector == sector.name
          && d.shape.Kind() == cfg.kind.value
          && ColorOf(colors, cfg.color.value) == Ok(d.shape.Paint())
          && d.shape.zorder == (if d.shape.Scatter? then MarkerLayer else TrackLayer)
          // infill, arrow and line: the configured band, over the whole sector.
          && (!d.shape.Scatter? ==>
                var lo, hi := cfg.rStart.value, cfg.rEnd.value;
                && d.band == Band(lo, hi)
                && d.shape.Span() == (0, sector.size)
                && (d.shape.Rect? ==>
                      d.shape.rLim == d.band && d.shape.edgecolor == "none"
                      && d.shape.alpha == cfg.alpha.GetOr(1.0))
                && (d.shape.Arrow? ==>
                      d.shape.ec == d.shape.fc && d.shape.alpha == 0.7
                      && d.shape.shaftRatio == 0.3 && d.shape.headLength == 0.0)
                && (d.shape.Line? ==>
                      d.shape.ys == (lo, lo) && d.shape.vmin == lo && d.shape.vmax == hi)
                && (d.shape.Arrow? || d.shape.Line? ==>
                      d.shape.linestyle == cfg.linestyle.GetOr("-")
                      && d.shape.linewidth == cfg.linewidth.GetOr(1.0)))
          // marker: one glyph at the sector's configured radius, framed by a band two units tall.
          && (d.shape.Scatter? ==>
                var p := cfg.rPoints.value[sector.name];
                && d.band == Band(p - 2, p)
                && d.shape.x == cfg.position.value && d.shape.y == p
                && d.shape.vmin == p - 2 && d.shape.vmax == p
                && d.shape.size == cfg.size.GetOr(200.0)
                && d.shape.marker == cfg.marker.value
                && d.shape.linewidth == cfg.linewidth.GetOr(1.0)))
  }

  /** `_add_track` makes the decision TrackDecision describes. */
  lemma AddTrackDecides(colors: ColorTree, sector: Sector, cfg: TrackConfig)
    ensures TrackDecision(colors, sector, cfg, AddTrack(colors, sector, cfg))
  {
  }
}
