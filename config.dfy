/**
 * The configuration a decision calendar is built from, as the YAML document
 * loads it, and the exceptions the plotting core raises.
 */
module Config {
  import opened Wrappers

  /**
   * A node of the `colors` table: a colour string, a nested mapping, or any
   * other YAML value (a number, a list, null).
   */
  datatype ColorTree = Leaf(color: string) | Node(children: map<string, ColorTree>) | Other

  /** The exceptions raised while plotting. */
  datatype Error =
    | KeyMissing(key: string)          // KeyError on `config[key]`
    | ColorNotFound(colorKey: string)  // ValueError: colour key not found in configuration
    | NotAColor(colorKey: string)      // ValueError: colour key does not resolve to a colour string

  /** `config[key]` on a key that may be absent. */
  function Required<T>(field: Option<T>, key: string): Result<T, Error> {
    match field
    case Some(v) => Ok(v)
    case None => Err(KeyMissing(key))
  }

  /** A Circos sector: a month name and its size in days. */
  datatype Sector = Sector(name: string, size: int)

  /**
   * One entry of `track_configs`. Every key is optional in the document;
   * the plotting code decides which ones it reads with `[...]` (required)
   * and which with `.get` (defaulted).
   */
  datatype TrackConfig = TrackConfig(
    months: Option<seq<string>>,
    kind: Option<string>,                // the `type` key
    rStart: Option<int>,
    rEnd: Option<int>,
    color: Option<string>,               // a dotted colour key
    alpha: Option<real>,
    linestyle: Option<string>,
    linewidth: Option<real>,
    rPoints: Option<map<string, int>>,   // marker radius per sector name
    position: Option<real>,              // marker angle inside the sector
    size: Option<real>,                  // the `s` key: marker area
    marker: Option<string>)

  /** A value of the `track_configs` mapping: one configuration or a list of them. */
  datatype TrackEntry = Single(config: TrackConfig) | Several(configs: seq<TrackConfig>)

  /** One element of a legend group. */
  datatype LegendElement = LegendElement(
    kind: Option<string>,                // the `type` key
    color: Option<string>,
    text: Option<string>,                // the `label` key
    linestyle: Option<string>,
    linewidth: Option<real>,
    marker: Option<string>,
    markersize: Option<real>)

  /** A named legend group; `elements` is a required key. */
  datatype LegendGroup = LegendGroup(name: string, elements: Option<seq<LegendElement>>)

  /**
   * The configuration held by a `DecisionCalendar`. Mappings of the document
   * become sequences in their insertion order, which is the order Python
   * iterates them in; the names of `track_configs` entries are never used.
   */
  datatype Calendar = Calendar(
    colors: ColorTree,
    sectors: seq<Sector>,
    trackConfigs: seq<TrackEntry>,
    legendGroups: seq<LegendGroup>)
}
