/**
 * The handle and label lists of `DecisionCalendar._add_legend`: one legend
 * column per group, a bold header first, then one entry per element.
 */
module LegendAssembly {
  import opened Wrappers
  import opened Config
  import opened ColorKeys

  /** A legend handle, one per matplotlib artist; `caption` is its `label`. */
  datatype Handle =
    | Blank(caption: string)                   // Line2D([], [], color='none')
    | PatchHandle(facecolor: string, alpha: real, caption: string)
    | LineHandle(color: string, linestyle: string, linewidth: real, caption: string)
    | MarkerHandle(marker: string, color: string, linestyle: string, markersize: real,
                   markeredgewidth: real, caption: string)

  /** One legend column: the handles and the labels passed to `legend()`. */
  datatype Column = Column(handles: seq<Handle>, labels: seq<string>)

  /** The element types `_add_legend` has a branch for. */
  const ElementKinds: set<string> := {"space", "patch", "line", "arrow", "marker"}

  /** An element whose type, when given, has a branch. */
  predicate KnownElement(e: LegendElement) {
    e.kind.Some? ==> e.kind.value in ElementKinds
  }

  /** A group whose elements, when given, are all known. */
  predicate KnownGroup(g: LegendGroup) {
    g.elements.Some? ==> forall e <- g.elements.value :: KnownElement(e)
  }

  predicate KnownElements(groups: seq<LegendGroup>) {
    forall i :: 0 <= i < |groups| ==> KnownGroup(groups[i])
  }

  /** `s.replace('_', ' ')`. */
  function ReplaceUnderscores(s: string): (r: string)
    ensures |r| == |s|
    ensures forall i :: 0 <= i < |s| ==> r[i] == (if s[i] == '_' then ' ' else s[i])
  {
    if s == [] then []
    else [if s[0] == '_' then ' ' else s[0]] + ReplaceUnderscores(s[1..])
  }

  /**
   * The header of a group: its name with underscores shown as spaces and a
   * trailing colon, which is how the legend recognises headers to embolden.
   */
  function Header(name: string): (h: string)
    ensures |h| == |name| + 1 && h[|name|] == ':'
    ensures '_' !in h
  {
    ReplaceUnderscores(name) + ":"
  }

  /** The handle built for a non-space element, with the source's defaults. */
  function MakeHandle(kind: string, e: LegendElement, color: string, caption: string): (h: Handle)
    requires kind in ElementKinds - {"space"}
    ensures h.caption == caption
    ensures h.PatchHandle? <==> kind == "patch"
    ensures h.LineHandle? <==> kind == "line" || kind == "arrow"
    ensures h.MarkerHandle? <==> kind == "marker"
    ensures h.PatchHandle? ==> h.facecolor == color && h.alpha == 0.5
    ensures h.LineHandle? ==>
              h.color == color && h.linestyle == e.linestyle.GetOr("-")
              && h.linewidth == e.linewidth.GetOr(1.0)
    ensures h.MarkerHandle? ==>
              h.color == color && h.marker == e.marker.GetOr("o") && h.linestyle == "None"
              && h.markersize == e.markersize.GetOr(10.0)
              && h.markeredgewidth == e.linewidth.GetOr(1.0)
  {
    if kind == "patch" then PatchHandle(color, 0.5, caption)
    else if kind == "line" || kind == "arrow" then
      LineHandle(color, e.linestyle.GetOr("-"), e.linewidth.GetOr(1.0), caption)
    else
      MarkerHandle(e.marker.GetOr("o"), color, "None", e.markersize.GetOr(10.0),
                   e.linewidth.GetOr(1.0), caption)
  }

  /** The (handle, label) pair one element contributes, or the exception it raises. */
  function ElementEntry(colors: ColorTree, e: LegendElement): (r: Result<(Handle, string), Error>)
    requires KnownElement(e)
    // A space needs no colour: it always gives a blank entry.
    ensures e.kind == Some("space") ==> r == Ok((Blank(" "), " "))
    ensures r.Ok? ==> r.value.0.caption == r.value.1
    // Any other element needs a type, a colour key that resolves and a label.
    ensures r.Ok? && e.kind != Some("space") ==>
              && e.kind.Some? && e.color.Some? && e.text == Some(r.value.1)
              && ColorOf(colors, e.color.value).Ok?
              && r.value.0 == MakeHandle(e.kind.value, e, ColorOf(colors, e.color.value).value, r.value.1)
    ensures r.Err? ==>
              || (e.kind.None? && r.error == KeyMissing("type"))
              || (e.color.None? && r.error == KeyMissing("color"))
              || (e.color.Some? && ColorOf(colors, e.color.value) == Err(r.error))
              || (e.text.None? && r.error == KeyMissing("label"))
    ensures (e.kind.Some? && e.color.Some? && e.text.Some? && ColorOf(colors, e.color.value).Ok?)
            ==> r.Ok?
  {
    if e.kind == Some("space") then Ok((Blank(" "), " "))
    else
      var kind :- Required(e.kind, "type");
      var key :- Required(e.color, "color");
      var color :- ColorOf(colors, key);
      var caption :- Required(e.text, "label");
      Ok((MakeHandle(kind, e, color, caption), caption))
  }

  /** The entries of a group's elements, in order. */
  function Entries(colors: ColorTree, elems: seq<LegendElement>): Result<Column, Error>
    requires forall e <- elems :: KnownElement(e)
  {
    if elems == [] then Ok(Column([], []))
    else
      var before :- Entries(colors, elems[..|elems| - 1]);
      var entry :- ElementEntry(colors, elems[|elems| - 1]);
      Ok(Column(before.handles + [entry.0], before.labels + [entry.1]))
  }

  /**
   * The entries hold one (handle, label) pair per element, in element order;
   * they fail exactly when an element does, with the first failing element's error.
   */
  lemma {:induction false} EntriesShape(colors: ColorTree, elems: seq<LegendElement>)
    requires forall e <- elems :: KnownElement(e)
    ensures Entries(colors, elems).Ok? ==>
              var col := Entries(colors, elems).value;
              && |col.handles| == |elems| && |col.labels| == |elems|
              && forall k :: 0 <= k < |elems| ==>
                   ElementEntry(colors, elems[k]) == Ok((col.handles[k], col.labels[k]))
    ensures Entries(colors, elems).Err? ==>
              exists k :: 0 <= k < |elems| && ElementEntry(colors, elems[k]) == Err(Entries(colors, elems).error)
                          && forall j :: 0 <= j < k ==> ElementEntry(colors, elems[j]).Ok?
  {
    if elems != [] {
      var n := |elems|;
      var prefix, last := elems[..n - 1], elems[n - 1];
      EntriesShape(colors, prefix);
      assert forall j :: 0 <= j < n - 1 ==> prefix[j] == elems[j];
      if Entries(colors, prefix).Ok? {
        var before := Entries(colors, prefix).value;
        if ElementEntry(colors, last).Ok? {
          var entry := ElementEntry(colors, last).value;
          var col := Column(before.handles + [entry.0], before.labels + [entry.1]);
          assert Entries(colors, elems) == Ok(col);
          forall k | 0 <= k < n
            ensures ElementEntry(colors, elems[k]) == Ok((col.handles[k], col.labels[k]))
          {
            if k < n - 1 {
              assert col.handles[k] == before.handles[k] && col.labels[k] == before.labels[k];
            }
          }
        } else {
          assert Entries(colors, elems) == Err(ElementEntry(colors, last).error);
        }
      } else {
        assert Entries(colors, elems) == Entries(colors, prefix);
      }
    }
  }

  /** `col` is the column of group `g`: the header, then one entry per element. */
  predicate ColumnOf(colors: ColorTree, g: LegendGroup, col: Column)
    requires g.elements.Some? && forall e <- g.elements.value :: KnownElement(e)
  {
    var elems := g.elements.value;
    && |col.handles| == |elems| + 1 && |col.labels| == |elems| + 1
    && col.handles[0] == Blank(Header(g.name)) && col.labels[0] == Header(g.name)
    && forall k :: 0 <= k < |elems| ==>
         && ElementEntry(colors, elems[k]) == Ok((col.handles[k + 1], col.labels[k + 1]))
         && col.labels[k + 1] == (if elems[k].kind == Some("space") then " " else elems[k].text.GetOr(""))
  }

  /** The column of one group, or the exception building it raises. */
  function GroupColumn(colors: ColorTree, g: LegendGroup): Result<Column, Error>
    requires KnownGroup(g)
  {
    var elems :- Required(g.elements, "elements");
    var body :- Entries(colors, elems);
    Ok(Column([Blank(Header(g.name))] + body.handles, [Header(g.name)] + body.labels))
  }

  /**
   * A group's column is its header followed by its elements' entries in
   * order; it fails on a missing `elements` key or on its first failing element.
   */
  lemma GroupColumnShape(colors: ColorTree, g: LegendGroup)
    requires KnownGroup(g)
    ensures g.elements.None? ==> GroupColumn(colors, g) == Err(KeyMissing("elements"))
    ensures GroupColumn(colors, g).Ok? ==> g.elements.Some? && ColumnOf(colors, g, GroupColumn(colors, g).value)
    ensures GroupColumn(colors, g).Err? && g.elements.Some? ==>
              Entries(colors, g.elements.value) == Err(GroupColumn(colors, g).error)
  {
    if g.elements.Some? && Entries(colors, g.elements.value).Ok? {
      var elems := g.elements.value;
      EntriesShape(colors, elems);
      var body := Entries(colors, elems).value;
      var col := Column([Blank(Header(g.name))] + body.handles, [Header(g.name)] + body.labels);
      assert GroupColumn(colors, g) == Ok(col);
      HeaderThenEntries(colors, g, body, col);
    }
  }

  /** The label an element contributes: a blank for a space, its `label` otherwise. */
  lemma EntryLabel(colors: ColorTree, e: LegendElement, entry: (Handle, string))
    requires KnownElement(e) && ElementEntry(colors, e) == Ok(entry)
    ensures entry.1 == (if e.kind == Some("space") then " " else e.text.GetOr(""))
  {
  }

  lemma HeaderThenEntries(colors: ColorTree, g: LegendGroup, body: Column, col: Column)
    requires g.elements.Some? && forall e <- g.elements.value :: KnownElement(e)
    requires |body.handles| == |g.elements.value| && |body.labels| == |g.elements.value|
    requires forall k :: 0 <= k < |g.elements.value| ==>
               ElementEntry(colors, g.elements.value[k]) == Ok((body.handles[k], body.labels[k]))
    requires col == Column([Blank(Header(g.name))] + body.handles, [Header(g.name)] + body.labels)
    ensures ColumnOf(colors, g, col)
  {
    var elems := g.elements.value;
    forall k | 0 <= k < |elems|
      ensures ElementEntry(colors, elems[k]) == Ok((col.handles[k + 1], col.labels[k + 1]))
      ensures col.labels[k + 1] == (if elems[k].kind == Some("space") then " " else elems[k].text.GetOr(""))
    {
      assert col.handles[k + 1] == body.handles[k] && col.labels[k + 1] == body.labels[k];
      EntryLabel(colors, elems[k], (body.handles[k], body.labels[k]));
    }
  }

  /** The columns of the whole legend, one per group in order, or the first group's exception. */
  function Legend(colors: ColorTree, groups: seq<LegendGroup>): Result<seq<Column>, Error>
    requires KnownElements(groups)
  {
    if groups == [] then Ok([])
    else
      var before :- Legend(colors, groups[..|groups| - 1]);
      var column :- GroupColumn(colors, groups[|groups| - 1]);
      Ok(before + [column])
  }

  /**
   * The legend has one column per group, in group order (so the number of
   * columns is the number of groups); the first failing group decides the
   * error.
   */
  lemma {:induction false} LegendShape(colors: ColorTree, groups: seq<LegendGroup>)
    requires KnownElements(groups)
    ensures Legend(colors, groups).Ok? ==>
              && |Legend(colors, groups).value| == |groups|
              && forall i :: 0 <= i < |groups| ==> GroupColumn(colors, groups[i]) == Ok(Legend(colors, groups).value[i])
    ensures Legend(colors, groups).Err? ==>
              exists i :: 0 <= i < |groups| && GroupColumn(colors, groups[i]) == Err(Legend(colors, groups).error)
                          && forall j :: 0 <= j < i ==> GroupColumn(colors, groups[j]).Ok?
  {
    if groups != [] {
      var n := |groups|;
      var prefix, last := groups[..n - 1], groups[n - 1];
      assert KnownElements(prefix);
      LegendShape(colors, prefix);
      assert forall j :: 0 <= j < n - 1 ==> prefix[j] == groups[j];
      if Legend(colors, prefix).Ok? {
        var before := Legend(colors, prefix).value;
        if GroupColumn(colors, last).Ok? {
          var cols := before + [GroupColumn(colors, last).value];
          assert Legend(colors, groups) == Ok(cols);
          forall i | 0 <= i < n
            ensures GroupColumn(colors, groups[i]) == Ok(cols[i])
          {
            if i < n - 1 {
              assert cols[i] == before[i];
            }
          }
        } else {
          assert Legend(colors, groups) == Err(GroupColumn(colors, last).error);
        }
      } else {
        assert Legend(colors, groups) == Legend(colors, prefix);
      }
    }
  }

  /**
   * A legend that is built has one column per group (the `ncols` of the
   * figure), each starting with the group's header and then listing its
   * elements' labels in order, a blank label for every space.
   */
  lemma LegendLayout(colors: ColorTree, groups: seq<LegendGroup>)
    requires KnownElements(groups) && Legend(colors, groups).Ok?
    ensures |Legend(colors, groups).value| == |groups|
    ensures forall i :: 0 <= i < |groups| ==>
              groups[i].elements.Some? && ColumnOf(colors, groups[i], Legend(colors, groups).value[i])
  {
    var cols := Legend(colors, groups).value;
    LegendShape(colors, groups);
    forall i | 0 <= i < |groups|
      ensures groups[i].elements.Some? && ColumnOf(colors, groups[i], cols[i])
    {
      GroupColumnShape(colors, groups[i]);
    }
  }

  /** One more element appends its entry to the entries of those before it. */
  lemma EntriesStep(colors: ColorTree, elems: seq<LegendElement>, k: nat, before: Column)
    requires forall e <- elems :: KnownElement(e)
    requires k < |elems| && Entries(colors, elems[..k]) == Ok(before)
    ensures Entries(colors, elems[..k + 1])
            == match ElementEntry(colors, elems[k])
               case Err(e) => Err(e)
               case Ok(entry) => Ok(Column(before.handles + [entry.0], before.labels + [entry.1]))
  {
    assert elems[..k + 1][..k] == elems[..k];
  }

  /** A failing element makes the entries of every longer list of elements fail the same way. */
  lemma {:induction false} EntriesPrefixFailure(colors: ColorTree, elems: seq<LegendElement>, n: nat)
    requires forall e <- elems :: KnownElement(e)
    requires n <= |elems| && Entries(colors, elems[..n]).Err?
    ensures Entries(colors, elems) == Entries(colors, elems[..n])
    decreases |elems| - n
  {
    if n < |elems| {
      var shorter := elems[..|elems| - 1];
      assert shorter[..n] == elems[..n];
      EntriesPrefixFailure(colors, shorter, n);
    } else {
      assert elems[..n] == elems;
    }
  }

  /** A failing group makes the legend of every longer list of groups fail the same way. */
  lemma {:induction false} LegendPrefixFailure(colors: ColorTree, groups: seq<LegendGroup>, n: nat)
    requires KnownElements(groups)
    requires n <= |groups| && Legend(colors, groups[..n]).Err?
    ensures Legend(colors, groups) == Legend(colors, groups[..n])
    decreases |groups| - n
  {
    if n < |groups| {
      var shorter := groups[..|groups| - 1];
      assert shorter[..n] == groups[..n];
      LegendPrefixFailure(colors, shorter, n);
    } else {
      assert groups[..n] == groups;
    }
  }

  /** A group made of spaces only needs no colour table and never fails. */
  lemma {:induction false} SpacesNeverFail(colors: ColorTree, elems: seq<LegendElement>)
    requires forall e <- elems :: e.kind == Some("space")
    ensures Entries(colors, elems) == Ok(Column(seq(|elems|, _ => Blank(" ")), seq(|elems|, _ => " ")))
  {
    if elems != [] {
      var n := |elems|;
      SpacesNeverFail(colors, elems[..n - 1]);
      assert seq(n, _ => Blank(" ")) == seq(n - 1, _ => Blank(" ")) + [Blank(" ")];
      assert seq(n, _ => " ") == seq(n - 1, _ => " ") + [" "];
    } else {
      assert seq(0, _ => Blank(" ")) == [];
      assert seq(0, _ => " ") == [];
    }
  }

  /** One element of `_add_legend`'s inner loop, with `_get_color` as the walk it performs. */
  method LegendEntry(colors: ColorTree, e: LegendElement) returns (r: Result<(Handle, string), Error>)
    requires KnownElement(e)
    ensures r == ElementEntry(colors, e)
  {
    if e.kind == Some("space") {
      return Ok((Blank(" "), " "));
    }
    if e.kind.None? {
      return Err(KeyMissing("type"));
    }
    if e.color.None? {
      return Err(KeyMissing("color"));
    }
    var color := GetColor(colors, e.color.value);
    if color.Err? {
      return Err(color.error);
    }
    if e.text.None? {
      return Err(KeyMissing("label"));
    }
    r := Ok((MakeHandle(e.kind.value, e, color.value, e.text.value), e.text.value));
  }

  /** The body of `_add_legend`'s group loop: a header, then one entry per element appended in order. */
  method GroupEntries(colors: ColorTree, group: LegendGroup) returns (r: Result<Column, Error>)
    requires KnownGroup(group)
    ensures r == GroupColumn(colors, group)
  {
    var header := Header(group.name);
    var groupHandles := [Blank(header)];
    var groupLabels := [header];
    if group.elements.None? {
      return Err(KeyMissing("elements"));
    }
    var elements := group.elements.value;
    ghost var body := Column([], []);
    assert elements[..0] == [];
    for k := 0 to |elements|
      invariant Entries(colors, elements[..k]) == Ok(body)
      invariant groupHandles == [Blank(header)] + body.handles
      invariant groupLabels == [header] + body.labels
    {
      var entry := LegendEntry(colors, elements[k]);
      EntriesStep(colors, elements, k, body);
      if entry.Err? {
        EntriesPrefixFailure(colors, elements, k + 1);
        return Err(entry.error);
      }
      groupHandles := groupHandles + [entry.value.0];
      groupLabels := groupLabels + [entry.value.1];
      body := Column(body.handles + [entry.value.0], body.labels + [entry.value.1]);
    }
    assert elements[..|elements|] == elements;
    r := Ok(Column(groupHandles, groupLabels));
  }

  /** `_add_legend`'s `legends` list: one column appended per group, in order. */
  method AddLegend(colors: ColorTree, groups: seq<LegendGroup>) returns (r: Result<seq<Column>, Error>)
    requires KnownElements(groups)
    ensures r == Legend(colors, groups)
  {
    var legends: seq<Column> := [];
    for i := 0 to |groups|
      invariant Legend(colors, groups[..i]) == Ok(legends)
    {
      assert groups[..i + 1][..i] == groups[..i];
      var column := GroupEntries(colors, groups[i]);
      if column.Err? {
        LegendPrefixFailure(colors, groups, i + 1);
        return Err(column.error);
      }
      legends := legends + [column.value];
    }
    assert groups[..|groups|] == groups;
    r := Ok(legends);
  }
}
