/** The fixed catalog of embedded SVG resources that the view model offers:
    18 asset names in declaration order, each paired with the path of its
    embedded resource, `SvgSliceSpike.Assets.<name>.svg`. */
module Catalog {

  datatype Option<T> = None | Some(value: T)

  /** One pair of the catalog list: the asset name and its resource path. */
  datatype Entry = Entry(key: string, value: string)

  /** The asset names, in the order the source declares them. */
  const Names: seq<string> := [
    "twintechs-logo",
    "test-button",
    "ErulisseuiinSpaceshipPack",
    "MocastIcon",
    "repeat",
    "sliderThumb",
    "Smile",
    "SunAtNight",
    "TextVariations",
    "mozilla.BezierCurves1",
    "mozilla.BezierCurves2",
    "mozilla.ellipse",
    "mozilla.path",
    "mozilla.Text1",
    "mozilla.Text2",
    "mozilla.Text3",
    "mozilla.Text4",
    "mozilla.transform"
  ]

  const PathPrefix: string := "SvgSliceSpike.Assets."
  const PathSuffix: string := ".svg"

  /** The resource path the catalog pairs with an asset name. */
  function AssetPath(name: string): string {
    PathPrefix + name + PathSuffix
  }

  ghost predicate Distinct(s: seq<string>) {
    forall i, j :: 0 <= i < j < |s| ==> s[i] != s[j]
  }

  /** Builds the name-to-path dictionary by inserting the names one after
      another and lists its pairs. The list is taken to follow insertion
      order (what the .NET dictionary does when nothing is removed); adding a
      key the dictionary already holds throws, which is `None` here. */
  function ToDictionaryList(names: seq<string>): (r: Option<seq<Entry>>)
    ensures r.Some? <==> Distinct(names)
    ensures r.Some? ==> |r.value| == |names|
    ensures r.Some? ==> forall i :: 0 <= i < |names| ==>
      r.value[i] == Entry(names[i], AssetPath(names[i]))
    decreases |names|
  {
    if names == [] then Some([])
    else
      var front, last := names[..|names| - 1], names[|names| - 1];
      match ToDictionaryList(front)
      case None => None
      case Some(entries) =>
        if exists e | e in entries :: e.key == last then None
        else Some(entries + [Entry(last, AssetPath(last))])
  }

  lemma NamesDistinct()
    ensures Distinct(Names)
  {
  }

  /** The catalog list, built once from the names (the static initialiser). */
  function AvailableResources(): (c: seq<Entry>)
    ensures |c| == |Names| == 18
    ensures forall i :: 0 <= i < |c| ==> c[i] == Entry(Names[i], AssetPath(Names[i]))
  {
    NamesDistinct();
    ToDictionaryList(Names).value
  }

  /** The asset names the picker offers: the catalog's keys projected in
      catalog order. */
  function AvailableResourceNames(): (names: seq<string>)
    ensures names == Names
    ensures |names| == 18 && names[0] == "twintechs-logo"
    ensures Distinct(names)
  {
    NamesDistinct();
    var c := AvailableResources();
    seq(|c|, i requires 0 <= i < |c| => c[i].key)
  }

  /** The path of the catalog entry at `index`; an index outside the catalog
      has no entry (the list indexer throws). */
  function ResourcePath(index: int): (p: string)
    requires 0 <= index < |Names|
    ensures p == PathPrefix + Names[index] + PathSuffix
  {
    AvailableResources()[index].value
  }

  /** Different names give different paths. */
  lemma AssetPathInjective(a: string, b: string)
    requires AssetPath(a) == AssetPath(b)
    ensures a == b
  {
    var n := |PathPrefix|;
    assert a == AssetPath(a)[n..|AssetPath(a)| - |PathSuffix|];
    assert b == AssetPath(b)[n..|AssetPath(b)| - |PathSuffix|];
  }

  /** Different catalog positions hold different paths, so the index and the
      path determine each other. */
  lemma ResourcePathsDistinct(i: int, j: int)
    requires 0 <= i < |Names| && 0 <= j < |Names|
    ensures ResourcePath(i) == ResourcePath(j) <==> i == j
  {
    if ResourcePath(i) == ResourcePath(j) {
      AssetPathInjective(Names[i], Names[j]);
      NamesDistinct();
    }
  }
}
