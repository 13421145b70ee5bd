/** The view model behind the nine-slice demo page: an inset magnitude and the
    index of the selected catalog resource, two setters that short-circuit on
    an unchanged value and otherwise raise two change notifications each, and
    the values derived from them (the stretchable insets, the resource path).

    The state is first described as a value (`State`) with the setters as
    functions on it and a replay of a whole sequence of setter calls; the
    class `TestModel` then keeps the same fields in place and is proved to
    follow that description. */
module ViewModel {
  import opened Catalog

  /** The stretchable insets handed to the SVG image. The model knows only
      the uniform magnitude the view model constructs them from. */
  datatype Insets = Uniform(magnitude: int)

  /** The property names carried by the change notifications. */
  datatype Property =
    | AllSidesInsetProperty
    | SvgInsetsProperty
    | SvgResourceIndexProperty
    | SvgResourcePathProperty

  /** The view model's fields; `insets` is the cached insets object (None
      while it has never been assigned) and `log` the notifications raised
      so far, oldest first. */
  datatype State = State(inset: int, insets: Option<Insets>, index: int, log: seq<Property>)

  /** One call of a setter, as the two-way bindings of the slider and the
      picker issue them. */
  datatype Assignment = AssignInset(inset: int) | AssignIndex(index: int)

  /** The fields' default values, before the constructor body runs. */
  function Fresh(): (r: State)
    ensures Consistent(r) && Paired(r.log)
  {
    State(0, None, 0, [])
  }

  /** The `AllSidesInset` setter. It stores the value, changes nothing at
      all exactly when the value is the current one, never touches the
      index, adds at most two notifications to the log, and keeps the cached
      insets consistent with the magnitude. */
  function WithAllSidesInset(s: State, value: int): (r: State)
    ensures r.inset == value && r.index == s.index
    ensures r == s <==> value == s.inset
    ensures s.log <= r.log && |r.log| <= |s.log| + 2
    ensures Consistent(s) ==> Consistent(r)
  {
    if value == s.inset then s
    else s.(inset := value, insets := Some(Uniform(value)),
            log := s.log + [AllSidesInsetProperty, SvgInsetsProperty])
  }

  /** The `SvgResourceIndex` setter; it does not check the index. It stores
      the value, changes nothing at all exactly when the value is the current
      one, never touches the magnitude or the insets, and adds at most two
      notifications to the log. */
  function WithSvgResourceIndex(s: State, value: int): (r: State)
    ensures r.index == value && r.inset == s.inset && r.insets == s.insets
    ensures r == s <==> value == s.index
    ensures s.log <= r.log && |r.log| <= |s.log| + 2
  {
    if value == s.index then s
    else s.(index := value,
            log := s.log + [SvgResourceIndexProperty, SvgResourcePathProperty])
  }

  function Apply(s: State, a: Assignment): State {
    match a
    case AssignInset(n) => WithAllSidesInset(s, n)
    case AssignIndex(i) => WithSvgResourceIndex(s, i)
  }

  /** The state after the given setter calls, in order, from the defaults;
      each call has raised at most two notifications. */
  function Replay(history: seq<Assignment>): (r: State)
    ensures |r.log| <= 2 * |history|
    decreases |history|
  {
    if history == [] then Fresh()
    else Apply(Replay(history[..|history| - 1]), history[|history| - 1])
  }

  /** The setter calls the constructor makes: `AllSidesInset = 0`. */
  const ConstructorCalls: seq<Assignment> := [AssignInset(0)]

  /** The cached insets agree with the magnitude: either they were never
      assigned and the magnitude is still its default 0, or they are the
      uniform insets of the current magnitude. */
  ghost predicate Consistent(s: State) {
    (s.insets == None && s.inset == 0) || s.insets == Some(Uniform(s.inset))
  }

  /** The two notifications one effective setter call raises, primary first. */
  predicate NotificationPair(primary: Property, dependent: Property) {
    (primary == AllSidesInsetProperty && dependent == SvgInsetsProperty) ||
    (primary == SvgResourceIndexProperty && dependent == SvgResourcePathProperty)
  }

  /** A log made only of whole notification pairs. */
  ghost predicate Paired(log: seq<Property>)
    decreases |log|
  {
    log == [] || (|log| >= 2 && NotificationPair(log[0], log[1]) && Paired(log[2..]))
  }

  // ---- one setter call -------------------------------------------------

  /** Setting a property to its current value changes nothing and raises
      nothing. */
  lemma SetToCurrentIsNoOp(s: State)
    ensures WithAllSidesInset(s, s.inset) == s
    ensures WithSvgResourceIndex(s, s.index) == s
  {
  }

  /** Setting the same value twice in a row gives the state of setting it
      once; the second call raises nothing. */
  lemma ApplyIdempotent(s: State, a: Assignment)
    ensures Apply(Apply(s, a), a) == Apply(s, a)
  {
  }

  /** A new magnitude is stored, the insets are rebuilt from it, the
      notifications for `AllSidesInset` then `SvgInsets` are appended, and
      the index is left alone. */
  lemma SetInsetEffect(s: State, value: int)
    requires value != s.inset
    ensures WithAllSidesInset(s, value) ==
      State(value, Some(Uniform(value)), s.index,
            s.log + [AllSidesInsetProperty, SvgInsetsProperty])
  {
  }

  /** A new index is stored, the notifications for `SvgResourceIndex` then
      `SvgResourcePath` are appended, and the magnitude and the insets are
      left alone. */
  lemma SetIndexEffect(s: State, value: int)
    requires value != s.index
    ensures WithSvgResourceIndex(s, value) ==
      State(s.inset, s.insets, value,
            s.log + [SvgResourceIndexProperty, SvgResourcePathProperty])
  {
  }

  /** In a consistent state the `SvgInsets` notification is raised exactly
      when the insets object the view reads changes. */
  lemma InsetsNotifiedIffChanged(s: State, value: int)
    requires Consistent(s)
    ensures var t := WithAllSidesInset(s, value);
      (SvgInsetsProperty in t.log[|s.log|..]) <==> t.insets != s.insets
  {
    var t := WithAllSidesInset(s, value);
    if value == s.inset {
      assert t.log[|s.log|..] == [];
    } else {
      assert t.log[|s.log|..] == [AllSidesInsetProperty, SvgInsetsProperty];
    }
  }

  /** With the old and new indices inside the catalog, the
      `SvgResourcePath` notification is raised exactly when the path the
      view reads changes. */
  lemma PathNotifiedIffChanged(s: State, value: int)
    requires 0 <= s.index < |Names| && 0 <= value < |Names|
    ensures var t := WithSvgResourceIndex(s, value);
      (SvgResourcePathProperty in t.log[|s.log|..]) <==>
      ResourcePath(t.index) != ResourcePath(s.index)
  {
    var t := WithSvgResourceIndex(s, value);
    ResourcePathsDistinct(value, s.index);
    if value == s.index {
      assert t.log[|s.log|..] == [];
    } else {
      assert t.log[|s.log|..] == [SvgResourceIndexProperty, SvgResourcePathProperty];
    }
  }

  // ---- sequences of setter calls ---------------------------------------

  lemma ReplayAppend(history: seq<Assignment>, a: Assignment)
    ensures Replay(history + [a]) == Apply(Replay(history), a)
  {
    assert (history + [a])[..|history|] == history;
  }

  /** Whatever setters are called, the cached insets stay consistent with
      the magnitude. */
  lemma {:induction false} ReplayConsistent(history: seq<Assignment>)
    ensures Consistent(Replay(history))
    decreases |history|
  {
    if history != [] {
      ReplayConsistent(history[..|history| - 1]);
    }
  }

  lemma {:induction false} PairedAppend(log: seq<Property>, primary: Property, dependent: Property)
    requires Paired(log) && NotificationPair(primary, dependent)
    ensures Paired(log + [primary, dependent])
    decreases |log|
  {
    if log != [] {
      PairedAppend(log[2..], primary, dependent);
      assert (log + [primary, dependent])[2..] == log[2..] + [primary, dependent];
    } else {
      assert [primary, dependent][2..] == [];
    }
  }

  /** Whatever setters are called, the notifications come in whole pairs,
      each primary property immediately followed by the property derived
      from it. */
  lemma {:induction false} ReplayLogPaired(history: seq<Assignment>)
    ensures Paired(Replay(history).log)
    decreases |history|
  {
    if history != [] {
      var s := Replay(history[..|history| - 1]);
      ReplayLogPaired(history[..|history| - 1]);
      match history[|history| - 1]
      case AssignInset(n) =>
        if n != s.inset {
          PairedAppend(s.log, AllSidesInsetProperty, SvgInsetsProperty);
        }
      case AssignIndex(i) =>
        if i != s.index {
          PairedAppend(s.log, SvgResourceIndexProperty, SvgResourcePathProperty);
        }
    }
  }

  /** Every index handed to the setter lies inside the catalog (as the
      picker, filled from the catalog, guarantees), so the path can be read
      after any sequence of calls. */
  lemma {:induction false} ReplayIndexInRange(history: seq<Assignment>)
    requires forall k :: 0 <= k < |history| && history[k].AssignIndex? ==>
      0 <= history[k].index < |Names|
    ensures 0 <= Replay(history).index < |Names|
    decreases |history|
  {
    if history != [] {
      ReplayIndexInRange(history[..|history| - 1]);
    }
  }

  /** The constructor's `AllSidesInset = 0` meets the default 0 and
      short-circuits: no notification, the insets stay unassigned, and the
      path is that of the first catalog entry. */
  lemma ConstructedState()
    ensures Replay(ConstructorCalls) == State(0, None, 0, [])
    ensures ResourcePath(Replay(ConstructorCalls).index) ==
      "SvgSliceSpike.Assets.twintechs-logo.svg"
  {
    assert ConstructorCalls[..0] == [];
  }

  /** The insets are a cache, not a function of the magnitude: after the
      constructor, and after moving the magnitude to 5 and back to 0, the
      magnitude and index agree but the insets do not. */
  lemma SvgInsetsDependOnHistory()
    ensures var a := Replay(ConstructorCalls);
      var b := Replay(ConstructorCalls + [AssignInset(5), AssignInset(0)]);
      a.inset == b.inset && a.index == b.index &&
      a.insets == None && b.insets == Some(Uniform(0))
  {
    var h := ConstructorCalls + [AssignInset(5), AssignInset(0)];
    ReplayAppend(ConstructorCalls, AssignInset(5));
    ReplayAppend(ConstructorCalls + [AssignInset(5)], AssignInset(0));
    assert h == ConstructorCalls + [AssignInset(5)] + [AssignInset(0)];
    ConstructedState();
  }

  // ---- the object ------------------------------------------------------

  class TestModel {
    var allSidesInset: int
    var svgInsets: Option<Insets>
    var svgResourceIndex: int
    /** The notifications raised so far, oldest first. */
    ghost var log: seq<Property>
    /** The setter calls made so far, the constructor's included. */
    ghost var history: seq<Assignment>

    /** The fields as a value. */
    ghost function Snapshot(): State
      reads this
    {
      State(allSidesInset, svgInsets, svgResourceIndex, log)
    }

    /** The fields are those the recorded setter calls produce. */
    ghost predicate Valid()
      reads this
    {
      Snapshot() == Replay(history)
    }

    constructor()
      ensures Valid() && history == ConstructorCalls
      ensures allSidesInset == 0 && svgResourceIndex == 0
      ensures svgInsets == None && log == []
    {
      allSidesInset := 0;
      svgInsets := None;
      svgResourceIndex := 0;
      log := [];
      history := [];
      new;
      SetAllSidesInset(0);
    }

    method SetAllSidesInset(value: int)
      requires Valid()
      modifies this
      ensures Valid() && history == old(history) + [AssignInset(value)]
      ensures value == old(allSidesInset) ==> Snapshot() == old(Snapshot())
      ensures value != old(allSidesInset) ==>
        allSidesInset == value && svgInsets == Some(Uniform(value)) &&
        log == old(log) + [AllSidesInsetProperty, SvgInsetsProperty]
      ensures svgResourceIndex == old(svgResourceIndex)
    {
      if value != allSidesInset {
        allSidesInset := value;
        svgInsets := Some(Uniform(allSidesInset));
        log := log + [AllSidesInsetProperty];
        log := log + [SvgInsetsProperty];
      }
      assert Snapshot() == WithAllSidesInset(old(Snapshot()), value);
      ReplayAppend(history, AssignInset(value));
      history := history + [AssignInset(value)];
    }

    method SetSvgResourceIndex(value: int)
      requires Valid()
      modifies this
      ensures Valid() && history == old(history) + [AssignIndex(value)]
      ensures value == old(svgResourceIndex) ==> Snapshot() == old(Snapshot())
      ensures value != old(svgResourceIndex) ==>
        svgResourceIndex == value &&
        log == old(log) + [SvgResourceIndexProperty, SvgResourcePathProperty]
      ensures allSidesInset == old(allSidesInset) && svgInsets == old(svgInsets)
    {
      if value != svgResourceIndex {
        svgResourceIndex := value;
        log := log + [SvgResourceIndexProperty];
        log := log + [SvgResourcePathProperty];
      }
      assert Snapshot() == WithSvgResourceIndex(old(Snapshot()), value);
      ReplayAppend(history, AssignIndex(value));
      history := history + [AssignIndex(value)];
    }

    /** The insets last built by the inset setter: unassigned only while the
        magnitude has never left 0, otherwise uniform of the magnitude. */
    function SvgInsets(): (r: Option<Insets>)
      reads this
      requires Valid()
      ensures (r == None && allSidesInset == 0) || r == Some(Uniform(allSidesInset))
    {
      ReplayConsistent(history);
      svgInsets
    }

    /** The path of the selected catalog entry; the index must lie inside
        the catalog, which the setter does not check. */
    function SvgResourcePath(): (p: string)
      reads this
      requires 0 <= svgResourceIndex < |Names|
      ensures p == "SvgSliceSpike.Assets." + Names[svgResourceIndex] + ".svg"
    {
      ResourcePath(svgResourceIndex)
    }
  }
}
