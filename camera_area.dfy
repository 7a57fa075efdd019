/** Camera areas, from scenes/objects/triggers/Camera Area Trigger/CameraAreaTrigger.cs,
    and how the player camera folds the areas a player is inside into one
    set of framing options (scenes/objects/player/scripts/PlayerCamera.cs). */
module CameraAreas {
  import opened Wrappers
  import opened Vectors

  /** `CameraAreaOptions`, a 32-bit flags enum. */
  type Options = bv32

  const CenterPositionX: Options := 1
  const CenterPositionY: Options := 2
  const OverrideZoom: Options := 4
  const SetHorizontalLimits: Options := 8
  const SetVerticalLimits: Options := 16
  const OverrideOffset: Options := 32
  const InstantTransitionOnEnter: Options := 64
  const OverrideOverlapingAreasOptions: Options := 128

  predicate Has(options: Options, flag: Options) {
    options & flag != 0
  }

  /** A camera area trigger as the camera sees it. */
  datatype Trigger = Trigger(options: Options, position: Vec2, zoom: real, offset: Vec2)

  /** The options after one more area: an overriding area replaces what was
      gathered so far, any other adds its options. */
  function StepOptions(gathered: Options, t: Trigger): (r: Options)
    ensures Has(t.options, OverrideOverlapingAreasOptions) ==> r == t.options
    ensures !Has(t.options, OverrideOverlapingAreasOptions) ==> r == gathered | t.options
  {
    if Has(t.options, OverrideOverlapingAreasOptions) then t.options else gathered | t.options
  }

  /** The union of the areas' options. */
  function UnionOf(ts: seq<Trigger>): Options
    decreases |ts|
  {
    if |ts| == 0 then 0 else UnionOf(ts[..|ts| - 1]) | ts[|ts| - 1].options
  }

  /** The index of the last overriding area, if any. */
  function LastOverride(ts: seq<Trigger>): (k: Option<nat>)
    ensures k.Some? ==> k.value < |ts| && Has(ts[k.value].options, OverrideOverlapingAreasOptions)
    ensures k.Some? ==> forall j :: k.value < j < |ts| ==> !Has(ts[j].options, OverrideOverlapingAreasOptions)
    ensures k.None? ==> forall j :: 0 <= j < |ts| ==> !Has(ts[j].options, OverrideOverlapingAreasOptions)
    decreases |ts|
  {
    if |ts| == 0 then None
    else if Has(ts[|ts| - 1].options, OverrideOverlapingAreasOptions) then Some(|ts| - 1)
    else LastOverride(ts[..|ts| - 1])
  }

  /** What the fold carries: the options so far, the centring position, the
      zoom and the offset that the options so far select. */
  datatype Framing = Framing(options: Options, target: Vec2, zoom: real, offset: Vec2)

  /** One area of the fold: the options are updated first, and then the
      area's centre, zoom and offset are taken where the options so far ask
      for them. */
  function Step(f: Framing, t: Trigger): Framing {
    var o := StepOptions(f.options, t);
    Framing(o,
            Vec2(if Has(o, CenterPositionX) then t.position.x else f.target.x,
                 if Has(o, CenterPositionY) then t.position.y else f.target.y),
            if Has(o, OverrideZoom) then t.zoom else f.zoom,
            if Has(o, OverrideOffset) then t.offset else f.offset)
  }

  /** The fold over the areas in order. */
  function Fold(f: Framing, ts: seq<Trigger>): Framing
    decreases |ts|
  {
    if |ts| == 0 then f else Step(Fold(f, ts[..|ts| - 1]), ts[|ts| - 1])
  }

  /** The options alone, folded over the areas. */
  function FoldedOptions(start: Options, ts: seq<Trigger>): Options
    decreases |ts|
  {
    if |ts| == 0 then start else StepOptions(FoldedOptions(start, ts[..|ts| - 1]), ts[|ts| - 1])
  }

  /** The fold's options depend on nothing but the starting options and the
      areas' options. */
  lemma {:induction false} FoldHasFoldedOptions(f: Framing, ts: seq<Trigger>)
    ensures Fold(f, ts).options == FoldedOptions(f.options, ts)
    decreases |ts|
  {
    if |ts| > 0 {
      FoldHasFoldedOptions(f, ts[..|ts| - 1]);
    }
  }

  /** The folded options are those of the last overriding area together
      with everything after it, or, with no overriding area, everything
      together with the starting options. */
  lemma FoldOptions(f: Framing, ts: seq<Trigger>)
    ensures var k := LastOverride(ts);
      Fold(f, ts).options
      == if k.Some? then ts[k.value].options | UnionOf(ts[k.value + 1..]) else f.options | UnionOf(ts)
  {
    FoldHasFoldedOptions(f, ts);
    var k := LastOverride(ts);
    if k.Some? {
      FoldedAfterLastOverride(f.options, ts);
    } else {
      FoldedWithoutOverride(f.options, ts);
    }
  }

  /** The options folded over all the areas, when one of them overrides. */
  lemma FoldedAfterLastOverride(o: Options, ts: seq<Trigger>)
    requires LastOverride(ts).Some?
    ensures var k := LastOverride(ts).value;
      FoldedOptions(o, ts) == ts[k].options | UnionOf(ts[k + 1..])
  {
    var k := LastOverride(ts).value;
    FoldedFromOverride(o, ts, k, |ts|);
    assert ts[..|ts|] == ts;
    assert ts[k + 1..|ts|] == ts[k + 1..];
  }

  /** Over a prefix that ends after an overriding area `k` with no later
      one, the folded options are `k`'s together with those after it. */
  lemma {:induction false} FoldedFromOverride(o: Options, ts: seq<Trigger>, k: nat, m: nat)
    requires k < m <= |ts| && Has(ts[k].options, OverrideOverlapingAreasOptions)
    requires forall j :: k < j < m ==> !Has(ts[j].options, OverrideOverlapingAreasOptions)
    ensures FoldedOptions(o, ts[..m]) == ts[k].options | UnionOf(ts[k + 1..m])
    decreases m
  {
    if m == k + 1 {
      FoldedAtOverride(o, ts, k);
    } else {
      FoldedFromOverride(o, ts, k, m - 1);
      FoldedPastOverride(o, ts, k, m);
    }
  }

  /** One more non-overriding area after the override adds its options. */
  lemma FoldedPastOverride(o: Options, ts: seq<Trigger>, k: nat, m: nat)
    requires k + 1 < m <= |ts| && !Has(ts[m - 1].options, OverrideOverlapingAreasOptions)
    requires FoldedOptions(o, ts[..m - 1]) == ts[k].options | UnionOf(ts[k + 1..m - 1])
    ensures FoldedOptions(o, ts[..m]) == ts[k].options | UnionOf(ts[k + 1..m])
  {
    FoldedPrefix(o, ts, m);
    UnionSlice(ts, k + 1, m);
    OrAssociative(ts[k].options, UnionOf(ts[k + 1..m - 1]), ts[m - 1].options);
  }

  /** The options folded up to and including an overriding area are its own. */
  lemma FoldedAtOverride(o: Options, ts: seq<Trigger>, k: nat)
    requires k < |ts| && Has(ts[k].options, OverrideOverlapingAreasOptions)
    ensures FoldedOptions(o, ts[..k + 1]) == ts[k].options | UnionOf(ts[k + 1..k + 1])
  {
    FoldedPrefix(o, ts, k + 1);
    UnionEmpty(ts, k + 1);
  }

  /** Folding a prefix one area longer is one more step. */
  lemma FoldedPrefix(o: Options, ts: seq<Trigger>, m: nat)
    requires 0 < m <= |ts|
    ensures FoldedOptions(o, ts[..m]) == StepOptions(FoldedOptions(o, ts[..m - 1]), ts[m - 1])
  {
    assert ts[..m][..m - 1] == ts[..m - 1];
  }

  /** No areas contribute no options. */
  lemma UnionEmpty(ts: seq<Trigger>, m: nat)
    requires m <= |ts|
    ensures UnionOf(ts[m..m]) == 0
  {
    assert ts[m..m] == [];
  }

  /** The union over a slice is the union over all but its last area,
      together with the last area's options. */
  lemma UnionSlice(ts: seq<Trigger>, i: nat, m: nat)
    requires i < m <= |ts|
    ensures UnionOf(ts[i..m]) == UnionOf(ts[i..m - 1]) | ts[m - 1].options
  {
    var s := ts[i..m];
    assert s[..|s| - 1] == ts[i..m - 1];
  }

  /** Without an overriding area, every area adds its options to the
      starting ones. */
  lemma {:induction false} FoldedWithoutOverride(o: Options, ts: seq<Trigger>)
    requires LastOverride(ts).None?
    ensures FoldedOptions(o, ts) == o | UnionOf(ts)
    decreases |ts|
  {
    if |ts| > 0 {
      FoldedWithoutOverride(o, ts[..|ts| - 1]);
      OrAssociative(o, UnionOf(ts[..|ts| - 1]), ts[|ts| - 1].options);
    }
  }

  /** Bitwise or is associative. */
  lemma OrAssociative(a: Options, b: Options, c: Options)
    ensures (a | b) | c == a | (b | c)
  {
  }

  /** With no overriding area and nothing gathered yet, the options are
      simply the union of all the areas' options. */
  lemma NoOverrideIsUnion(f: Framing, ts: seq<Trigger>)
    requires f.options == 0
    requires forall j :: 0 <= j < |ts| ==> !Has(ts[j].options, OverrideOverlapingAreasOptions)
    ensures Fold(f, ts).options == UnionOf(ts)
  {
    FoldOptions(f, ts);
  }

  /** The fold as the camera runs it: a loop over the areas. */
  method FoldAreas(start: Framing, ts: seq<Trigger>) returns (f: Framing)
    ensures f == Fold(start, ts)
  {
    f := start;
    var i := 0;
    while i < |ts|
      invariant 0 <= i <= |ts|
      invariant f == Fold(start, ts[..i])
    {
      assert ts[..i + 1][..i] == ts[..i];
      f := Step(f, ts[i]);
      i := i + 1;
    }
    assert ts[..|ts|] == ts;
  }
}
