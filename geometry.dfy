/** Volume resolution for model boxes and compartments, on values: what
    `Compartment.calc_volume` and `Box.calc_Bvolume_m3` write, as functions of
    the attributes they read. */
module Geometry {
  import opened Outcomes

  /** True when depth, length and width are all set. */
  predicate HasGeometry(depth: Option<real>, length: Option<real>, width: Option<real>) {
    depth.Some? && length.Some? && width.Some?
  }

  /** The volume a compartment holds after `calc_volume`. */
  function ResolvedVolume(volume: Option<real>, depth: Option<real>, length: Option<real>, width: Option<real>): (r: Option<real>)
    ensures volume.Some? ==> r == volume
    ensures volume.None? && HasGeometry(depth, length, width) ==> r == Some(depth.value * length.value * width.value)
    ensures r.Some? <==> volume.Some? || HasGeometry(depth, length, width)
  {
    if volume.None? && HasGeometry(depth, length, width) then
      Some(depth.value * length.value * width.value)
    else
      volume
  }

  /** The values of those volumes that are set, in order; unset ones are skipped. */
  function SetValues(vs: seq<Option<real>>): (r: seq<real>)
    ensures |r| <= |vs|
  {
    if vs == [] then []
    else SetValues(vs[..|vs| - 1]) + (if vs[|vs| - 1].Some? then [vs[|vs| - 1].value] else [])
  }

  /** Python's `sum` over a list of floats. */
  function Sum(xs: seq<real>): real {
    if xs == [] then 0.0 else xs[0] + Sum(xs[1..])
  }

  /** The volume a box holds after `calc_Bvolume_m3`, given the volumes its
      compartments hold at that moment, in attachment order. */
  function BoxVolume(volume: Option<real>, depth: Option<real>, length: Option<real>, width: Option<real>,
                     compartmentVolumes: seq<Option<real>>): (r: Option<real>)
    ensures volume.Some? ==> r == volume
    ensures volume.None? && HasGeometry(depth, length, width) ==> r == Some(depth.value * length.value * width.value)
    ensures volume.None? && !HasGeometry(depth, length, width) ==>
              (r.None? <==> compartmentVolumes == [])
  {
    if volume.Some? then volume
    else if HasGeometry(depth, length, width) then Some(depth.value * length.value * width.value)
    else if compartmentVolumes == [] then None
    else Some(Sum(SetValues(compartmentVolumes)))
  }

  /** Sum with unset entries read as zero: an independent reference for the
      skipping sum. */
  function SumUnsetAsZero(vs: seq<Option<real>>): real {
    if vs == [] then 0.0 else (if vs[0].Some? then vs[0].value else 0.0) + SumUnsetAsZero(vs[1..])
  }

  lemma {:induction false} SumAppend(xs: seq<real>, ys: seq<real>)
    ensures Sum(xs + ys) == Sum(xs) + Sum(ys)
  {
    if xs != [] {
      assert (xs + ys)[1..] == xs[1..] + ys;
      SumAppend(xs[1..], ys);
    } else {
      assert xs + ys == ys;
    }
  }

  lemma {:induction false} SumUnsetAsZeroAppend(vs: seq<Option<real>>, ws: seq<Option<real>>)
    ensures SumUnsetAsZero(vs + ws) == SumUnsetAsZero(vs) + SumUnsetAsZero(ws)
  {
    if vs != [] {
      assert (vs + ws)[1..] == vs[1..] + ws;
      SumUnsetAsZeroAppend(vs[1..], ws);
    } else {
      assert vs + ws == ws;
    }
  }

  /** Skipping the unset volumes gives the same total as reading them as 0. */
  lemma {:induction false} SkippingEqualsZeroFill(vs: seq<Option<real>>)
    ensures Sum(SetValues(vs)) == SumUnsetAsZero(vs)
  {
    if vs != [] {
      var init, last := vs[..|vs| - 1], vs[|vs| - 1];
      assert vs == init + [last];
      SkippingEqualsZeroFill(init);
      SumAppend(SetValues(init), if last.Some? then [last.value] else []);
      SumUnsetAsZeroAppend(init, [last]);
    }
  }

  /** When every volume is set, none is skipped. */
  lemma {:induction false} SetValuesAllSet(vs: seq<Option<real>>)
    requires forall i :: 0 <= i < |vs| ==> vs[i].Some?
    ensures |SetValues(vs)| == |vs|
    ensures forall i :: 0 <= i < |vs| ==> SetValues(vs)[i] == vs[i].value
  {
    if vs != [] {
      SetValuesAllSet(vs[..|vs| - 1]);
    }
  }

  /** Each set volume is at most the skipping sum, when none is negative. */
  lemma {:induction false} SumBoundsEachSet(vs: seq<Option<real>>, i: nat)
    requires forall j :: 0 <= j < |vs| ==> vs[j].Some? ==> vs[j].value >= 0.0
    requires i < |vs| && vs[i].Some?
    ensures 0.0 <= vs[i].value <= Sum(SetValues(vs))
  {
    SkippingEqualsZeroFill(vs);
    ZeroFillBounds(vs, i);
  }

  lemma {:induction false} ZeroFillBounds(vs: seq<Option<real>>, i: nat)
    requires forall j :: 0 <= j < |vs| ==> vs[j].Some? ==> vs[j].value >= 0.0
    requires i < |vs| && vs[i].Some?
    ensures vs[i].value <= SumUnsetAsZero(vs)
  {
    ZeroFillNonNegative(vs[1..]);
    if i > 0 {
      ZeroFillBounds(vs[1..], i - 1);
    }
  }

  lemma {:induction false} ZeroFillNonNegative(vs: seq<Option<real>>)
    requires forall j :: 0 <= j < |vs| ==> vs[j].Some? ==> vs[j].value >= 0.0
    ensures SumUnsetAsZero(vs) >= 0.0
  {
    if vs != [] {
      ZeroFillNonNegative(vs[1..]);
    }
  }

  /** calc_volume is idempotent: a second call changes nothing. */
  lemma ResolvedVolumeIdempotent(volume: Option<real>, depth: Option<real>, length: Option<real>, width: Option<real>)
    ensures var once := ResolvedVolume(volume, depth, length, width);
            ResolvedVolume(once, depth, length, width) == once
  {
  }

  /** Box volume from compartments, when the box has no geometry of its own:
      the total of the compartment volumes that are set, skipping the others,
      and Some(0.0), not None, when compartments exist but none has a volume. */
  lemma BoxVolumeFromCompartments(depth: Option<real>, length: Option<real>, width: Option<real>,
                                  cvs: seq<Option<real>>)
    requires !HasGeometry(depth, length, width) && cvs != []
    ensures BoxVolume(None, depth, length, width, cvs) == Some(SumUnsetAsZero(cvs))
    ensures (forall i :: 0 <= i < |cvs| ==> cvs[i].None?) ==> BoxVolume(None, depth, length, width, cvs) == Some(0.0)
  {
    SkippingEqualsZeroFill(cvs);
    if forall i :: 0 <= i < |cvs| ==> cvs[i].None? {
      AllUnsetIsZero(cvs);
    }
  }

  lemma {:induction false} AllUnsetIsZero(vs: seq<Option<real>>)
    requires forall i :: 0 <= i < |vs| ==> vs[i].None?
    ensures SumUnsetAsZero(vs) == 0.0
  {
    if vs != [] {
      AllUnsetIsZero(vs[1..]);
    }
  }

  /** A box whose volume comes from its compartments is at least as large as
      any one of them whose volume is set, when none is negative. */
  lemma BoxContainsEachCompartment(depth: Option<real>, length: Option<real>, width: Option<real>,
                                   cvs: seq<Option<real>>, i: nat)
    requires !HasGeometry(depth, length, width)
    requires forall j :: 0 <= j < |cvs| ==> cvs[j].Some? ==> cvs[j].value >= 0.0
    requires i < |cvs| && cvs[i].Some?
    ensures BoxVolume(None, depth, length, width, cvs).Some?
    ensures cvs[i].value <= BoxVolume(None, depth, length, width, cvs).value
  {
    SumBoundsEachSet(cvs, i);
  }
}
