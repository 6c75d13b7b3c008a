/** What `generate_objects` builds, on values: the 4N particle templates
    derived from the N free particles and the suspended-matter carrier, the
    order in which a compartment's buckets are read back, the population of
    M compartments, and the name-keyed dictionaries it returns. */
module Assembly {
  import opened Outcomes
  import opened Particles

  /** Runs a step that may raise on each element in order; the first failure
      aborts the whole loop with that failure. */
  function Traverse<A, B>(xs: seq<A>, f: A -> Result<B>): (r: Result<seq<B>>)
    ensures r.Success? ==> |r.value| == |xs|
    decreases |xs|
  {
    if xs == [] then Success([])
    else
      var init :- Traverse(xs[..|xs| - 1], f);
      var last :- f(xs[|xs| - 1]);
      Success(init + [last])
  }

  /** The loop succeeds exactly when every step does, and then yields each
      step's value at its own position. */
  lemma {:induction false} TraverseElementwise<A, B>(xs: seq<A>, f: A -> Result<B>)
    ensures Traverse(xs, f).Success? <==> forall i :: 0 <= i < |xs| ==> f(xs[i]).Success?
    ensures Traverse(xs, f).Success? ==> forall i :: 0 <= i < |xs| ==> Traverse(xs, f).value[i] == f(xs[i]).value
  {
    if xs != [] {
      var init := xs[..|xs| - 1];
      TraverseElementwise(init, f);
      assert forall i :: 0 <= i < |init| ==> init[i] == xs[i];
    }
  }

  /** A failing loop reports the error of its first failing step. */
  lemma {:induction false} TraverseFirstFailure<A, B>(xs: seq<A>, f: A -> Result<B>)
    requires Traverse(xs, f).Failure?
    ensures exists k :: 0 <= k < |xs| && f(xs[k]).Failure? && Traverse(xs, f).error == f(xs[k]).error &&
                        forall j :: 0 <= j < k ==> f(xs[j]).Success?
  {
    var init := xs[..|xs| - 1];
    if Traverse(init, f).Failure? {
      TraverseFirstFailure(init, f);
      var k :| 0 <= k < |init| && f(init[k]).Failure? && Traverse(init, f).error == f(init[k]).error &&
                forall j :: 0 <= j < k ==> f(init[j]).Success?;
      assert xs[k] == init[k];
      assert forall j :: 0 <= j < k ==> xs[j] == init[j];
    } else {
      TraverseElementwise(init, f);
      assert forall j :: 0 <= j < |init| ==> xs[j] == init[j];
    }
  }

  /** The value a successful loop holds at one position. */
  lemma TraverseAt<A, B>(xs: seq<A>, f: A -> Result<B>, i: nat)
    requires Traverse(xs, f).Success? && i < |xs|
    ensures f(xs[i]) == Success(Traverse(xs, f).value[i])
  {
    TraverseElementwise(xs, f);
  }

  /** A loop whose every step succeeds yields the steps' values, in order. */
  lemma {:induction false} TraverseSucceeds<A, B>(xs: seq<A>, f: A -> Result<B>, ys: seq<B>)
    requires |ys| == |xs|
    requires forall i :: 0 <= i < |xs| ==> f(xs[i]) == Success(ys[i])
    ensures Traverse(xs, f) == Success(ys)
  {
    if xs != [] {
      var n := |xs| - 1;
      assert forall i :: 0 <= i < n ==> xs[..n][i] == xs[i];
      TraverseSucceeds(xs[..n], f, ys[..n]);
      assert ys == ys[..n] + [ys[n]];
    }
  }

  /** A loop fails with the error of its first failing step. */
  lemma {:induction false} TraverseFailsAt<A, B>(xs: seq<A>, f: A -> Result<B>, k: nat)
    requires k < |xs| && f(xs[k]).Failure?
    requires forall i :: 0 <= i < k ==> f(xs[i]).Success?
    ensures Traverse(xs, f) == Failure(f(xs[k]).error)
  {
    var n := |xs| - 1;
    assert forall i :: 0 <= i < n ==> xs[..n][i] == xs[i];
    if k < n {
      TraverseFailsAt(xs[..n], f, k);
    } else {
      TraverseElementwise(xs[..n], f);
    }
  }

  /** `calc_volume` on a particle just constructed, as a step that raises. */
  function Sized(p: Props): (r: Result<Template>)
    ensures r.Success? <==> VolumeStep(Unsized(p)).1.None?
    ensures r.Success? ==> r.value == VolumeStep(Unsized(p)).0 && r.value.props == p
    ensures r.Failure? ==> r.error == VolumeStep(Unsized(p)).1.value
    ensures IsSphere(p.shape) ==> r == Success(Template(p, Some(SphereVolume(p.radius_m)), Some(1.0)))
    ensures !IsKnownShape(p.shape) ==> r == Success(Unsized(p))
    ensures (IsCylinder(p.shape) || IsCuboid(p.shape)) && p.dims.None? ==> r.Failure?
    ensures r.Success? ==> (r.value.volume.Some? <==> IsKnownShape(p.shape))
  {
    var (t, e) := VolumeStep(Unsized(p));
    if e.Some? then Failure(e.value) else Success(t)
  }

  /** `ParticulatesBF(parentMP=t, spm=carrier)`. */
  function Coating(carrier: Template): Template -> Result<Props> {
    (t: Template) => Biofoul(t.props, carrier.props)
  }

  /** `ParticulatesSPM(parentMP=t, parentSPM=carrier)`. */
  function Aggregating(carrier: Template): Template -> Result<Props> {
    (t: Template) => Heteroaggregate(t.props, t.volume, carrier.props, carrier.volume)
  }

  /** `calc_volume_heter(parentMP, spm)` on an aggregate just constructed,
      paired with its parent, as a step that raises. */
  function HeterSizing(carrier: Template): ((Props, Template)) -> Result<Template> {
    (pair: (Props, Template)) => var (t, e) := HeterVolumeStep(Unsized(pair.0), pair.1.volume, carrier.volume);
                                 if e.Some? then Failure(e.value) else Success(t)
  }

  /** Each aggregate next to the parent it was built from. */
  function Zip(aggregates: seq<Props>, parents: seq<Template>): (r: seq<(Props, Template)>)
    requires |aggregates| == |parents|
    ensures |r| == |parents|
    ensures forall i :: 0 <= i < |r| ==> r[i].0 == aggregates[i] && r[i].1 == parents[i]
  {
    seq(|parents|, i requires 0 <= i < |parents| => (aggregates[i], parents[i]))
  }

  /** The suspended-matter carrier `spm`, after its `calc_volume`. */
  function Carrier(density: real, radius_um: real): (c: Template)
    ensures c.props.name == "spm1" && c.props.form == "suspendedParticulates" && c.props.density == density
    ensures c.props.dims.Some? && c.props.dims.value.x_um == radius_um
    ensures c.props.radius_m * MICRO == radius_um
    ensures c.volume == Some(SphereVolume(c.props.radius_m)) && c.csf == Some(1.0)
  {
    VolumeStep(Unsized(NewParticle("spm1", "suspendedParticulates", "Mixed", density, "sphere",
                                   radius_um, 0.0, 0.0, DEFAULT_HALF_LIFE, None))).0
  }

  /** The four template lists, in the order `generate_objects` concatenates them. */
  datatype Templates = Templates(free: seq<Template>, biofouled: seq<Template>, heter: seq<Template>, biofHeter: seq<Template>)
  {
    function All(): seq<Template> {
      free + biofouled + heter + biofHeter
    }
  }

  /** The template-building part of `generate_objects`: size the free
      particles, coat them, size the coated ones, aggregate the free ones and
      size those aggregates, then aggregate the coated ones and size those. */
  function BuildTemplates(free: seq<Props>, carrier: Template): (r: Result<Templates>)
    ensures r.Success? ==>
              && |r.value.free| == |free| && |r.value.biofouled| == |free|
              && |r.value.heter| == |free| && |r.value.biofHeter| == |free|
              && |r.value.All()| == 4 * |free|
  {
    var f :- Traverse(free, Sized);
    var b0 :- Traverse(f, Coating(carrier));
    var b :- Traverse(b0, Sized);
    var h0 :- Traverse(f, Aggregating(carrier));
    var h :- Traverse(Zip(h0, f), HeterSizing(carrier));
    var bh0 :- Traverse(b, Aggregating(carrier));
    var bh :- Traverse(Zip(bh0, b), HeterSizing(carrier));
    Success(Templates(f, b, h, bh))
  }

  /** Element i of each list is derived from free particle i: sized; coated
      and sized; aggregated with the carrier and sized; coated, aggregated
      and sized. */
  lemma TemplateAt(free: seq<Props>, carrier: Template, i: nat)
    requires BuildTemplates(free, carrier).Success? && i < |free|
    ensures var ts := BuildTemplates(free, carrier).value;
            && Sized(free[i]) == Success(ts.free[i])
            && Biofoul(free[i], carrier.props).Success?
            && Sized(Biofoul(free[i], carrier.props).value) == Success(ts.biofouled[i])
            && Heteroaggregate(free[i], ts.free[i].volume, carrier.props, carrier.volume).Success?
            && HeterVolumeStep(Unsized(Heteroaggregate(free[i], ts.free[i].volume, carrier.props, carrier.volume).value),
                               ts.free[i].volume, carrier.volume) == (ts.heter[i], None)
            && Heteroaggregate(ts.biofouled[i].props, ts.biofouled[i].volume, carrier.props, carrier.volume).Success?
            && HeterVolumeStep(Unsized(Heteroaggregate(ts.biofouled[i].props, ts.biofouled[i].volume, carrier.props, carrier.volume).value),
                               ts.biofouled[i].volume, carrier.volume) == (ts.biofHeter[i], None)
  {
    var f := Traverse(free, Sized).value;
    TraverseAt(free, Sized, i);
    var b0 := Traverse(f, Coating(carrier)).value;
    TraverseAt(f, Coating(carrier), i);
    var b := Traverse(b0, Sized).value;
    TraverseAt(b0, Sized, i);
    var h0 := Traverse(f, Aggregating(carrier)).value;
    TraverseAt(f, Aggregating(carrier), i);
    TraverseAt(Zip(h0, f), HeterSizing(carrier), i);
    var bh0 := Traverse(b, Aggregating(carrier)).value;
    TraverseAt(b, Aggregating(carrier), i);
    TraverseAt(Zip(bh0, b), HeterSizing(carrier), i);
  }

  /** Names, aggregation states and half-lives of the templates derived
      from free particle i. */
  lemma IdentityAt(free: seq<Props>, carrier: Template, i: nat)
    requires BuildTemplates(free, carrier).Success? && i < |free|
    ensures var ts := BuildTemplates(free, carrier).value;
            && ts.free[i].props == free[i]
            && ts.biofouled[i].props.name == free[i].name + "_BF"
            && ts.biofouled[i].props.form == BIOF && ts.biofouled[i].props.tHalf_d == BIOFILM_HALF_LIFE
            && ts.heter[i].props.name == free[i].name + "_SPM"
            && (free[i].form == BIOF ==> ts.heter[i].props.form == HETER_BIOF)
            && (free[i].form != BIOF ==> ts.heter[i].props.form == HETER && ts.heter[i].props.tHalf_d == HETER_HALF_LIFE)
            && ts.biofHeter[i].props.name == free[i].name + "_BF_SPM"
            && ts.biofHeter[i].props.form == HETER_BIOF && ts.biofHeter[i].props.tHalf_d == HETER_BIOF_HALF_LIFE
  {
    TemplateAt(free, carrier, i);
  }

  /** Names, aggregation states and half-lives of the derived templates. */
  lemma TemplatesIdentity(free: seq<Props>, carrier: Template)
    requires BuildTemplates(free, carrier).Success?
    ensures var ts := BuildTemplates(free, carrier).value;
            forall i :: 0 <= i < |free| ==>
              && ts.free[i].props == free[i]
              && ts.biofouled[i].props.name == free[i].name + "_BF"
              && ts.biofouled[i].props.form == BIOF && ts.biofouled[i].props.tHalf_d == BIOFILM_HALF_LIFE
              && ts.heter[i].props.name == free[i].name + "_SPM"
              && (free[i].form == BIOF ==> ts.heter[i].props.form == HETER_BIOF)
              && (free[i].form != BIOF ==> ts.heter[i].props.form == HETER && ts.heter[i].props.tHalf_d == HETER_HALF_LIFE)
              && ts.biofHeter[i].props.name == free[i].name + "_BF_SPM"
              && ts.biofHeter[i].props.form == HETER_BIOF && ts.biofHeter[i].props.tHalf_d == HETER_BIOF_HALF_LIFE
  {
    forall i | 0 <= i < |free| {
      IdentityAt(free, carrier, i);
    }
  }

  /** Following the code: the aggregate constructor sets no dimensions and the
      non-sphere branches of `calc_volume_heter` read them, and an unknown
      shape never gets the volume the aggregate constructor reads. So a
      template set exists only when free particle i is a sphere, and then all
      four of its templates are spheres with a volume and shape factor 1, an
      aggregate's volume being exactly its parent's plus the carrier's. */
  lemma {:induction false} SpheresAt(free: seq<Props>, carrier: Template, i: nat)
    requires BuildTemplates(free, carrier).Success? && i < |free|
    ensures var ts := BuildTemplates(free, carrier).value;
            && IsSphere(free[i].shape)
            && carrier.volume.Some?
            && ts.free[i] == Template(free[i], Some(SphereVolume(free[i].radius_m)), Some(1.0))
            && IsSphere(ts.biofouled[i].props.shape) && ts.biofouled[i].volume.Some? && ts.biofouled[i].csf == Some(1.0)
            && IsSphere(ts.heter[i].props.shape) && ts.heter[i].csf == Some(1.0)
            && ts.heter[i].volume == Some(ts.free[i].volume.value + carrier.volume.value)
            && IsSphere(ts.biofHeter[i].props.shape) && ts.biofHeter[i].csf == Some(1.0)
            && ts.biofHeter[i].volume == Some(ts.biofouled[i].volume.value + carrier.volume.value)
  {
    TemplateAt(free, carrier, i);
    var ts := BuildTemplates(free, carrier).value;
    SizedShape(free[i]);
    AggregatedShape(ts.free[i], carrier, ts.heter[i]);
    SizedShape(Biofoul(free[i], carrier.props).value);
    AggregatedShape(ts.biofouled[i], carrier, ts.biofHeter[i]);
  }

  /** A sized template has a volume only in a recognised shape; a sphere's is
      4/3 pi r^3 with shape factor 1. */
  lemma SizedShape(p: Props)
    requires Sized(p).Success?
    ensures Sized(p).value.volume.Some? ==> IsKnownShape(p.shape)
    ensures IsSphere(p.shape) ==> Sized(p).value == Template(p, Some(SphereVolume(p.radius_m)), Some(1.0))
  {
  }

  /** An aggregate is built only from a parent with a volume, and sized only
      when it is a sphere or of no recognised shape; a sphere aggregate's
      volume is its parent's plus the carrier's. */
  lemma AggregatedShape(parent: Template, carrier: Template, h: Template)
    requires Heteroaggregate(parent.props, parent.volume, carrier.props, carrier.volume).Success?
    requires HeterVolumeStep(Unsized(Heteroaggregate(parent.props, parent.volume, carrier.props, carrier.volume).value),
                             parent.volume, carrier.volume) == (h, None)
    ensures parent.volume.Some? && carrier.volume.Some?
    ensures h.props.shape == parent.props.shape
    ensures IsKnownShape(parent.props.shape) ==>
              && IsSphere(parent.props.shape)
              && h.volume == Some(parent.volume.value + carrier.volume.value) && h.csf == Some(1.0)
  {
  }

  lemma TemplatesNeedSpheres(free: seq<Props>, carrier: Template)
    requires BuildTemplates(free, carrier).Success?
    ensures forall i :: 0 <= i < |free| ==> IsSphere(free[i].shape)
  {
    forall i | 0 <= i < |free| {
      SpheresAt(free, carrier, i);
    }
  }

  /** A property every section of a template set has, the whole list has. */
  lemma SectionsCover(ts: Templates, P: Template -> bool)
    requires forall i :: 0 <= i < |ts.free| ==> P(ts.free[i])
    requires forall i :: 0 <= i < |ts.biofouled| ==> P(ts.biofouled[i])
    requires forall i :: 0 <= i < |ts.heter| ==> P(ts.heter[i])
    requires forall i :: 0 <= i < |ts.biofHeter| ==> P(ts.biofHeter[i])
    ensures forall k :: 0 <= k < |ts.All()| ==> P(ts.All()[k])
  {
  }

  predicate SizedSphere(t: Template) {
    IsSphere(t.props.shape) && t.volume.Some? && t.csf == Some(1.0)
  }

  /** Every built template is a sphere with a volume and shape factor 1. */
  lemma TemplatesSized(free: seq<Props>, carrier: Template)
    requires BuildTemplates(free, carrier).Success?
    ensures var all := BuildTemplates(free, carrier).value.All();
            forall k :: 0 <= k < |all| ==> SizedSphere(all[k])
  {
    var ts := BuildTemplates(free, carrier).value;
    forall i | 0 <= i < |free|
      ensures SizedSphere(ts.free[i]) && SizedSphere(ts.biofouled[i])
      ensures SizedSphere(ts.heter[i]) && SizedSphere(ts.biofHeter[i])
    {
      SizedAt(free, carrier, i);
    }
    SectionsCover(ts, SizedSphere);
  }

  lemma SizedAt(free: seq<Props>, carrier: Template, i: nat)
    requires BuildTemplates(free, carrier).Success? && i < |free|
    ensures var ts := BuildTemplates(free, carrier).value;
            SizedSphere(ts.free[i]) && SizedSphere(ts.biofouled[i]) && SizedSphere(ts.heter[i]) && SizedSphere(ts.biofHeter[i])
  {
    SpheresAt(free, carrier, i);
  }

  /** Sizing free spheres of positive radius succeeds, with positive volumes. */
  lemma SphereStage(ps: seq<Props>)
    requires forall i :: 0 <= i < |ps| ==> IsSphere(ps[i].shape) && ps[i].radius_m > 0.0
    ensures Traverse(ps, Sized).Success?
    ensures forall i :: 0 <= i < |ps| ==>
              && Traverse(ps, Sized).value[i] == Template(ps[i], Some(SphereVolume(ps[i].radius_m)), Some(1.0))
              && SphereVolume(ps[i].radius_m) > 0.0
  {
    forall i | 0 <= i < |ps|
      ensures SphereVolume(ps[i].radius_m) > 0.0
    {
      SphereVolumePositive(ps[i].radius_m);
    }
    TraverseElementwise(ps, Sized);
  }

  /** Coating spheres of positive radius with a coating of non-negative
      thickness succeeds; the coated ones are spheres of positive radius whose
      density lies between the parent's and the coating's. */
  lemma CoatStage(f: seq<Template>, carrier: Template)
    requires carrier.props.dims.Some? && carrier.props.dims.value.x_um >= 0.0
    requires forall i :: 0 <= i < |f| ==> IsSphere(f[i].props.shape) && f[i].props.dims.Some? && f[i].props.radius_m > 0.0
    ensures Traverse(f, Coating(carrier)).Success?
    ensures forall i :: 0 <= i < |f| ==>
              var b := Traverse(f, Coating(carrier)).value[i];
              && IsSphere(b.shape) && b.radius_m > 0.0
              && Between(b.density, f[i].props.density, carrier.props.density)
  {
    forall i | 0 <= i < |f|
      ensures Biofoul(f[i].props, carrier.props).Success?
      ensures var b := Biofoul(f[i].props, carrier.props).value;
              IsSphere(b.shape) && b.radius_m > 0.0 && Between(b.density, f[i].props.density, carrier.props.density)
    {
      assert carrier.props.dims.value.x_um / MICRO >= 0.0;
      BiofoulDensity(f[i].props, carrier.props);
    }
    TraverseElementwise(f, Coating(carrier));
  }

  /** Aggregating templates of positive volume with a carrier of non-negative
      volume succeeds, each aggregate's density lying between its parent's and
      the carrier's. */
  lemma AggregateStage(f: seq<Template>, carrier: Template)
    requires carrier.volume.Some? && carrier.volume.value >= 0.0
    requires forall i :: 0 <= i < |f| ==> f[i].volume.Some? && f[i].volume.value > 0.0
    ensures Traverse(f, Aggregating(carrier)).Success?
    ensures forall i :: 0 <= i < |f| ==>
              var h := Traverse(f, Aggregating(carrier)).value[i];
              && h.shape == f[i].props.shape
              && Between(h.density, f[i].props.density, carrier.props.density)
  {
    forall i | 0 <= i < |f|
      ensures Heteroaggregate(f[i].props, f[i].volume, carrier.props, carrier.volume).Success?
      ensures Between(Heteroaggregate(f[i].props, f[i].volume, carrier.props, carrier.volume).value.density,
                      f[i].props.density, carrier.props.density)
    {
      HeteroaggregateDensity(f[i].props, f[i].volume.value, carrier.props, carrier.volume.value);
    }
    TraverseElementwise(f, Aggregating(carrier));
  }

  /** Sizing sphere aggregates whose parents have a volume always succeeds. */
  lemma HeterSizeStage(h0: seq<Props>, f: seq<Template>, carrier: Template)
    requires |h0| == |f| && carrier.volume.Some?
    requires forall i :: 0 <= i < |f| ==> IsSphere(h0[i].shape) && f[i].volume.Some?
    ensures Traverse(Zip(h0, f), HeterSizing(carrier)).Success?
  {
    TraverseElementwise(Zip(h0, f), HeterSizing(carrier));
  }

  /** Conversely, free spheres of positive radius and a carrier of
      non-negative radius always yield the templates. */
  lemma {:induction false} TemplatesForSpheres(free: seq<Props>, density: real, radius_um: real)
    requires radius_um >= 0.0
    requires forall i :: 0 <= i < |free| ==> IsSphere(free[i].shape) && free[i].dims.Some? && free[i].radius_m > 0.0
    ensures BuildTemplates(free, Carrier(density, radius_um)).Success?
  {
    var carrier := Carrier(density, radius_um);
    SphereVolumeNonNegative(carrier.props.radius_m);
    SphereStage(free);
    var f := Traverse(free, Sized).value;
    CoatStage(f, carrier);
    var b0 := Traverse(f, Coating(carrier)).value;
    SphereStage(b0);
    var b := Traverse(b0, Sized).value;
    AggregateStage(f, carrier);
    var h0 := Traverse(f, Aggregating(carrier)).value;
    HeterSizeStage(h0, f, carrier);
    AggregateStage(b, carrier);
    var bh0 := Traverse(b, Aggregating(carrier)).value;
    HeterSizeStage(bh0, b, carrier);
  }

  /** For free particles of positive radius and a carrier of non-negative
      radius, every derived density lies between its parent's and the
      carrier's: the coating by the shell rule, the aggregates by volume
      weighting. */
  lemma DensitiesBetween(free: seq<Props>, density: real, radius_um: real, i: nat)
    requires radius_um >= 0.0 && i < |free| && free[i].radius_m > 0.0
    requires BuildTemplates(free, Carrier(density, radius_um)).Success?
    ensures var ts := BuildTemplates(free, Carrier(density, radius_um)).value;
            && Between(ts.biofouled[i].props.density, free[i].density, density)
            && Between(ts.heter[i].props.density, free[i].density, density)
            && Between(ts.biofHeter[i].props.density, ts.biofouled[i].props.density, density)
  {
    var carrier := Carrier(density, radius_um);
    var ts := BuildTemplates(free, carrier).value;
    TemplateAt(free, carrier, i);
    SpheresAt(free, carrier, i);
    SizedShape(free[i]);
    SphereVolumePositive(free[i].radius_m);
    SphereVolumeNonNegative(carrier.props.radius_m);
    var bf := Biofoul(free[i], carrier.props).value;
    assert carrier.props.dims.value.x_um / MICRO >= 0.0;
    BiofoulDensity(free[i], carrier.props);
    SizedShape(bf);
    SphereVolumePositive(bf.radius_m);
    HeteroaggregateDensity(free[i], ts.free[i].volume.value, carrier.props, carrier.volume.value);
    HeteroaggregateDensity(bf, ts.biofouled[i].volume.value, carrier.props, carrier.volume.value);
  }

  lemma SphereVolumePositive(r: real)
    requires r > 0.0
    ensures SphereVolume(r) > 0.0
  {
    CubePositive(r);
    MulPositive(4.0 / 3.0 * Pi, Cube(r));
  }

  lemma SphereVolumeNonNegative(r: real)
    requires r >= 0.0
    ensures SphereVolume(r) >= 0.0
  {
    CubeMonotone(0.0, r);
    MulNonNegative(4.0 / 3.0 * Pi, Cube(r));
  }

  /** The templates of one aggregation state, in order. */
  function OfForm(ts: seq<Template>, form: string): (r: seq<Template>)
    ensures |r| <= |ts|
    ensures forall i :: 0 <= i < |r| ==> r[i].props.form == form
    ensures forall t :: t in r ==> t in ts
  {
    if ts == [] then []
    else OfForm(ts[..|ts| - 1], form) + (if ts[|ts| - 1].props.form == form then [ts[|ts| - 1]] else [])
  }

  /** A compartment's particles read bucket by bucket: freeMP, heterMP,
      biofMP, heterBiofMP. */
  function Arrange(ts: seq<Template>): seq<Template> {
    OfForm(ts, FREE) + OfForm(ts, HETER) + OfForm(ts, BIOF) + OfForm(ts, HETER_BIOF)
  }

  /** When every template has a bucket, the bucket order is a permutation of
      the templates. */
  lemma {:induction false} ArrangePermutes(ts: seq<Template>)
    requires forall i :: 0 <= i < |ts| ==> IsForm(ts[i].props.form)
    ensures multiset(Arrange(ts)) == multiset(ts)
    ensures |Arrange(ts)| == |ts|
  {
    if ts != [] {
      var init, last := ts[..|ts| - 1], ts[|ts| - 1];
      ArrangePermutes(init);
      assert ts == init + [last];
      assert multiset(Arrange(ts)) == multiset(Arrange(init)) + multiset{last};
    }
    assert |multiset(Arrange(ts))| == |multiset(ts)|;
  }

  lemma {:induction false} OfFormAppend(a: seq<Template>, b: seq<Template>, form: string)
    ensures OfForm(a + b, form) == OfForm(a, form) + OfForm(b, form)
  {
    if b == [] {
      assert a + b == a;
    } else {
      var init := b[..|b| - 1];
      OfFormAppend(a, init, form);
      assert (a + b)[..|a + b| - 1] == a + init;
    }
  }

  /** A list whose templates all share one state lands whole in that bucket
      and leaves the others empty. */
  lemma {:induction false} OfFormUniform(s: seq<Template>, sform: string, form: string)
    requires forall i :: 0 <= i < |s| ==> s[i].props.form == sform
    ensures OfForm(s, form) == if sform == form then s else []
  {
    if s != [] {
      OfFormUniform(s[..|s| - 1], sform, form);
    }
  }

  /** With sections of uniform state freeMP, biofMP, heterMP and heterBiofMP,
      a compartment's buckets read back as free, heteroaggregated, biofouled,
      biofouled-heteroaggregated: not in the order the templates were listed. */
  lemma ArrangeSections(ts: Templates)
    requires forall i :: 0 <= i < |ts.free| ==> ts.free[i].props.form == FREE
    requires forall i :: 0 <= i < |ts.biofouled| ==> ts.biofouled[i].props.form == BIOF
    requires forall i :: 0 <= i < |ts.heter| ==> ts.heter[i].props.form == HETER
    requires forall i :: 0 <= i < |ts.biofHeter| ==> ts.biofHeter[i].props.form == HETER_BIOF
    ensures Arrange(ts.All()) == ts.free + ts.heter + ts.biofouled + ts.biofHeter
  {
    var a, b, c, d := ts.free, ts.biofouled, ts.heter, ts.biofHeter;
    forall form | IsForm(form)
      ensures OfForm(ts.All(), form) ==
                (if form == FREE then a else []) + (if form == BIOF then b else []) +
                (if form == HETER then c else []) + (if form == HETER_BIOF then d else [])
    {
      OfFormAppend(a + b + c, d, form);
      OfFormAppend(a + b, c, form);
      OfFormAppend(a, b, form);
      OfFormUniform(a, FREE, form);
      OfFormUniform(b, BIOF, form);
      OfFormUniform(c, HETER, form);
      OfFormUniform(d, HETER_BIOF, form);
    }
  }

  /** With freeMP free particles the built templates have those uniform sections. */
  lemma ArrangeTemplates(free: seq<Props>, carrier: Template)
    requires BuildTemplates(free, carrier).Success?
    requires forall i :: 0 <= i < |free| ==> free[i].form == FREE
    ensures var ts := BuildTemplates(free, carrier).value;
            Arrange(ts.All()) == ts.free + ts.heter + ts.biofouled + ts.biofHeter
  {
    TemplatesIdentity(free, carrier);
    ArrangeSections(BuildTemplates(free, carrier).value);
  }

  predicate HasBucket(t: Template) {
    IsForm(t.props.form)
  }

  /** The first template whose aggregation state has no bucket, if any. */
  function FirstStray(ts: seq<Template>): (r: Option<string>)
    ensures r.None? <==> forall i :: 0 <= i < |ts| ==> IsForm(ts[i].props.form)
    ensures r.Some? ==> !IsForm(r.value)
  {
    if ts == [] then None
    else if !IsForm(ts[0].props.form) then Some(ts[0].props.form)
    else FirstStray(ts[1..])
  }

  /** The stray found by scanning in order is the first one. */
  lemma {:induction false} FirstStrayAt(ts: seq<Template>, j: nat)
    requires j < |ts| && !IsForm(ts[j].props.form)
    requires forall i :: 0 <= i < j ==> IsForm(ts[i].props.form)
    ensures FirstStray(ts) == Some(ts[j].props.form)
  {
    if j > 0 {
      FirstStrayAt(ts[1..], j - 1);
    }
  }

  /** Every one of m compartments, in order, holds one copy of every
      template, read back bucket by bucket. */
  function Population(ts: seq<Template>, m: nat): seq<Template> {
    if m == 0 then [] else Population(ts, m - 1) + Arrange(ts)
  }

  lemma {:induction false} PopulationCount(ts: seq<Template>, m: nat)
    requires forall i :: 0 <= i < |ts| ==> IsForm(ts[i].props.form)
    ensures |Population(ts, m)| == m * |ts|
  {
    if m > 0 {
      PopulationCount(ts, m - 1);
      ArrangePermutes(ts);
      var n := |ts|;
      assert (m - 1) * n + n == m * n;
    }
  }

  /** `generate_objects` on values: the population of m compartments, or the
      first exception. A template without a bucket fails only when there is
      a compartment to put it in. */
  function Generate(free: seq<Props>, carrier: Template, m: nat): (r: Result<seq<Template>>)
    ensures r.Success? ==> BuildTemplates(free, carrier).Success?
    ensures r.Success? && m > 0 ==> FirstStray(BuildTemplates(free, carrier).value.All()).None?
  {
    var ts :- BuildTemplates(free, carrier);
    var stray := FirstStray(ts.All());
    if m > 0 && stray.Some? then Failure(UnknownForm(stray.value))
    else Success(Population(ts.All(), m))
  }

  /** With freeMP free particles and a compartment, assembly succeeds exactly
      when the templates are built, and then the population holds 4 N M
      particles. */
  lemma GenerateCount(free: seq<Props>, carrier: Template, m: nat)
    requires forall i :: 0 <= i < |free| ==> free[i].form == FREE
    ensures Generate(free, carrier, m).Success? <==> BuildTemplates(free, carrier).Success?
    ensures Generate(free, carrier, m).Success? ==> |Generate(free, carrier, m).value| == 4 * |free| * m
  {
    if BuildTemplates(free, carrier).Success? {
      TemplatesIdentity(free, carrier);
      var ts := BuildTemplates(free, carrier).value;
      SectionsCover(ts, HasBucket);
      PopulationCount(ts.All(), m);
    }
  }

  /** `dict(zip(keys, values))` and `{k: v for ...}`: a later key overwrites
      an earlier one. */
  function Keyed<K(!new), V>(pairs: seq<(K, V)>): (m: map<K, V>)
    ensures forall k :: k in m <==> exists i :: 0 <= i < |pairs| && pairs[i].0 == k
  {
    if pairs == [] then map[]
    else Keyed(pairs[..|pairs| - 1])[pairs[|pairs| - 1].0 := pairs[|pairs| - 1].1]
  }

  /** A key maps to the value of its last occurrence. */
  lemma {:induction false} KeyedLastWins<K(!new), V>(pairs: seq<(K, V)>, i: nat)
    requires i < |pairs|
    requires forall j :: i < j < |pairs| ==> pairs[j].0 != pairs[i].0
    ensures Keyed(pairs)[pairs[i].0] == pairs[i].1
  {
    if i < |pairs| - 1 {
      KeyedLastWins(pairs[..|pairs| - 1], i);
    }
  }

  /** Every key whose occurrence is the last maps to that occurrence's value. */
  lemma KeyedLastWinsAll<K(!new), V>(pairs: seq<(K, V)>)
    ensures forall i | 0 <= i < |pairs| && (forall j :: i < j < |pairs| ==> pairs[j].0 != pairs[i].0) ::
              pairs[i].0 in Keyed(pairs) && Keyed(pairs)[pairs[i].0] == pairs[i].1
  {
    forall i | 0 <= i < |pairs| && (forall j :: i < j < |pairs| ==> pairs[j].0 != pairs[i].0)
      ensures pairs[i].0 in Keyed(pairs) && Keyed(pairs)[pairs[i].0] == pairs[i].1
    {
      KeyedLastWins(pairs, i);
    }
  }

  /** `dict_size_coding`: each free particle's name to its diameter in micrometres. */
  function SizeCoding(free: seq<Props>): (m: map<string, real>)
    ensures forall name :: name in m <==> exists i :: 0 <= i < |free| && free[i].name == name
    ensures forall i | 0 <= i < |free| && (forall j :: i < j < |free| ==> free[j].name != free[i].name) ::
              m[free[i].name] == free[i].diameter_um
  {
    var pairs := seq(|free|, i requires 0 <= i < |free| => (free[i].name, free[i].diameter_um));
    assert forall i :: 0 <= i < |free| ==> pairs[i] == (free[i].name, free[i].diameter_um);
    KeyedLastWinsAll(pairs);
    Keyed(pairs)
  }
}
