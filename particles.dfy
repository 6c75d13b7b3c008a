/** Particle records and the formulas of `Particulates`, `ParticulatesBF` and
    `ParticulatesSPM`: unit conversions, the shape-dispatched volume and Corey
    shape factor, the mass-to-number conversion, and the two derivation rules
    (biofilm coating and heteroaggregation with the suspended-matter carrier). */
module Particles {
  import opened Outcomes

  type Positive = x: real | x > 0.0 witness 1.0

  /** math.pi; only its sign matters to the model. */
  const Pi: Positive
  /** math.sqrt, left uninterpreted. */
  const Sqrt: real -> real
  /** x ** (1/3), left uninterpreted. */
  const CubeRoot: real -> real

  /** Micrometres per metre. */
  const MICRO: real := 1000000.0

  /** The four aggregation states a compartment keeps a bucket for. */
  const FREE: string := "freeMP"
  const HETER: string := "heterMP"
  const BIOF: string := "biofMP"
  const HETER_BIOF: string := "heterBiofMP"

  /** Half-lives (days): the constructor default, and those the derivations impose. */
  const DEFAULT_HALF_LIFE: real := 5000.0
  const BIOFILM_HALF_LIFE: real := 25000.0
  const HETER_BIOF_HALF_LIFE: real := 50000.0
  const HETER_HALF_LIFE: real := 100000.0

  predicate IsForm(f: string) {
    f == FREE || f == HETER || f == BIOF || f == HETER_BIOF
  }

  predicate IsSphere(shape: string) { shape == "sphere" }
  predicate IsCylinder(shape: string) { shape == "fibre" || shape == "fiber" || shape == "cylinder" }
  predicate IsCuboid(shape: string) { shape == "pellet" || shape == "fragment" }
  predicate IsKnownShape(shape: string) { IsSphere(shape) || IsCylinder(shape) || IsCuboid(shape) }

  /** The three characteristic sizes (X shortest, Y longest, Z intermediate) in micrometres and metres. */
  datatype Dims = Dims(x_um: real, y_um: real, z_um: real, x_m: real, y_m: real, z_m: real)

  /** How a particle came to be: read from the inputs, coated with biofilm, or
      aggregated with the carrier. Parents are held by value. */
  datatype Origin =
    | Base(number_t0: Option<real>, emission_t_y: real)
    | Biofouled(parent: Props, coatingDensity: real, coatingThickness_um: real)
    | Heteroaggregated(parent: Props, carrier: Props)

  /** The attributes a particle's constructor sets; `dims` is None for a
      heteroaggregate, whose constructor sets no dimensions. */
  datatype Props = Props(
    name: string, form: string, composition: string, density: real, shape: string,
    dims: Option<Dims>, radius_m: real, diameter_m: real, diameter_um: real,
    tHalf_d: real, origin: Origin)

  /** A particle as the volume calculations see it: its record and the two
      attributes they write. */
  datatype Template = Template(props: Props, volume: Option<real>, csf: Option<real>)

  function Cube(x: real): real { x * x * x }

  /** `Particulates.__init__`. */
  function NewParticle(name: string, form: string, composition: string, density: real, shape: string,
                       x_um: real, y_um: real, z_um: real, tHalf_d: real, number_t0: Option<real>): (p: Props)
    ensures p.name == name && p.form == form && p.composition == composition
    ensures p.density == density && p.shape == shape && p.tHalf_d == tHalf_d
    ensures p.dims.Some?
    ensures p.dims.value.x_um == x_um && p.dims.value.y_um == y_um && p.dims.value.z_um == z_um
    ensures p.dims.value.x_m * MICRO == x_um && p.dims.value.y_m * MICRO == y_um && p.dims.value.z_m * MICRO == z_um
    ensures p.radius_m * MICRO == x_um
    ensures p.diameter_m == 2.0 * p.radius_m && p.diameter_um == 2.0 * x_um
  {
    var radius := x_um / MICRO;
    Props(name, form, composition, density, shape,
          Some(Dims(x_um, y_um, z_um, x_um / MICRO, y_um / MICRO, z_um / MICRO)),
          radius, radius * 2.0, radius * 2.0 * MICRO, tHalf_d, Base(number_t0, 0.0))
  }

  /** A template as its constructor leaves it: volume and shape factor unset. */
  function Unsized(p: Props): (t: Template)
    ensures t.props == p && t.volume.None? && t.csf.None?
  {
    Template(p, None, None)
  }

  function SphereVolume(r: real): real { 4.0 / 3.0 * Pi * Cube(r) }
  function CylinderVolume(r: real, y: real): real { Pi * r * r * y }
  function CuboidVolume(x: real, y: real, z: real): real { x * y * z }

  /** Corey shape factor r / sqrt(Y r) of a fibre or cylinder; math.sqrt
      raises on a negative argument and the division on a zero root. */
  function CylinderCsf(owner: string, r: real, y: real): (c: Result<real>)
    ensures c.Failure? <==> y * r < 0.0 || Sqrt(y * r) == 0.0
    ensures c.Success? ==> c.value * Sqrt(y * r) == r
  {
    if y * r < 0.0 then Failure(MathDomain(owner))
    else if Sqrt(y * r) == 0.0 then Failure(ZeroDivision(owner))
    else Success(r / Sqrt(y * r))
  }

  /** Corey shape factor X / sqrt(Y Z) of a pellet or fragment. */
  function CuboidCsf(owner: string, x: real, y: real, z: real): (c: Result<real>)
    ensures c.Failure? <==> y * z < 0.0 || Sqrt(y * z) == 0.0
    ensures c.Success? ==> c.value * Sqrt(y * z) == x
  {
    if y * z < 0.0 then Failure(MathDomain(owner))
    else if Sqrt(y * z) == 0.0 then Failure(ZeroDivision(owner))
    else Success(x / Sqrt(y * z))
  }

  /** Writes the shape factor if it could be computed, and reports the error otherwise. */
  function WithCsf(t: Template, c: Result<real>): (Template, Option<Error>) {
    match c
    case Success(v) => (t.(csf := Some(v)), None)
    case Failure(e) => (t, Some(e))
  }

  /** `Particulates.calc_volume`: the template afterwards, and the exception it
      raises, if any (the volume is written before the shape factor fails). */
  function VolumeStep(t: Template): (r: (Template, Option<Error>))
    ensures r.0.props == t.props
    ensures IsSphere(t.props.shape) ==>
              r.1.None? && r.0.volume == Some(SphereVolume(t.props.radius_m)) && r.0.csf == Some(1.0)
    ensures IsCylinder(t.props.shape) && t.props.dims.Some? ==>
              r.0.volume == Some(CylinderVolume(t.props.radius_m, t.props.dims.value.y_m))
    ensures IsCuboid(t.props.shape) && t.props.dims.Some? ==>
              r.0.volume == Some(CuboidVolume(t.props.dims.value.x_m, t.props.dims.value.y_m, t.props.dims.value.z_m))
    ensures !IsKnownShape(t.props.shape) ==> r == (t, None)
    ensures r.1.None? ==> r.0.volume.Some? || !IsKnownShape(t.props.shape)
  {
    var p := t.props;
    if IsSphere(p.shape) then
      (t.(volume := Some(SphereVolume(p.radius_m)), csf := Some(1.0)), None)
    else if IsCylinder(p.shape) then
      if p.dims.None? then (t, Some(MissingAttribute(p.name, "PdimensionY_m")))
      else
        WithCsf(t.(volume := Some(CylinderVolume(p.radius_m, p.dims.value.y_m))),
                CylinderCsf(p.name, p.radius_m, p.dims.value.y_m))
    else if IsCuboid(p.shape) then
      if p.dims.None? then (t, Some(MissingAttribute(p.name, "PdimensionX_m")))
      else
        var d := p.dims.value;
        WithCsf(t.(volume := Some(CuboidVolume(d.x_m, d.y_m, d.z_m))), CuboidCsf(p.name, d.x_m, d.y_m, d.z_m))
    else
      (t, None)
  }

  /** Calling calc_volume a second time changes nothing. */
  lemma VolumeStepIdempotent(t: Template)
    requires VolumeStep(t).1.None?
    ensures VolumeStep(VolumeStep(t).0) == VolumeStep(t)
  {
  }

  lemma {:induction false} CubePositive(x: real)
    requires x > 0.0
    ensures Cube(x) > 0.0
  {
    assert x * x > 0.0;
  }

  lemma {:induction false} CubeZero(x: real)
    ensures Cube(x) == 0.0 <==> x == 0.0
  {
    if x > 0.0 {
      CubePositive(x);
    } else if x < 0.0 {
      CubePositive(-x);
      assert Cube(-x) == -Cube(x);
    }
  }

  lemma {:induction false} CubeMonotone(a: real, b: real)
    requires 0.0 <= a <= b
    ensures Cube(a) <= Cube(b)
  {
    assert a * a <= b * b by {
      assert a * a <= a * b;
      assert a * b <= b * b;
    }
    assert a * a * a <= b * b * a;
    assert b * b * a <= b * b * b;
  }

  /** A particle with positive dimensions gets a positive volume, whatever its recognised shape. */
  lemma {:induction false} VolumePositive(t: Template)
    requires IsKnownShape(t.props.shape) && t.props.radius_m > 0.0
    requires t.props.dims.Some? && t.props.dims.value.x_m > 0.0 && t.props.dims.value.y_m > 0.0 && t.props.dims.value.z_m > 0.0
    ensures VolumeStep(t).0.volume.Some? && VolumeStep(t).0.volume.value > 0.0
  {
    var p := t.props;
    var d := p.dims.value;
    if IsSphere(p.shape) {
      CubePositive(p.radius_m);
      assert 4.0 / 3.0 * Pi > 0.0;
    } else if IsCylinder(p.shape) {
      MulPositive(Pi, p.radius_m);
      MulPositive(Pi * p.radius_m, p.radius_m);
      MulPositive(Pi * p.radius_m * p.radius_m, d.y_m);
    } else {
      assert d.x_m * d.y_m > 0.0;
    }
  }

  /** Kooi et al.'s shell rule: a core of radius r and density rhoP inside a
      coating of thickness t and density rhoC. */
  function ShellDensity(r: real, t: real, rhoP: real, rhoC: real): real
    requires Cube(r + t) != 0.0
  {
    (Cube(r) * rhoP + (Cube(r + t) - Cube(r)) * rhoC) / Cube(r + t)
  }

  /** Volume-weighted density of two parts. */
  function MixDensity(rhoP: real, vP: real, rhoC: real, vC: real): real
    requires vP + vC != 0.0
  {
    rhoP * (vP / (vP + vC)) + rhoC * (vC / (vP + vC))
  }

  predicate Between(x: real, a: real, b: real) {
    (a <= b && a <= x <= b) || (b <= a && b <= x <= a)
  }

  /** A convex combination of two values lies between them. */
  lemma {:induction false} ConvexBetween(a: real, b: real, w: real)
    requires 0.0 <= w <= 1.0
    ensures Between(w * a + (1.0 - w) * b, a, b)
  {
    var x := w * a + (1.0 - w) * b;
    assert x - b == w * (a - b);
    assert a - x == (1.0 - w) * (a - b);
    if a <= b {
      MulNonPositive(w, a - b);
      MulNonPositive(1.0 - w, a - b);
    } else {
      MulNonNegative(w, a - b);
      MulNonNegative(1.0 - w, a - b);
    }
  }

  lemma MulPositive(x: real, y: real)
    requires x > 0.0 && y > 0.0
    ensures x * y > 0.0
  {
  }

  lemma MulNonNegative(x: real, y: real)
    requires x >= 0.0 && y >= 0.0
    ensures x * y >= 0.0
  {
  }

  lemma MulNonPositive(x: real, y: real)
    requires x >= 0.0 && y <= 0.0
    ensures x * y <= 0.0
  {
  }

  /** The shell rule is the convex combination with weight r^3 / (r+t)^3 on the core. */
  lemma {:induction false} ShellDensityIsConvex(r: real, t: real, rhoP: real, rhoC: real)
    requires Cube(r + t) != 0.0
    ensures ShellDensity(r, t, rhoP, rhoC) == (Cube(r) / Cube(r + t)) * rhoP + (1.0 - Cube(r) / Cube(r + t)) * rhoC
  {
    var a, b := Cube(r), Cube(r + t);
    assert (a * rhoP + (b - a) * rhoC) / b == a * rhoP / b + (b - a) * rhoC / b;
    assert (b - a) * rhoC / b == (1.0 - a / b) * rhoC;
    assert a * rhoP / b == (a / b) * rhoP;
  }

  /** For a positive core radius and a non-negative coating, the coated density
      lies between the core and coating densities. */
  lemma {:induction false} ShellDensityBetween(r: real, t: real, rhoP: real, rhoC: real)
    requires r > 0.0 && t >= 0.0
    ensures Cube(r + t) > 0.0
    ensures Between(ShellDensity(r, t, rhoP, rhoC), rhoP, rhoC)
  {
    CubePositive(r);
    CubeMonotone(r, r + t);
    ShellDensityIsConvex(r, t, rhoP, rhoC);
    var a, b := Cube(r), Cube(r + t);
    assert 0.0 <= a / b <= 1.0 by {
      assert a / b * b == a;
    }
    ConvexBetween(rhoP, rhoC, a / b);
  }

  /** A coating of zero thickness leaves the density as it was. */
  lemma {:induction false} ShellDensityNoCoating(r: real, rhoP: real, rhoC: real)
    requires r != 0.0
    ensures Cube(r + 0.0) != 0.0
    ensures ShellDensity(r, 0.0, rhoP, rhoC) == rhoP
  {
    CubeZero(r);
    assert r + 0.0 == r;
  }

  /** The volume-weighted density lies between the two densities when both volumes are non-negative. */
  lemma {:induction false} MixDensityBetween(rhoP: real, vP: real, rhoC: real, vC: real)
    requires vP >= 0.0 && vC >= 0.0 && vP + vC > 0.0
    ensures Between(MixDensity(rhoP, vP, rhoC, vC), rhoP, rhoC)
  {
    var s := vP + vC;
    var w := vP / s;
    assert vP / s + vC / s == s / s == 1.0;
    assert vC / s == 1.0 - w;
    assert 0.0 <= w <= 1.0 by {
      assert w * (vP + vC) == vP;
    }
    assert MixDensity(rhoP, vP, rhoC, vC) == w * rhoP + (1.0 - w) * rhoC;
    ConvexBetween(rhoP, rhoC, w);
  }

  /** A dimension under a biofilm: a 0 (not applicable) stays 0, any other
      grows by the coating on both sides. */
  function Coated(d_um: real, thickness_um: real): real {
    if d_um == 0.0 then 0.0 else d_um + thickness_um * 2.0
  }

  /** `ParticulatesBF.__init__`: `parent` coated with a biofilm whose density
      and thickness are the carrier's density and X size. */
  function Biofoul(parent: Props, carrier: Props): (r: Result<Props>)
    ensures r.Failure? <==>
              carrier.dims.None? || parent.dims.None? ||
              parent.radius_m + carrier.dims.value.x_um / MICRO == 0.0
    ensures r.Success? ==>
              && r.value.name == parent.name + "_BF"
              && r.value.form == BIOF
              && r.value.tHalf_d == BIOFILM_HALF_LIFE
              && r.value.shape == parent.shape
              && r.value.composition == parent.composition
              && r.value.dims.Some?
              && r.value.diameter_m == 2.0 * r.value.radius_m
              && r.value.origin == Biofouled(parent, carrier.density, carrier.dims.value.x_um)
              && r.value.radius_m == parent.radius_m + carrier.dims.value.x_um / MICRO
              && r.value.density == ShellDensity(parent.radius_m, carrier.dims.value.x_um / MICRO, parent.density, carrier.density)
  {
    if carrier.dims.None? then Failure(MissingAttribute(carrier.name, "PdimensionX_um"))
    else if parent.dims.None? then Failure(MissingAttribute(parent.name, "PdimensionY_um"))
    else
      var t := carrier.dims.value.x_um;
      var radius := parent.radius_m + t / MICRO;
      CubeZero(radius);
      if Cube(radius) == 0.0 then Failure(ZeroDivision(parent.name + "_BF"))
      else
        var d := parent.dims.value;
        var x, y, z := Coated(d.x_um, t), Coated(d.y_um, t), Coated(d.z_um, t);
        Success(Props(parent.name + "_BF", BIOF, parent.composition,
                      ShellDensity(parent.radius_m, t / MICRO, parent.density, carrier.density),
                      parent.shape, Some(Dims(x, y, z, x / MICRO, y / MICRO, z / MICRO)),
                      radius, radius * 2.0, radius * 2.0 * MICRO, BIOFILM_HALF_LIFE,
                      Biofouled(parent, carrier.density, t)))
  }

  /** The coating is added once to the radius and twice to each applicable
      dimension; dimensions that were 0 stay 0, and the metre values follow the
      micrometre ones. */
  lemma BiofoulGeometry(parent: Props, carrier: Props)
    requires Biofoul(parent, carrier).Success?
    ensures var b, t, d := Biofoul(parent, carrier).value, carrier.dims.value.x_um, parent.dims.value;
            && b.radius_m == parent.radius_m + t / MICRO
            && b.dims.value.x_um == Coated(d.x_um, t)
            && b.dims.value.y_um == Coated(d.y_um, t)
            && b.dims.value.z_um == Coated(d.z_um, t)
            && (d.x_um == 0.0 ==> b.dims.value.x_um == 0.0)
            && (d.y_um == 0.0 ==> b.dims.value.y_um == 0.0)
            && (d.z_um == 0.0 ==> b.dims.value.z_um == 0.0)
            && b.dims.value.x_m * MICRO == b.dims.value.x_um
            && b.dims.value.y_m * MICRO == b.dims.value.y_um
            && b.dims.value.z_m * MICRO == b.dims.value.z_um
  {
  }

  /** With a positive, non-zero coating, a dimension of the coated particle is
      0 exactly when the parent's is, and otherwise strictly larger. */
  lemma CoatedZeroIff(d_um: real, thickness_um: real)
    requires thickness_um > 0.0 && d_um >= 0.0
    ensures Coated(d_um, thickness_um) == 0.0 <==> d_um == 0.0
    ensures d_um != 0.0 ==> Coated(d_um, thickness_um) > d_um
  {
  }

  /** The coated density follows the shell rule and lies between the parent's
      and the coating's densities; a zero-thickness coating keeps the parent's. */
  lemma {:induction false} BiofoulDensity(parent: Props, carrier: Props)
    requires Biofoul(parent, carrier).Success?
    requires parent.radius_m > 0.0 && carrier.dims.value.x_um >= 0.0
    ensures Between(Biofoul(parent, carrier).value.density, parent.density, carrier.density)
    ensures carrier.dims.value.x_um == 0.0 ==> Biofoul(parent, carrier).value.density == parent.density
  {
    var t := carrier.dims.value.x_um / MICRO;
    ShellDensityBetween(parent.radius_m, t, parent.density, carrier.density);
    if carrier.dims.value.x_um == 0.0 {
      ShellDensityNoCoating(parent.radius_m, parent.density, carrier.density);
    }
  }

  /** `ParticulatesSPM.__init__`: `parent` aggregated with the carrier. The
      volumes are those the two objects hold at that moment. */
  function Heteroaggregate(parent: Props, parentVolume: Option<real>, carrier: Props, carrierVolume: Option<real>): (r: Result<Props>)
    ensures r.Failure? <==>
              parentVolume.None? || carrierVolume.None? || parentVolume.value + carrierVolume.value == 0.0
    ensures r.Success? ==>
              && r.value.name == parent.name + "_SPM"
              && r.value.composition == parent.composition
              && r.value.shape == parent.shape
              && r.value.dims.None?
              && r.value.diameter_m == 2.0 * r.value.radius_m
              && r.value.origin == Heteroaggregated(parent, carrier)
    ensures r.Success? && parent.form == BIOF ==> r.value.form == HETER_BIOF && r.value.tHalf_d == HETER_BIOF_HALF_LIFE
    ensures r.Success? && parent.form != BIOF ==> r.value.form == HETER && r.value.tHalf_d == HETER_HALF_LIFE
  {
    if parentVolume.None? then Failure(MissingAttribute(parent.name, "Pvolume_m3"))
    else if carrierVolume.None? then Failure(MissingAttribute(carrier.name, "Pvolume_m3"))
    else
      var vP, vC := parentVolume.value, carrierVolume.value;
      if vP + vC == 0.0 then Failure(ZeroDivision(parent.name + "_SPM"))
      else
        var form, tHalf := if parent.form == BIOF then HETER_BIOF else HETER,
                           if parent.form == BIOF then HETER_BIOF_HALF_LIFE else HETER_HALF_LIFE;
        var radius := CubeRoot(3.0 * (vP + vC) / (4.0 * Pi));
        Success(Props(parent.name + "_SPM", form, parent.composition,
                      MixDensity(parent.density, vP, carrier.density, vC),
                      parent.shape, None, radius, radius * 2.0, radius * 2.0 * MICRO, tHalf,
                      Heteroaggregated(parent, carrier)))
  }

  /** The aggregate's density is the volume-weighted one and lies between the
      parent's and the carrier's; its radius is that of the sphere of the
      combined volume. */
  lemma HeteroaggregateDensity(parent: Props, vP: real, carrier: Props, vC: real)
    requires vP >= 0.0 && vC >= 0.0 && vP + vC > 0.0
    ensures Heteroaggregate(parent, Some(vP), carrier, Some(vC)).Success?
    ensures var h := Heteroaggregate(parent, Some(vP), carrier, Some(vC)).value;
            && h.density == MixDensity(parent.density, vP, carrier.density, vC)
            && Between(h.density, parent.density, carrier.density)
            && h.radius_m == CubeRoot(3.0 * (vP + vC) / (4.0 * Pi))
  {
    MixDensityBetween(parent.density, vP, carrier.density, vC);
  }

  /** `ParticulatesSPM.calc_volume_heter`: the volume is the sum of the parent's
      and the carrier's in every recognised shape; a sphere gets shape factor 1,
      the other shapes read dimensions the aggregate may lack. */
  function HeterVolumeStep(t: Template, parentVolume: Option<real>, carrierVolume: Option<real>): (r: (Template, Option<Error>))
    ensures r.0.props == t.props
    ensures IsKnownShape(t.props.shape) && parentVolume.Some? && carrierVolume.Some? ==>
              r.0.volume == Some(parentVolume.value + carrierVolume.value)
    ensures IsSphere(t.props.shape) && parentVolume.Some? && carrierVolume.Some? ==>
              r.1.None? && r.0.csf == Some(1.0)
    ensures (IsCylinder(t.props.shape) || IsCuboid(t.props.shape)) && t.props.dims.None? ==> r.1.Some?
    ensures !IsKnownShape(t.props.shape) ==> r == (t, None)
  {
    var p := t.props;
    if !IsKnownShape(p.shape) then (t, None)
    else if parentVolume.None? then (t, Some(MissingAttribute(p.name + ".parentMP", "Pvolume_m3")))
    else if carrierVolume.None? then (t, Some(MissingAttribute(p.name + ".parentSPM", "Pvolume_m3")))
    else
      var v := t.(volume := Some(parentVolume.value + carrierVolume.value));
      if IsSphere(p.shape) then (v.(csf := Some(1.0)), None)
      else if IsCylinder(p.shape) then
        if p.dims.None? then (v, Some(MissingAttribute(p.name, "PdimensionY_m")))
        else WithCsf(v, CylinderCsf(p.name, p.radius_m, p.dims.value.y_m))
      else
        if p.dims.None? then (v, Some(MissingAttribute(p.name, "PdimensionX_m")))
        else WithCsf(v, CuboidCsf(p.name, p.dims.value.x_m, p.dims.value.y_m, p.dims.value.z_m))
  }

  /** `Particulates.calc_numConc`: particles per m3 from a number concentration
      per litre, or, when that is 0, from a mass concentration in mg/L via the
      density and the particle volume. */
  function NumberConcentration(owner: string, concMass_mg_L: real, concNum_part_L: real,
                               density: real, volume: Option<real>): (r: Result<real>)
    ensures concNum_part_L != 0.0 ==> r == Success(concNum_part_L * 1000.0)
    ensures concNum_part_L == 0.0 ==>
              (r.Success? <==> density != 0.0 && volume.Some? && volume.value != 0.0)
  {
    if concNum_part_L != 0.0 then Success(concNum_part_L * 1000.0)
    else if density == 0.0 then Failure(ZeroDivision(owner))
    else if volume.None? then Failure(MissingAttribute(owner, "Pvolume_m3"))
    else if volume.value == 0.0 then Failure(ZeroDivision(owner))
    else Success(concMass_mg_L / 1000.0 / density / volume.value)
  }

  /** The two conversions are inverted by their physics: the count times the
      particle mass gives back the mass concentration, and the count per m3
      divided by 1000 gives back the count per litre. */
  lemma {:induction false} NumberConcentrationInverts(owner: string, concMass_mg_L: real, concNum_part_L: real,
                                                      density: real, volume: Option<real>)
    requires NumberConcentration(owner, concMass_mg_L, concNum_part_L, density, volume).Success?
    ensures var n := NumberConcentration(owner, concMass_mg_L, concNum_part_L, density, volume).value;
            && (concNum_part_L == 0.0 ==> n * volume.value * density * 1000.0 == concMass_mg_L)
            && (concNum_part_L != 0.0 ==> n / 1000.0 == concNum_part_L)
  {
    if concNum_part_L == 0.0 {
      var n := concMass_mg_L / 1000.0 / density / volume.value;
      assert n * volume.value == concMass_mg_L / 1000.0 / density;
      assert n * volume.value * density == concMass_mg_L / 1000.0;
    }
  }
}
