/** The model's objects, whose attributes are written in place: particles,
    compartments (with their kinds and admissible processes) and the model box.
    They share one module because a compartment owns particles and each
    particle links back to its compartment. */
module Entities {
  import opened Outcomes
  import opened Geometry
  import opened Particles

  /** A compartment's specialisation, with the parameters its subclass adds. */
  datatype Kind =
    | Generic
    | Water(spm_mgL: real, waterFlow_m3_s: real, T_K: real, G: real, flowVelocity_m_s: Option<real>)
    | SurfaceSeaWater(spm_mgL: real, waterFlow_m3_s: real, T_K: real, G: real, flowVelocity_m_s: Option<real>)
    | Sediment
    | SoilSurface
    | DeepSoil
    | Air(airT_K: Option<real>, windSpeed_m_s: Option<real>, rainfall_mm: Option<real>, flowVelocity_m_s: Option<real>)

  /** The fixed process list each kind of compartment admits. */
  function Processes(kind: Kind): (r: seq<string>)
    ensures "fragmentation" in r
    ensures "heteroaggregation" in r <==> kind.Generic? || kind.Water? || kind.SurfaceSeaWater?
    ensures "biofouling" in r <==> kind.Generic? || kind.Water? || kind.SurfaceSeaWater?
    ensures "burial" in r <==> kind.Sediment?
  {
    match kind
    case Generic =>
      ["degradation", "fragmentation", "heteroaggregation", "heteroaggregate_breackup", "biofouling",
       "defouling", "advective_transport", "settling", "rising"]
    case Water(_, _, _, _, _) =>
      ["discorporation", "fragmentation", "heteroaggregation", "heteroaggregate_breackup", "biofouling",
       "defouling", "advective_transport", "settling", "rising", "mixing"]
    case SurfaceSeaWater(_, _, _, _, _) =>
      ["discorporation", "fragmentation", "heteroaggregation", "heteroaggregate_breackup", "biofouling",
       "defouling", "advective_transport", "settling", "rising", "mixing", "sea_spray_aerosol", "beaching"]
    case Sediment =>
      ["discorporation", "fragmentation", "sediment_resuspension", "burial"]
    case SoilSurface =>
      ["discorporation", "fragmentation", "runoff_transport", "percolation", "soil_air_resuspension",
       "soil_convection"]
    case DeepSoil =>
      ["discorporation", "fragmentation", "sequestration_deep_soils", "soil_convection"]
    case Air(_, _, _, _) =>
      ["discorporation", "fragmentation", "wind_trasport", "dry_deposition", "wet_deposition"]
  }

  /** Sea spray belongs to the sea surface alone. */
  lemma SeaSprayProcess(kind: Kind)
    ensures "sea_spray_aerosol" in Processes(kind) <==> kind.SurfaceSeaWater?
  {
  }

  /** ASCII lower-casing of one character. */
  function LowerChar(c: char): char {
    if 'A' <= c <= 'Z' then (c as int + 32) as char else c
  }

  /** `str.lower()` on ASCII text. */
  function Lower(s: string): (r: string)
    ensures |r| == |s|
    ensures forall i :: 0 <= i < |s| ==> r[i] == LowerChar(s[i])
    ensures forall i :: 0 <= i < |r| ==> !('A' <= r[i] <= 'Z')
  {
    seq(|s|, i requires 0 <= i < |s| => LowerChar(s[i]))
  }

  /** Lower-casing twice is lower-casing once. */
  lemma LowerIdempotent(s: string)
    ensures Lower(Lower(s)) == Lower(s)
  {
  }

  /** The bucket keys of every compartment, one per aggregation state. */
  const BucketForms: set<string> := {FREE, HETER, BIOF, HETER_BIOF}

  function EmptyBuckets(): (m: map<string, seq<Particulate>>)
    ensures m.Keys == BucketForms
    ensures forall f :: f in m ==> m[f] == []
  {
    map[FREE := [], HETER := [], BIOF := [], HETER_BIOF := []]
  }

  lemma BucketFormsAreForms(f: string)
    ensures f in BucketForms <==> IsForm(f)
  {
  }

  /** A particle object: the record its constructor built, and the attributes
      written afterwards (volume and shape factor, number concentration, owning
      compartment). */
  class Particulate {
    const props: Props
    var volume: Option<real>
    var csf: Option<real>
    var concNum_part_m3: Option<real>
    var compartment: Compartment?

    /** What the volume calculations read and write. */
    function View(): Template
      reads this
    {
      Template(props, volume, csf)
    }

    constructor (p: Props)
      ensures props == p
      ensures volume.None? && csf.None? && concNum_part_m3.None? && compartment == null
    {
      props := p;
      volume, csf, concNum_part_m3 := None, None, None;
      compartment := null;
    }

    /** `calc_volume`. */
    method CalcVolume() returns (err: Option<Error>)
      modifies this`volume, this`csf
      ensures (View(), err) == VolumeStep(old(View()))
    {
      err := None;
      if IsSphere(props.shape) {
        volume := Some(SphereVolume(props.radius_m));
        csf := Some(1.0);
      } else if IsCylinder(props.shape) {
        if props.dims.None? {
          return Some(MissingAttribute(props.name, "PdimensionY_m"));
        }
        volume := Some(CylinderVolume(props.radius_m, props.dims.value.y_m));
        var c := CylinderCsf(props.name, props.radius_m, props.dims.value.y_m);
        if c.Failure? {
          return Some(c.error);
        }
        csf := Some(c.value);
      } else if IsCuboid(props.shape) {
        if props.dims.None? {
          return Some(MissingAttribute(props.name, "PdimensionX_m"));
        }
        var d := props.dims.value;
        volume := Some(CuboidVolume(d.x_m, d.y_m, d.z_m));
        var c := CuboidCsf(props.name, d.x_m, d.y_m, d.z_m);
        if c.Failure? {
          return Some(c.error);
        }
        csf := Some(c.value);
      }
      // any other shape: a diagnostic only, nothing is written
    }

    /** `calc_volume_heter(parentMP, parentSPM)`. */
    method CalcVolumeHeter(parent: Particulate, carrier: Particulate) returns (err: Option<Error>)
      modifies this`volume, this`csf
      ensures (View(), err) == HeterVolumeStep(old(View()), old(parent.volume), old(carrier.volume))
    {
      err := None;
      if !IsKnownShape(props.shape) {
        return;  // a diagnostic only
      }
      if parent.volume.None? {
        return Some(MissingAttribute(props.name + ".parentMP", "Pvolume_m3"));
      }
      if carrier.volume.None? {
        return Some(MissingAttribute(props.name + ".parentSPM", "Pvolume_m3"));
      }
      volume := Some(parent.volume.value + carrier.volume.value);
      if IsSphere(props.shape) {
        csf := Some(1.0);
      } else if IsCylinder(props.shape) {
        if props.dims.None? {
          return Some(MissingAttribute(props.name, "PdimensionY_m"));
        }
        var c := CylinderCsf(props.name, props.radius_m, props.dims.value.y_m);
        if c.Failure? {
          return Some(c.error);
        }
        csf := Some(c.value);
      } else {
        if props.dims.None? {
          return Some(MissingAttribute(props.name, "PdimensionX_m"));
        }
        var c := CuboidCsf(props.name, props.dims.value.x_m, props.dims.value.y_m, props.dims.value.z_m);
        if c.Failure? {
          return Some(c.error);
        }
        csf := Some(c.value);
      }
    }

    /** `calc_numConc`. */
    method CalcNumConc(concMass_mg_L: real, concNum_part_L: real) returns (err: Option<Error>)
      modifies this`concNum_part_m3
      ensures var r := NumberConcentration(props.name, concMass_mg_L, concNum_part_L, props.density, volume);
              && (r.Success? ==> err.None? && concNum_part_m3 == Some(r.value))
              && (r.Failure? ==> err == Some(r.error) && concNum_part_m3 == old(concNum_part_m3))
    {
      var r := NumberConcentration(props.name, concMass_mg_L, concNum_part_L, props.density, volume);
      if r.Failure? {
        return Some(r.error);
      }
      concNum_part_m3 := Some(r.value);
      err := None;
    }

    /** `assign_compartment`. */
    method AssignCompartment(c: Compartment)
      modifies this`compartment
      ensures compartment == c
    {
      compartment := c;
    }

    /** `copy.deepcopy` of a particle not yet placed in a compartment: a fresh
        object with the same record and attributes. */
    method Copy() returns (q: Particulate)
      requires compartment == null
      ensures fresh(q)
      ensures q.props == props && q.View() == View()
      ensures q.concNum_part_m3 == concNum_part_m3 && q.compartment == null
    {
      q := new Particulate(props);
      q.volume, q.csf, q.concNum_part_m3 := volume, csf, concNum_part_m3;
    }
  }

  /** A compartment: fixed geometry and kind, and the attributes written during
      assembly (volume, owning box, code, connexions, particle buckets). */
  class Compartment {
    const name: string
    const kind: Kind
    const depth_m: Option<real>
    const length_m: Option<real>
    const width_m: Option<real>
    const surfaceArea_m2: Option<real>
    var volume_m3: Option<real>
    var box: Box?
    var code: Option<int>
    var connexions: seq<string>
    var particles: map<string, seq<Particulate>>

    /** The compartment still has exactly one bucket per aggregation state. */
    predicate Valid()
      reads this`particles
    {
      particles.Keys == BucketForms
    }

    /** The particles it owns, in bucket order freeMP, heterMP, biofMP, heterBiofMP. */
    function Contents(): seq<Particulate>
      reads this`particles
      requires Valid()
    {
      particles[FREE] + particles[HETER] + particles[BIOF] + particles[HETER_BIOF]
    }

    constructor (name: string, kind: Kind, depth_m: Option<real>, length_m: Option<real>, width_m: Option<real>,
                 volume_m3: Option<real>, surfaceArea_m2: Option<real>)
      ensures this.name == name && this.kind == kind
      ensures this.depth_m == depth_m && this.length_m == length_m && this.width_m == width_m
      ensures this.volume_m3 == volume_m3 && this.surfaceArea_m2 == surfaceArea_m2
      ensures box == null && code.None? && connexions == [] && particles == EmptyBuckets()
      ensures Valid()
    {
      this.name, this.kind := name, kind;
      this.depth_m, this.length_m, this.width_m := depth_m, length_m, width_m;
      this.volume_m3, this.surfaceArea_m2 := volume_m3, surfaceArea_m2;
      box, code, connexions := null, None, [];
      particles := EmptyBuckets();
    }

    /** `assign_box`. */
    method AssignBox(b: Box)
      modifies this`box
      ensures box == b
    {
      box := b;
    }

    /** `add_particles`: the particle goes to the end of the bucket named by its
        aggregation state and links back to this compartment; an unknown state
        is a lookup failure that changes nothing. */
    method AddParticles(p: Particulate) returns (err: Option<Error>)
      modifies this`particles, p`compartment
      ensures p.props.form in old(particles) ==>
                && err.None?
                && particles == old(particles)[p.props.form := old(particles)[p.props.form] + [p]]
                && p.compartment == this
      ensures p.props.form !in old(particles) ==>
                && err == Some(UnknownForm(p.props.form))
                && particles == old(particles)
                && p.compartment == old(p.compartment)
      ensures particles.Keys == old(particles).Keys
      ensures forall f :: f in old(particles) && f != p.props.form ==> particles[f] == old(particles)[f]
    {
      if p.props.form !in particles {
        return Some(UnknownForm(p.props.form));
      }
      particles := particles[p.props.form := particles[p.props.form] + [p]];
      p.AssignCompartment(this);
      err := None;
    }

    /** `calc_volume`: depth × length × width, written only when the volume is
        unset and all three are known; otherwise a diagnostic only. */
    method CalcVolume()
      modifies this`volume_m3
      ensures volume_m3 == ResolvedVolume(old(volume_m3), depth_m, length_m, width_m)
    {
      if volume_m3.None? {
        if !HasGeometry(depth_m, length_m, width_m) {
          // diagnostic only: the volume stays unset
        } else {
          volume_m3 := Some(depth_m.value * length_m.value * width_m.value);
        }
      }
    }

    /** `calc_vol_fromBox`, with the box's volume fractions passed in: the owning
        box's volume times the fraction kept under the lower-cased name. */
    method CalcVolFromBox(fractions: map<string, real>) returns (err: Option<Error>)
      modifies this`volume_m3
      ensures box == null ==> err == Some(MissingAttribute(name, "CBox"))
      ensures box != null && Lower(name) !in fractions ==> err == Some(MissingFraction(Lower(name)))
      ensures box != null && Lower(name) in fractions && box.volume_m3.None? ==>
                err == Some(MissingValue(box.name, "Bvolume_m3"))
      ensures err.Some? ==> volume_m3 == old(volume_m3)
      ensures err.None? <==> box != null && Lower(name) in fractions && box.volume_m3.Some?
      ensures err.None? ==> volume_m3.Some? && volume_m3.value == box.volume_m3.value * fractions[Lower(name)]
    {
      if box == null {
        return Some(MissingAttribute(name, "CBox"));
      }
      var key := Lower(name);
      if key !in fractions {
        return Some(MissingFraction(key));
      }
      if box.volume_m3.None? {
        return Some(MissingValue(box.name, "Bvolume_m3"));
      }
      volume_m3 := Some(box.volume_m3.value * fractions[key]);
      err := None;
    }

    /** `copy.deepcopy` of a compartment that is not yet in a box and holds no
        particles: a fresh compartment with equal attributes. */
    method Clone() returns (c: Compartment)
      requires box == null && Valid()
      requires forall f :: f in particles ==> particles[f] == []
      ensures fresh(c)
      ensures c.name == name && c.kind == kind
      ensures c.depth_m == depth_m && c.length_m == length_m && c.width_m == width_m
      ensures c.surfaceArea_m2 == surfaceArea_m2 && c.volume_m3 == volume_m3
      ensures c.box == null && c.code == code && c.connexions == connexions
      ensures c.particles == EmptyBuckets() && c.Valid()
    {
      c := new Compartment(name, kind, depth_m, length_m, width_m, volume_m3, surfaceArea_m2);
      c.code, c.connexions := code, connexions;
    }
  }

  /** The model box: fixed geometry, a volume written by `calc_Bvolume_m3`, and
      the compartments attached to it. */
  class Box {
    const name: string
    const depth_m: Option<real>
    const length_m: Option<real>
    const width_m: Option<real>
    var volume_m3: Option<real>
    var compartments: seq<Compartment>

    constructor (name: string, depth_m: Option<real>, length_m: Option<real>, width_m: Option<real>,
                 volume_m3: Option<real>)
      ensures this.name == name && this.depth_m == depth_m && this.length_m == length_m
      ensures this.width_m == width_m && this.volume_m3 == volume_m3
      ensures compartments == []
    {
      this.name := name;
      this.depth_m, this.length_m, this.width_m := depth_m, length_m, width_m;
      this.volume_m3 := volume_m3;
      compartments := [];
    }

    /** The volumes the attached compartments hold, in attachment order. */
    function CompartmentVolumes(): (vs: seq<Option<real>>)
      reads this`compartments, compartments
      ensures |vs| == |compartments|
      ensures forall i :: 0 <= i < |compartments| ==> vs[i] == compartments[i].volume_m3
    {
      var cs := compartments;
      seq(|cs|, i reads cs requires 0 <= i < |cs| => cs[i].volume_m3)
    }

    /** `add_compartment`: appends `c` and links it back to this box. */
    method AddCompartment(c: Compartment)
      modifies this`compartments, c`box
      ensures compartments == old(compartments) + [c]
      ensures c.box == this
    {
      compartments := compartments + [c];
      c.AssignBox(this);
    }

    /** `calc_Bvolume_m3`. */
    method CalcVolume()
      modifies this`volume_m3
      ensures volume_m3 == BoxVolume(old(volume_m3), depth_m, length_m, width_m, CompartmentVolumes())
    {
      if volume_m3.Some? {
        return;  // already assigned: a diagnostic only
      }
      if HasGeometry(depth_m, length_m, width_m) {
        volume_m3 := Some(depth_m.value * length_m.value * width_m.value);
        return;
      }
      if |compartments| == 0 {
        return;  // no compartments: a diagnostic only, the volume stays unset
      }
      ghost var vs := CompartmentVolumes();
      var vol: seq<real> := [];
      var c := 0;
      while c < |compartments|
        invariant 0 <= c <= |compartments|
        invariant vol == SetValues(vs[..c])
      {
        assert vs[..c + 1][..c] == vs[..c];
        if compartments[c].volume_m3.Some? {
          vol := vol + [compartments[c].volume_m3.value];
        }
        // an unset compartment volume is skipped, with a diagnostic
        c := c + 1;
      }
      assert vs[..c] == vs;
      volume_m3 := Some(Sum(vol));
    }
  }
}
