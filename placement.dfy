/** The compartment part of `generate_objects`: number and measure the
    compartments, attach deep copies of them to the model box, put a copy of
    every particle template into every attached compartment, and read the
    population back compartment by compartment, bucket by bucket. */
module Placement {
  import opened Outcomes
  import opened Geometry
  import opened Particles
  import opened Entities
  import opened Assembly
  import opened Pipeline

  /** Numbers the compartments 1..n in list order (`Ccode`). */
  method AssignCodes(cs: seq<Compartment>)
    requires Distinct(cs)
    modifies cs`code
    ensures forall i :: 0 <= i < |cs| ==> cs[i].code == Some(i + 1)
  {
    for i := 0 to |cs|
      invariant forall j :: 0 <= j < i ==> cs[j].code == Some(j + 1)
    {
      cs[i].code := Some(i + 1);
    }
  }

  /** `calc_volume` on every compartment. */
  method ResolveVolumes(cs: seq<Compartment>)
    modifies cs`volume_m3
    ensures forall c :: c in cs ==> c.volume_m3 == ResolvedVolume(old(c.volume_m3), c.depth_m, c.length_m, c.width_m)
  {
    for i := 0 to |cs|
      invariant forall c :: c in cs[..i] ==>
                  c.volume_m3 == ResolvedVolume(old(c.volume_m3), c.depth_m, c.length_m, c.width_m)
      invariant forall c :: c in cs[i..] && c !in cs[..i] ==> c.volume_m3 == old(c.volume_m3)
    {
      ResolvedVolumeIdempotent(old(cs[i].volume_m3), cs[i].depth_m, cs[i].length_m, cs[i].width_m);
      cs[i].CalcVolume();
      assert cs[..i + 1] == cs[..i] + [cs[i]];
    }
  }

  /** `ps` are distinct objects holding `ts`, in order, each owned by `owner`. */
  predicate Holds(ps: seq<Particulate>, ts: seq<Template>, owner: Compartment)
    reads ps
  {
    && |ps| == |ts| && Distinct(ps)
    && forall i :: 0 <= i < |ps| ==> ps[i].View() == ts[i] && ps[i].compartment == owner
  }

  /** Every bucket of `c` holds its own copies of the templates of that
      aggregation state, in template order. */
  predicate Filled(c: Compartment, ts: seq<Template>)
    requires c.Valid()
    reads c`particles, c.particles[FREE], c.particles[HETER], c.particles[BIOF], c.particles[HETER_BIOF]
  {
    && Holds(c.particles[FREE], OfForm(ts, FREE), c)
    && Holds(c.particles[HETER], OfForm(ts, HETER), c)
    && Holds(c.particles[BIOF], OfForm(ts, BIOF), c)
    && Holds(c.particles[HETER_BIOF], OfForm(ts, HETER_BIOF), c)
  }

  /** The compartment as the constructor left it: one empty bucket per state. */
  predicate Empty(c: Compartment)
    reads c`particles
  {
    c.Valid() && forall f :: f in c.particles ==> c.particles[f] == []
  }

  lemma OfFormStep(ts: seq<Template>, j: nat, f: string)
    requires j < |ts|
    ensures OfForm(ts[..j + 1], f) == OfForm(ts[..j], f) + (if ts[j].props.form == f then [ts[j]] else [])
  {
    assert ts[..j + 1][..j] == ts[..j];
  }

  /** The error `add_particles` raises for the first template without a
      bucket, if any. */
  function StrayError(ts: seq<Template>): (err: Option<Error>)
    ensures err.None? <==> forall i :: 0 <= i < |ts| ==> HasBucket(ts[i])
    ensures err.Some? ==> err.value.UnknownForm? && !IsForm(err.value.form)
  {
    match FirstStray(ts)
    case None => None
    case Some(form) => Some(UnknownForm(form))
  }

  /** One bucket after the template at position `j` was offered to it. */
  lemma BucketStep(before: seq<Particulate>, after: seq<Particulate>, q: Particulate, ts: seq<Template>, j: nat,
                   f: string, c: Compartment)
    requires j < |ts| && q.View() == ts[j] && q.compartment == c && q !in before
    requires Holds(before, OfForm(ts[..j], f), c)
    requires after == if ts[j].props.form == f then before + [q] else before
    ensures Holds(after, OfForm(ts[..j + 1], f), c)
  {
    OfFormStep(ts, j, f);
    if ts[j].props.form == f {
      DistinctAppend(before, q);
    }
  }

  lemma AcceptedStep(ts: seq<Template>, j: nat)
    requires j < |ts| && IsForm(ts[j].props.form)
    requires forall i :: 0 <= i < j ==> IsForm(ts[i].props.form)
    ensures forall i :: 0 <= i < j + 1 ==> IsForm(ts[i].props.form)
  {
  }

  /** `c.add_particles(copy.deepcopy(p))` for the template at position `j`:
      the copy joins the bucket of its aggregation state, or the lookup
      raises when there is none. */
  method AddCopy(c: Compartment, p: Particulate, ghost ts: seq<Template>, ghost j: nat) returns (err: Option<Error>)
    requires j < |ts| && p.View() == ts[j] && p.compartment == null
    requires c.Valid() && Filled(c, ts[..j])
    modifies c`particles
    ensures c.Valid()
    ensures err.Some? <==> !IsForm(ts[j].props.form)
    ensures err.Some? ==> err.value == UnknownForm(ts[j].props.form)
    ensures err.None? ==> Filled(c, ts[..j + 1])
  {
    var q := p.Copy();
    BucketFormsAreForms(q.props.form);
    ghost var before := c.particles;
    err := c.AddParticles(q);
    if err.Some? {
      return;
    }
    BucketStep(before[FREE], c.particles[FREE], q, ts, j, FREE, c);
    BucketStep(before[HETER], c.particles[HETER], q, ts, j, HETER, c);
    BucketStep(before[BIOF], c.particles[BIOF], q, ts, j, BIOF, c);
    BucketStep(before[HETER_BIOF], c.particles[HETER_BIOF], q, ts, j, HETER_BIOF, c);
  }

  /** `for p in particles: c.add_particles(copy.deepcopy(p))` for one
      compartment. The first template without a bucket raises; the copies
      added before it stay. */
  method FillCompartment(c: Compartment, templates: seq<Particulate>, ghost ts: seq<Template>) returns (err: Option<Error>)
    requires Empty(c) && Unowned(templates) && Views(templates) == ts
    modifies c`particles
    ensures c.Valid()
    ensures err == StrayError(ts)
    ensures err.None? ==> Filled(c, ts)
  {
    var j := 0;
    while j < |templates|
      invariant 0 <= j <= |templates|
      invariant Views(templates) == ts
      invariant forall i :: 0 <= i < j ==> IsForm(ts[i].props.form)
      invariant c.Valid() && Filled(c, ts[..j])
    {
      var e := AddCopy(c, templates[j], ts, j);
      if e.Some? {
        FirstStrayAt(ts, j);
        return e;
      }
      AcceptedStep(ts, j);
      j := j + 1;
    }
    assert ts[..j] == ts;
    err := None;
  }

  /** `copy` carries the attributes of `orig` that `copy.deepcopy` reproduces. */
  predicate Copied(copy: Compartment, orig: Compartment)
    reads copy`volume_m3, copy`code, copy`connexions, orig`volume_m3, orig`code, orig`connexions
  {
    && copy.name == orig.name && copy.kind == orig.kind
    && copy.depth_m == orig.depth_m && copy.length_m == orig.length_m && copy.width_m == orig.width_m
    && copy.surfaceArea_m2 == orig.surfaceArea_m2 && copy.volume_m3 == orig.volume_m3
    && copy.code == orig.code && copy.connexions == orig.connexions
  }

  /** `for comp in compartments: box.add_compartment(copy.deepcopy(comp))`:
      the box gets one new compartment per original, in order, each linked
      back to the box and with empty buckets. */
  method AttachCopies(box: Box, cs: seq<Compartment>)
    requires box.compartments == []
    requires forall i :: 0 <= i < |cs| ==> cs[i].box == null && Empty(cs[i])
    modifies box`compartments
    ensures |box.compartments| == |cs| && Distinct(box.compartments)
    ensures forall i :: 0 <= i < |cs| ==>
              && fresh(box.compartments[i]) && Copied(box.compartments[i], cs[i])
              && box.compartments[i].box == box && Empty(box.compartments[i])
  {
    for k := 0 to |cs|
      invariant |box.compartments| == k && Distinct(box.compartments)
      invariant forall i :: 0 <= i < k ==>
                  && fresh(box.compartments[i]) && Copied(box.compartments[i], cs[i])
                  && box.compartments[i].box == box && Empty(box.compartments[i])
    {
      var copy := cs[k].Clone();
      box.AddCompartment(copy);
    }
  }

  /** One round of the nested loop: compartment k receives its copies;
      the compartments before it stay filled and the ones after it empty. */
  method FillNext(cs: seq<Compartment>, k: nat, c: Compartment, templates: seq<Particulate>, ghost ts: seq<Template>)
    returns (err: Option<Error>)
    requires k < |cs| && c == cs[k] && Distinct(cs)
    requires forall i :: 0 <= i < k ==> cs[i].Valid() && Filled(cs[i], ts)
    requires forall i :: k <= i < |cs| ==> Empty(cs[i])
    requires Unowned(templates) && Views(templates) == ts
    modifies c`particles
    ensures err == StrayError(ts)
    ensures err.None? ==> forall i :: 0 <= i <= k ==> cs[i].Valid() && Filled(cs[i], ts)
    ensures forall i :: k < i < |cs| ==> Empty(cs[i])
  {
    err := FillCompartment(c, templates, ts);
  }

  /** The nested loop that fills the model box: every attached compartment,
      in order, receives a copy of every template. A template without a bucket
      raises in the first compartment. */
  method Populate(cs: seq<Compartment>, templates: seq<Particulate>, ghost ts: seq<Template>)
    returns (err: Option<Error>)
    requires Distinct(cs) && forall i :: 0 <= i < |cs| ==> Empty(cs[i])
    requires Unowned(templates) && Views(templates) == ts
    modifies cs`particles
    ensures err == if cs == [] then None else StrayError(ts)
    ensures err.None? ==> forall i :: 0 <= i < |cs| ==> cs[i].Valid() && Filled(cs[i], ts)
  {
    for k := 0 to |cs|
      invariant forall i :: 0 <= i < k ==> cs[i].Valid() && Filled(cs[i], ts)
      invariant forall i :: k <= i < |cs| ==> Empty(cs[i])
      invariant k > 0 ==> StrayError(ts).None?
    {
      var e := FillNext(cs, k, cs[k], templates, ts);
      if e.Some? {
        return e;
      }
    }
    err := None;
  }

  /** The particle objects of the compartments: each compartment's buckets
      freeMP, heterMP, biofMP, heterBiofMP, compartment after compartment. */
  function Gathered(cs: seq<Compartment>): (r: seq<Particulate>)
    requires forall i :: 0 <= i < |cs| ==> cs[i].Valid()
    reads cs`particles
  {
    if cs == [] then [] else Gathered(cs[..|cs| - 1]) + cs[|cs| - 1].Contents()
  }

  /** `for p in bucket: population.append(p)`. */
  method AppendAll(population: seq<Particulate>, bucket: seq<Particulate>) returns (r: seq<Particulate>)
    ensures r == population + bucket
  {
    r := population;
    for i := 0 to |bucket|
      invariant r == population + bucket[..i]
    {
      assert bucket[..i + 1] == bucket[..i] + [bucket[i]];
      r := r + [bucket[i]];
    }
  }

  /** Each compartment's particles, bucket by bucket. */
  function ContentsOf(cs: seq<Compartment>): (r: seq<seq<Particulate>>)
    requires forall i :: 0 <= i < |cs| ==> cs[i].Valid()
    reads cs`particles
    ensures |r| == |cs| && forall i :: 0 <= i < |cs| ==> r[i] == cs[i].Contents()
  {
    if cs == [] then [] else ContentsOf(cs[..|cs| - 1]) + [cs[|cs| - 1].Contents()]
  }

  function Join(parts: seq<seq<Particulate>>): seq<Particulate> {
    if parts == [] then [] else Join(parts[..|parts| - 1]) + parts[|parts| - 1]
  }

  lemma JoinStep(parts: seq<seq<Particulate>>, k: nat)
    requires k < |parts|
    ensures Join(parts[..k + 1]) == Join(parts[..k]) + parts[k]
  {
    assert parts[..k + 1][..k] == parts[..k];
  }

  lemma {:induction false} GatheredJoin(cs: seq<Compartment>)
    requires forall i :: 0 <= i < |cs| ==> cs[i].Valid()
    ensures Gathered(cs) == Join(ContentsOf(cs))
  {
    if cs != [] {
      GatheredJoin(cs[..|cs| - 1]);
      assert ContentsOf(cs[..|cs| - 1]) == ContentsOf(cs)[..|cs| - 1];
    }
  }

  lemma AppendFour<T>(p: seq<T>, a: seq<T>, b: seq<T>, c: seq<T>, d: seq<T>)
    ensures p + a + b + c + d == p + (a + b + c + d)
  {
  }

  /** `system_particle_object_list`: read back, compartment by compartment,
      the buckets in the order freeMP, heterMP, biofMP, heterBiofMP. */
  method Flatten(cs: seq<Compartment>) returns (population: seq<Particulate>)
    requires forall i :: 0 <= i < |cs| ==> cs[i].Valid()
    ensures population == Gathered(cs)
  {
    ghost var parts := ContentsOf(cs);
    GatheredJoin(cs);
    population := [];
    for k := 0 to |cs|
      invariant population == Join(parts[..k])
    {
      JoinStep(parts, k);
      var c := cs[k];
      ghost var before := population;
      population := AppendAll(population, c.particles[FREE]);
      population := AppendAll(population, c.particles[HETER]);
      population := AppendAll(population, c.particles[BIOF]);
      population := AppendAll(population, c.particles[HETER_BIOF]);
      AppendFour(before, c.particles[FREE], c.particles[HETER], c.particles[BIOF], c.particles[HETER_BIOF]);
    }
    assert parts[..|cs|] == parts;
  }

  lemma DistinctConcat<T>(a: seq<T>, b: seq<T>)
    requires Distinct(a) && Distinct(b)
    requires forall i, j :: 0 <= i < |a| && 0 <= j < |b| ==> a[i] != b[j]
    ensures Distinct(a + b)
  {
  }

  /** A bucket read back shows the templates it was given. */
  lemma HoldsShows(ps: seq<Particulate>, ts: seq<Template>, owner: Compartment)
    requires Holds(ps, ts, owner)
    ensures Views(ps) == ts
  {
  }

  /** A filled compartment's particles read back, bucket by bucket, as the
      arranged templates; they are distinct objects, all its own. */
  lemma ContentsShow(c: Compartment, ts: seq<Template>)
    requires c.Valid() && Filled(c, ts)
    ensures Views(c.Contents()) == Arrange(ts)
    ensures Distinct(c.Contents())
    ensures forall i :: 0 <= i < |c.Contents()| ==> c.Contents()[i].compartment == c
  {
    var a, b, d, e := c.particles[FREE], c.particles[HETER], c.particles[BIOF], c.particles[HETER_BIOF];
    HoldsShows(a, OfForm(ts, FREE), c);
    HoldsShows(b, OfForm(ts, HETER), c);
    HoldsShows(d, OfForm(ts, BIOF), c);
    HoldsShows(e, OfForm(ts, HETER_BIOF), c);
    ViewsConcat(a, b);
    ViewsConcat(a + b, d);
    ViewsConcat(a + b + d, e);
    DistinctConcat(a, b);
    DistinctConcat(a + b, d);
    DistinctConcat(a + b + d, e);
  }

  lemma GatheredStep(cs: seq<Compartment>, k: nat)
    requires k < |cs| && forall i :: 0 <= i < |cs| ==> cs[i].Valid()
    ensures Gathered(cs[..k + 1]) == Gathered(cs[..k]) + cs[k].Contents()
  {
    assert cs[..k + 1][..k] == cs[..k];
  }

  /** The population gathered from compartments each filled with the
      templates reads back as the value-level population. */
  lemma {:induction false} GatheredShows(cs: seq<Compartment>, ts: seq<Template>)
    requires forall i :: 0 <= i < |cs| ==> cs[i].Valid() && Filled(cs[i], ts)
    ensures Views(Gathered(cs)) == Population(ts, |cs|)
  {
    if cs != [] {
      var init, last := cs[..|cs| - 1], cs[|cs| - 1];
      GatheredShows(init, ts);
      ContentsShow(last, ts);
      ViewsConcat(Gathered(init), last.Contents());
    }
  }

  /** Each gathered particle object is owned by one of the compartments it
      was gathered from, and none is gathered twice. */
  lemma {:induction false} GatheredDistinct(cs: seq<Compartment>, ts: seq<Template>)
    requires Distinct(cs)
    requires forall i :: 0 <= i < |cs| ==> cs[i].Valid() && Filled(cs[i], ts)
    ensures Distinct(Gathered(cs))
    ensures forall i :: 0 <= i < |Gathered(cs)| ==> Gathered(cs)[i].compartment in cs
  {
    if cs != [] {
      var init, last := cs[..|cs| - 1], cs[|cs| - 1];
      GatheredDistinct(init, ts);
      ContentsShow(last, ts);
      var g, k := Gathered(init), last.Contents();
      assert last !in init;
      DistinctConcat(g, k);
      assert Gathered(cs) == g + k;
    }
  }

  /** Fill the attached compartments and read the population back. */
  method FillAndGather(cs: seq<Compartment>, templates: seq<Particulate>, ghost ts: seq<Template>)
    returns (r: Result<seq<Particulate>>)
    requires Distinct(cs) && forall i :: 0 <= i < |cs| ==> Empty(cs[i])
    requires Unowned(templates) && Views(templates) == ts
    modifies cs`particles
    ensures r.Failure? <==> cs != [] && StrayError(ts).Some?
    ensures r.Failure? ==> r.error == StrayError(ts).value
    ensures r.Success? ==>
              && Views(r.value) == Population(ts, |cs|)
              && Distinct(r.value)
              && (forall i :: 0 <= i < |r.value| ==> r.value[i].compartment in cs)
  {
    var err := Populate(cs, templates, ts);
    if err.Some? {
      return Failure(err.value);
    }
    var population := Flatten(cs);
    GatheredShows(cs, ts);
    GatheredDistinct(cs, ts);
    r := Success(population);
  }

  /** The model box after its compartments were attached and filled. */
  method PlaceAll(boxName: string, cs: seq<Compartment>, templates: seq<Particulate>, ghost ts: seq<Template>)
    returns (r: Result<(Box, seq<Particulate>)>)
    requires forall i :: 0 <= i < |cs| ==> cs[i].box == null && Empty(cs[i])
    requires Unowned(templates) && Views(templates) == ts
    ensures r.Failure? <==> cs != [] && StrayError(ts).Some?
    ensures r.Failure? ==> r.error == StrayError(ts).value
    ensures r.Success? ==>
              var (box, population) := r.value;
              && fresh(box) && box.name == boxName && |box.compartments| == |cs|
              && (forall i :: 0 <= i < |cs| ==>
                    && fresh(box.compartments[i]) && Copied(box.compartments[i], cs[i])
                    && box.compartments[i].box == box)
              && Views(population) == Population(ts, |cs|)
              && Distinct(population)
              && (forall i :: 0 <= i < |population| ==> population[i].compartment in box.compartments)
  {
    var box := new Box(boxName, None, None, None, None);
    AttachCopies(box, cs);
    var attached := box.compartments;
    var population :- FillAndGather(attached, templates, ts);
    r := Success((box, population));
  }

  /** `compartmentNames_list`. */
  function Names(cs: seq<Compartment>): (r: seq<string>)
    ensures |r| == |cs| && forall i :: 0 <= i < |cs| ==> r[i] == cs[i].name
  {
    seq(|cs|, i requires 0 <= i < |cs| => cs[i].name)
  }

  /** The (name, compartment) pairs `dict_comp` is built from. */
  function NamePairs(cs: seq<Compartment>): (r: seq<(string, Compartment)>)
    ensures |r| == |cs| && forall i :: 0 <= i < |cs| ==> r[i] == (cs[i].name, cs[i])
  {
    seq(|cs|, i requires 0 <= i < |cs| => (cs[i].name, cs[i]))
  }

  /** What `generate_objects` returns, less the species list and the
      property table, with the model box it fills. */
  datatype ModelObjects = ModelObjects(
    population: seq<Particulate>,
    carrier: Particulate,
    box: Box,
    compartmentsByName: map<string, Compartment>,
    compartmentNames: seq<string>,
    boxNames: seq<string>,
    sizeCoding: map<string, real>)

  /** `Generate` read as the steps the code takes: build the templates, then
      fail on a stray aggregation state only if there is a compartment. */
  lemma GenerateSteps(free: seq<Props>, carrier: Template, m: nat)
    ensures BuildTemplates(free, carrier).Failure? ==>
              Generate(free, carrier, m) == Failure(BuildTemplates(free, carrier).error)
    ensures BuildTemplates(free, carrier).Success? ==>
              var ts := BuildTemplates(free, carrier).value.All();
              Generate(free, carrier, m) ==
                if m > 0 && StrayError(ts).Some? then Failure(StrayError(ts).value) else Success(Population(ts, m))
  {
  }

  /** The compartment steps of `generate_objects` before any particle is
      made: codes 1..n in list order, volumes resolved, the name index and
      the name list. */
  method PrepareCompartments(compartments: seq<Compartment>)
    returns (byName: map<string, Compartment>, names: seq<string>)
    requires Distinct(compartments)
    modifies compartments`code, compartments`volume_m3
    ensures forall i :: 0 <= i < |compartments| ==> compartments[i].code == Some(i + 1)
    ensures forall c :: c in compartments ==>
              c.volume_m3 == ResolvedVolume(old(c.volume_m3), c.depth_m, c.length_m, c.width_m)
    ensures byName == Keyed(NamePairs(compartments)) && names == Names(compartments)
  {
    AssignCodes(compartments);
    ResolveVolumes(compartments);
    byName := Keyed(NamePairs(compartments));
    names := Names(compartments);
  }

  /** The particle and placement steps of `generate_objects`: the templates
      and the carrier, then the model box filled with copies of them. */
  method Assemble(boxName: string, compartments: seq<Compartment>, free: seq<Particulate>,
                  spmDensity: real, spmRadius_um: real)
    returns (r: Result<(seq<Particulate>, Particulate, Box)>)
    requires forall i :: 0 <= i < |compartments| ==> compartments[i].box == null && Empty(compartments[i])
    requires Distinct(free) && Unowned(free)
    requires forall i :: 0 <= i < |free| ==> free[i].volume.None? && free[i].csf.None?
    modifies free`volume, free`csf
    ensures var g := Generate(PropsOf(free), Carrier(spmDensity, spmRadius_um), |compartments|);
            && (r.Success? <==> g.Success?)
            && (r.Failure? ==> r.error == g.error)
            && (r.Success? ==> Views(r.value.0) == g.value)
    ensures r.Success? ==>
              var (population, spm, box) := r.value;
              && Distinct(population)
              && (forall i :: 0 <= i < |population| ==> population[i].compartment in box.compartments)
              && fresh(box) && box.name == boxName && |box.compartments| == |compartments|
              && (forall i :: 0 <= i < |compartments| ==>
                    && fresh(box.compartments[i]) && Copied(box.compartments[i], compartments[i])
                    && box.compartments[i].box == box)
              && fresh(spm) && spm.View() == Carrier(spmDensity, spmRadius_um)
  {
    GenerateSteps(PropsOf(free), Carrier(spmDensity, spmRadius_um), |compartments|);
    var built := BuildTemplateObjects(free, spmDensity, spmRadius_um);
    if built.Failure? {
      return Failure(built.error);
    }
    var (templates, spm) := built.value;
    var placed := PlaceAll(boxName, compartments, templates, Views(templates));
    if placed.Failure? {
      return Failure(placed.error);
    }
    var (box, population) := placed.value;
    r := Success((population, spm, box));
  }

  /** `generate_objects` after its readers: number and measure the
      compartments, key them by name, build and size the particle templates,
      attach copies of the compartments to a new model box, fill each with
      copies of the templates and gather the population. The population
      reads back as `Generate` on values, or the call fails as it does. */
  method GenerateObjects(boxName: string, compartments: seq<Compartment>, free: seq<Particulate>,
                         spmDensity: real, spmRadius_um: real)
    returns (r: Result<ModelObjects>)
    requires Distinct(compartments)
    requires forall i :: 0 <= i < |compartments| ==> compartments[i].box == null && Empty(compartments[i])
    requires Distinct(free) && Unowned(free)
    requires forall i :: 0 <= i < |free| ==> free[i].volume.None? && free[i].csf.None?
    modifies compartments`code, compartments`volume_m3, free`volume, free`csf
    ensures forall i :: 0 <= i < |compartments| ==> compartments[i].code == Some(i + 1)
    ensures forall c :: c in compartments ==>
              c.volume_m3 == ResolvedVolume(old(c.volume_m3), c.depth_m, c.length_m, c.width_m)
    ensures var g := Generate(PropsOf(free), Carrier(spmDensity, spmRadius_um), |compartments|);
            && (r.Success? <==> g.Success?)
            && (r.Failure? ==> r.error == g.error)
            && (r.Success? ==> Views(r.value.population) == g.value)
    ensures r.Success? ==>
              var o := r.value;
              && Distinct(o.population)
              && (forall i :: 0 <= i < |o.population| ==> o.population[i].compartment in o.box.compartments)
              && fresh(o.box) && o.box.name == boxName && |o.box.compartments| == |compartments|
              && (forall i :: 0 <= i < |compartments| ==>
                    && fresh(o.box.compartments[i]) && Copied(o.box.compartments[i], compartments[i])
                    && o.box.compartments[i].box == o.box)
              && fresh(o.carrier) && o.carrier.View() == Carrier(spmDensity, spmRadius_um)
              && o.compartmentsByName == Keyed(NamePairs(compartments))
              && o.compartmentNames == Names(compartments)
              && o.boxNames == [boxName]
              && o.sizeCoding == SizeCoding(PropsOf(free))
  {
    var byName, names := PrepareCompartments(compartments);
    var sizeCoding := SizeCoding(PropsOf(free));
    var assembled :- Assemble(boxName, compartments, free, spmDensity, spmRadius_um);
    var (population, spm, box) := assembled;
    r := Success(ModelObjects(population, spm, box, byName, names, [boxName], sizeCoding));
  }
}
