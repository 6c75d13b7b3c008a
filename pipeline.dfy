/** The particle part of `generate_objects` as it runs, after its readers:
    loops that size the free particle objects, create and size the carrier,
    and derive and size the biofouled and heteroaggregated particle objects.
    Each loop is proved against the value-level account in module Assembly. */
module Pipeline {
  import opened Outcomes
  import opened Geometry
  import opened Particles
  import opened Entities
  import opened Assembly

  predicate Distinct<T(==)>(xs: seq<T>) {
    forall i, j :: 0 <= i < j < |xs| ==> xs[i] != xs[j]
  }

  lemma DistinctAppend<T>(xs: seq<T>, x: T)
    requires Distinct(xs) && x !in xs
    ensures Distinct(xs + [x])
  {
  }

  /** The records the particle objects were constructed with. */
  function PropsOf(ps: seq<Particulate>): (r: seq<Props>)
    ensures |r| == |ps|
    ensures forall i :: 0 <= i < |ps| ==> r[i] == ps[i].props
  {
    seq(|ps|, i requires 0 <= i < |ps| => ps[i].props)
  }

  /** What the particle objects hold now. */
  function Views(ps: seq<Particulate>): (r: seq<Template>)
    reads set p | p in ps
    ensures |r| == |ps|
    ensures forall i :: 0 <= i < |ps| ==> r[i] == ps[i].View()
  {
    if ps == [] then [] else Views(ps[..|ps| - 1]) + [ps[|ps| - 1].View()]
  }

  lemma {:induction false} ViewsConcat(a: seq<Particulate>, b: seq<Particulate>)
    ensures Views(a + b) == Views(a) + Views(b)
  {
    if b != [] {
      assert (a + b)[..|a + b| - 1] == a + b[..|b| - 1];
      ViewsConcat(a, b[..|b| - 1]);
    } else {
      assert a + b == a;
    }
  }

  /** No particle object of `ps` has been added to a compartment yet. */
  predicate Unowned(ps: seq<Particulate>)
    reads set p | p in ps
  {
    forall i :: 0 <= i < |ps| ==> ps[i].compartment == null
  }

  lemma UnownedConcat(a: seq<Particulate>, b: seq<Particulate>)
    requires Unowned(a) && Unowned(b)
    ensures Unowned(a + b)
  {
  }

  /** One `calc_volume` on a particle just constructed, read as a step of
      a sizing loop. */
  method SizeOne(p: Particulate, ghost x: Props) returns (err: Option<Error>)
    requires p.View() == Unsized(x)
    modifies p`volume, p`csf
    ensures err.Some? ==> Sized(x) == Failure(err.value)
    ensures err.None? ==> Sized(x) == Success(p.View())
  {
    err := p.CalcVolume();
  }

  /** `calc_volume` on each particle object just constructed, in order; the
      first exception stops the loop. */
  method SizeAll(ps: seq<Particulate>) returns (err: Option<Error>)
    requires Distinct(ps)
    requires forall i :: 0 <= i < |ps| ==> ps[i].volume.None? && ps[i].csf.None?
    modifies ps`volume, ps`csf
    ensures var r := Traverse(PropsOf(ps), Sized);
            && (err.None? <==> r.Success?)
            && (r.Failure? ==> err == Some(r.error))
            && (r.Success? ==> Views(ps) == r.value)
  {
    ghost var xs := PropsOf(ps);
    ghost var done: seq<Template> := [];
    var i := 0;
    while i < |ps|
      invariant 0 <= i <= |ps| && |done| == i
      invariant forall j :: 0 <= j < i ==> Sized(xs[j]) == Success(done[j])
      invariant forall j :: 0 <= j < i ==> ps[j].View() == done[j]
      invariant forall j :: i <= j < |ps| ==> ps[j].volume.None? && ps[j].csf.None?
    {
      var e := SizeOne(ps[i], xs[i]);
      if e.Some? {
        TraverseFailsAt(xs, Sized, i);
        return e;
      }
      done := done + [ps[i].View()];
      i := i + 1;
    }
    TraverseSucceeds(xs, Sized, done);
    err := None;
  }

  /** Builds one new particle object per parent with a constructor that may
      raise (`ParticulatesBF` or `ParticulatesSPM`), in order; the first
      exception stops the loop. `pv` is what the parents hold. */
  method Derive(parents: seq<Particulate>, step: Template -> Result<Props>, ghost pv: seq<Template>)
    returns (r: Result<seq<Particulate>>)
    requires Views(parents) == pv
    ensures var s := Traverse(pv, step);
            && (r.Success? <==> s.Success?)
            && (r.Failure? ==> r.error == s.error)
            && (r.Success? ==>
                  && PropsOf(r.value) == s.value && Distinct(r.value)
                  && forall i :: 0 <= i < |r.value| ==>
                       fresh(r.value[i]) && r.value[i].volume.None? && r.value[i].csf.None? && r.value[i].compartment == null)
  {
    var made: seq<Particulate> := [];
    ghost var done: seq<Props> := [];
    var i := 0;
    while i < |parents|
      invariant 0 <= i <= |parents| && |done| == |made| == i
      invariant forall j :: 0 <= j < i ==> step(pv[j]) == Success(done[j])
      invariant PropsOf(made) == done && Distinct(made)
      invariant forall i :: 0 <= i < |made| ==>
                  fresh(made[i]) && made[i].volume.None? && made[i].csf.None? && made[i].compartment == null
    {
      var d := step(parents[i].View());
      if d.Failure? {
        TraverseFailsAt(pv, step, i);
        return Failure(d.error);
      }
      var q := new Particulate(d.value);
      DistinctAppend(made, q);
      made := made + [q];
      done := done + [d.value];
      i := i + 1;
    }
    TraverseSucceeds(pv, step, done);
    r := Success(made);
  }

  /** One `calc_volume_heter(parentMP, spm)` call, read as a step of the
      aggregate sizing loop. */
  method SizeAggregate(h: Particulate, parent: Particulate, carrier: Particulate,
                       ghost pair: (Props, Template), ghost cv: Template,
                       ghost size: ((Props, Template)) -> Result<Template>) returns (err: Option<Error>)
    requires h.View() == Unsized(pair.0) && parent.volume == pair.1.volume && carrier.volume == cv.volume
    requires h != parent && h != carrier && size == HeterSizing(cv)
    modifies h`volume, h`csf
    ensures err.Some? ==> size(pair) == Failure(err.value)
    ensures err.None? ==> size(pair) == Success(h.View())
  {
    err := h.CalcVolumeHeter(parent, carrier);
  }

  /** `calc_volume_heter(parentMP, spm)` on each aggregate just constructed,
      in order; the first exception stops the loop. `pv` and `cv` are what
      the parents and the carrier hold. */
  method HeterSizeAll(hs: seq<Particulate>, parents: seq<Particulate>, carrier: Particulate,
                      ghost pv: seq<Template>, ghost cv: Template, ghost size: ((Props, Template)) -> Result<Template>)
    returns (err: Option<Error>)
    requires |hs| == |parents| && Distinct(hs)
    requires Views(parents) == pv && carrier.View() == cv && size == HeterSizing(cv)
    requires forall i :: 0 <= i < |hs| ==> hs[i].volume.None? && hs[i].csf.None? && hs[i] != carrier
    requires forall i, j :: 0 <= i < |hs| && 0 <= j < |parents| ==> hs[i] != parents[j]
    modifies hs`volume, hs`csf
    ensures var r := Traverse(Zip(PropsOf(hs), pv), size);
            && (err.None? <==> r.Success?)
            && (r.Failure? ==> err == Some(r.error))
            && (r.Success? ==> Views(hs) == r.value)
  {
    ghost var xs := Zip(PropsOf(hs), pv);
    var i := 0;
    while i < |hs|
      invariant 0 <= i <= |hs|
      invariant forall j :: 0 <= j < i ==> size(xs[j]) == Success(hs[j].View())
      invariant forall j :: i <= j < |hs| ==> hs[j].volume.None? && hs[j].csf.None?
      invariant forall j :: 0 <= j < |parents| ==> parents[j].volume == pv[j].volume
      invariant carrier.volume == cv.volume
    {
      var e := SizeAggregate(hs[i], parents[i], carrier, xs[i], cv, size);
      if e.Some? {
        TraverseFailsAt(xs, size, i);
        return e;
      }
      i := i + 1;
    }
    TraverseSucceeds(xs, size, Views(hs));
    err := None;
  }

  /** The biofouled particles of a list of sized parents, built by `coat`
      and sized in turn by `calc_volume`. */
  function BiofouledStage(parents: seq<Template>, coat: Template -> Result<Props>): (r: Result<seq<Template>>)
    ensures r.Success? ==> |r.value| == |parents|
  {
    var b0 :- Traverse(parents, coat);
    Traverse(b0, Sized)
  }

  /** The heteroaggregates of a list of sized parents, built by `aggregate`
      and sized by `size` next to their parents. */
  function AggregatedStage(parents: seq<Template>, aggregate: Template -> Result<Props>,
                           size: ((Props, Template)) -> Result<Template>): (r: Result<seq<Template>>)
    ensures r.Success? ==> |r.value| == |parents|
  {
    var h0 :- Traverse(parents, aggregate);
    Traverse(Zip(h0, parents), size)
  }

  /** Everything derived from the sized free particles: biofouled,
      heteroaggregated, then biofouled-heteroaggregated templates. */
  function Derivations(f: seq<Template>, coat: Template -> Result<Props>, aggregate: Template -> Result<Props>,
                       size: ((Props, Template)) -> Result<Template>): (r: Result<seq<Template>>)
    ensures r.Success? ==> |r.value| == 3 * |f|
  {
    var b :- BiofouledStage(f, coat);
    var h :- AggregatedStage(f, aggregate, size);
    var bh :- AggregatedStage(b, aggregate, size);
    Success(b + h + bh)
  }

  lemma DerivationsSucceed(f: seq<Template>, coat: Template -> Result<Props>, aggregate: Template -> Result<Props>,
                           size: ((Props, Template)) -> Result<Template>, b: seq<Template>, h: seq<Template>,
                           bh: seq<Template>)
    requires BiofouledStage(f, coat) == Success(b)
    requires AggregatedStage(f, aggregate, size) == Success(h)
    requires AggregatedStage(b, aggregate, size) == Success(bh)
    ensures Derivations(f, coat, aggregate, size) == Success(b + h + bh)
  {
  }

  /** Template construction fails first when sizing the free particles does. */
  lemma SizingFails(free: seq<Props>, carrier: Template)
    requires Traverse(free, Sized).Failure?
    ensures BuildTemplates(free, carrier) == Failure(Traverse(free, Sized).error)
  {
  }

  lemma BiofoulingFails(free: seq<Props>, carrier: Template, f: seq<Template>)
    requires Traverse(free, Sized) == Success(f)
    requires BiofouledStage(f, Coating(carrier)).Failure?
    ensures BuildTemplates(free, carrier) == Failure(BiofouledStage(f, Coating(carrier)).error)
  {
  }

  lemma AggregatingFails(free: seq<Props>, carrier: Template, f: seq<Template>, b: seq<Template>)
    requires Traverse(free, Sized) == Success(f)
    requires BiofouledStage(f, Coating(carrier)) == Success(b)
    requires AggregatedStage(f, Aggregating(carrier), HeterSizing(carrier)).Failure?
    ensures BuildTemplates(free, carrier) == Failure(AggregatedStage(f, Aggregating(carrier), HeterSizing(carrier)).error)
  {
  }

  lemma BiofouledAggregatingFails(free: seq<Props>, carrier: Template, f: seq<Template>, b: seq<Template>,
                                  h: seq<Template>)
    requires Traverse(free, Sized) == Success(f)
    requires BiofouledStage(f, Coating(carrier)) == Success(b)
    requires AggregatedStage(f, Aggregating(carrier), HeterSizing(carrier)) == Success(h)
    requires AggregatedStage(b, Aggregating(carrier), HeterSizing(carrier)).Failure?
    ensures BuildTemplates(free, carrier) == Failure(AggregatedStage(b, Aggregating(carrier), HeterSizing(carrier)).error)
  {
  }

  lemma StagesSucceed(free: seq<Props>, carrier: Template, f: seq<Template>, b: seq<Template>,
                      h: seq<Template>, bh: seq<Template>)
    requires Traverse(free, Sized) == Success(f)
    requires BiofouledStage(f, Coating(carrier)) == Success(b)
    requires AggregatedStage(f, Aggregating(carrier), HeterSizing(carrier)) == Success(h)
    requires AggregatedStage(b, Aggregating(carrier), HeterSizing(carrier)) == Success(bh)
    ensures BuildTemplates(free, carrier) == Success(Templates(f, b, h, bh))
  {
  }

  lemma ConcatFour<T>(a: seq<T>, b: seq<T>, c: seq<T>, d: seq<T>)
    ensures a + b + c + d == a + (b + c + d)
  {
  }

  /** Once the free particles are sized, template construction fails with
      the first error of the derivations. */
  lemma DerivationsFail(free: seq<Props>, carrier: Template, f: seq<Template>)
    requires Traverse(free, Sized) == Success(f)
    requires Derivations(f, Coating(carrier), Aggregating(carrier), HeterSizing(carrier)).Failure?
    ensures BuildTemplates(free, carrier)
            == Failure(Derivations(f, Coating(carrier), Aggregating(carrier), HeterSizing(carrier)).error)
  {
    var coat, aggregate, size := Coating(carrier), Aggregating(carrier), HeterSizing(carrier);
    var b := BiofouledStage(f, coat);
    if b.Failure? {
      BiofoulingFails(free, carrier, f);
    } else {
      var h := AggregatedStage(f, aggregate, size);
      if h.Failure? {
        AggregatingFails(free, carrier, f, b.value);
      } else {
        BiofouledAggregatingFails(free, carrier, f, b.value, h.value);
      }
    }
  }

  /** Once the free particles are sized and the derivations succeed, the
      templates are the sized free particles followed by the derived ones. */
  lemma DerivationsSucceedAll(free: seq<Props>, carrier: Template, f: seq<Template>, d: seq<Template>)
    requires Traverse(free, Sized) == Success(f)
    requires Derivations(f, Coating(carrier), Aggregating(carrier), HeterSizing(carrier)) == Success(d)
    ensures BuildTemplates(free, carrier).Success? && BuildTemplates(free, carrier).value.All() == f + d
  {
    var coat, aggregate, size := Coating(carrier), Aggregating(carrier), HeterSizing(carrier);
    var b := BiofouledStage(f, coat).value;
    var h := AggregatedStage(f, aggregate, size).value;
    var bh := AggregatedStage(b, aggregate, size).value;
    ConcatFour(f, b, h, bh);
    assert Templates(f, b, h, bh).All() == f + d by {
      DerivationsSucceed(f, coat, aggregate, size, b, h, bh);
    }
    StagesSucceed(free, carrier, f, b, h, bh);
  }

  /** One `ParticulatesBF` per parent, each then sized with `calc_volume`. */
  method BiofoulAll(parents: seq<Particulate>, coat: Template -> Result<Props>, ghost pv: seq<Template>)
    returns (r: Result<seq<Particulate>>)
    requires Views(parents) == pv
    ensures var s := BiofouledStage(pv, coat);
            && (r.Success? <==> s.Success?)
            && (r.Failure? ==> r.error == s.error)
            && (r.Success? ==> Views(r.value) == s.value && Distinct(r.value) && Unowned(r.value))
  {
    var bf :- Derive(parents, coat, pv);
    var e := SizeAll(bf);
    if e.Some? {
      return Failure(e.value);
    }
    r := Success(bf);
  }

  /** One `ParticulatesSPM` per parent, each then sized with
      `calc_volume_heter(parent, carrier)`. */
  method AggregateAll(parents: seq<Particulate>, carrier: Particulate, aggregate: Template -> Result<Props>,
                      ghost pv: seq<Template>, ghost cv: Template, ghost size: ((Props, Template)) -> Result<Template>)
    returns (r: Result<seq<Particulate>>)
    requires Views(parents) == pv && carrier.View() == cv && size == HeterSizing(cv)
    ensures var s := AggregatedStage(pv, aggregate, size);
            && (r.Success? <==> s.Success?)
            && (r.Failure? ==> r.error == s.error)
            && (r.Success? ==> Views(r.value) == s.value && Distinct(r.value) && Unowned(r.value))
  {
    var het :- Derive(parents, aggregate, pv);
    var e := HeterSizeAll(het, parents, carrier, pv, cv, size);
    if e.Some? {
      return Failure(e.value);
    }
    r := Success(het);
  }

  /** The three derivation loops of `generate_objects`, each followed by its
      sizing loop; nothing that existed before is changed. */
  method DeriveTemplates(free: seq<Particulate>, carrier: Particulate, coat: Template -> Result<Props>,
                         aggregate: Template -> Result<Props>, ghost f: seq<Template>, ghost cv: Template,
                         ghost size: ((Props, Template)) -> Result<Template>)
    returns (r: Result<seq<Particulate>>)
    requires Views(free) == f && carrier.View() == cv && size == HeterSizing(cv)
    ensures var d := Derivations(f, coat, aggregate, size);
            && (r.Success? <==> d.Success?)
            && (r.Failure? ==> r.error == d.error)
            && (r.Success? ==> Views(r.value) == d.value && Unowned(r.value))
  {
    var bf :- BiofoulAll(free, coat, f);
    ghost var b := Views(bf);
    var het :- AggregateAll(free, carrier, aggregate, f, cv, size);
    ghost var h := Views(het);
    assert Unowned(bf);
    var bh :- AggregateAll(bf, carrier, aggregate, b, cv, size);
    ghost var bhv := Views(bh);
    assert Unowned(bf) && Unowned(het);
    DerivationsSucceed(f, coat, aggregate, size, b, h, bhv);
    ViewsConcat(bf, het);
    ViewsConcat(bf + het, bh);
    UnownedConcat(bf, het);
    UnownedConcat(bf + het, bh);
    r := Success(bf + het + bh);
  }

  /** The suspended-matter particle `spm1` of `generate_objects`, created
      and sized; it is a sphere, so `calc_volume` cannot raise. */
  method NewCarrier(spmDensity: real, spmRadius_um: real) returns (spm: Particulate)
    ensures fresh(spm) && spm.View() == Carrier(spmDensity, spmRadius_um) && spm.compartment == null
  {
    spm := new Particulate(NewParticle("spm1", "suspendedParticulates", "Mixed", spmDensity, "sphere",
                                       spmRadius_um, 0.0, 0.0, DEFAULT_HALF_LIFE, None));
    var _ := spm.CalcVolume();
  }

  /** The particle part of `generate_objects`: sizes the free particles,
      creates and sizes the carrier, then derives and sizes the biofouled,
      the heteroaggregated and the biofouled-heteroaggregated particles. The
      templates are returned in the order the source concatenates them. */
  method BuildTemplateObjects(free: seq<Particulate>, spmDensity: real, spmRadius_um: real)
    returns (r: Result<(seq<Particulate>, Particulate)>)
    requires Distinct(free) && Unowned(free)
    requires forall i :: 0 <= i < |free| ==> free[i].volume.None? && free[i].csf.None?
    modifies free`volume, free`csf
    ensures var b := BuildTemplates(PropsOf(free), Carrier(spmDensity, spmRadius_um));
            && (r.Success? <==> b.Success?)
            && (r.Failure? ==> r.error == b.error)
            && (r.Success? ==>
                  && fresh(r.value.1) && r.value.1.View() == Carrier(spmDensity, spmRadius_um)
                  && Views(r.value.0) == b.value.All()
                  && Unowned(r.value.0))
  {
    ghost var carrier := Carrier(spmDensity, spmRadius_um);
    var e := SizeAll(free);
    if e.Some? {
      SizingFails(PropsOf(free), carrier);
      return Failure(e.value);
    }
    ghost var f := Views(free);
    assert Unowned(free);
    var spm := NewCarrier(spmDensity, spmRadius_um);
    var derived := DeriveTemplates(free, spm, Coating(spm.View()), Aggregating(spm.View()), f, carrier,
                                   HeterSizing(carrier));
    assert Unowned(free);
    if derived.Failure? {
      DerivationsFail(PropsOf(free), carrier, f);
      return Failure(derived.error);
    }
    DerivationsSucceedAll(PropsOf(free), carrier, f, Views(derived.value));
    ViewsConcat(free, derived.value);
    UnownedConcat(free, derived.value);
    r := Success((free + derived.value, spm));
  }
}
