# UTOPIA object generation, modelled in Dafny

This project models the entity and assembly engine of the UTOPIA
multimedia microplastics model (`src/utopia/objects_generation.py`):

- the model `Box`, with its compartments and its volume rule;
- `Compartment` and its six specialisations (water, surface sea water,
  sediment, soil surface, deep soil, air), with their fixed process lists,
  their particle buckets (one per aggregation state: `freeMP`, `heterMP`,
  `biofMP`, `heterBiofMP`) and their volume rules;
- `Particulates`, with the shape-dispatched volume and Corey shape factor
  (`calc_volume`) and the mass-to-number conversion (`calc_numConc`);
- `ParticulatesBF`, a particle coated with a biofilm whose density and
  thickness come from the suspended-matter carrier;
- `ParticulatesSPM`, a particle heteroaggregated with the carrier, and its
  `calc_volume_heter`;
- the assembly part of `generate_objects`:
  - number the compartments and resolve their volumes;
  - index them by name;
  - size the free particles and build and size the carrier;
  - derive the biofouled, heteroaggregated and biofouled-heteroaggregated
    particles and size them;
  - attach deep copies of the compartments to a new box;
  - put a deep copy of every particle into every attached compartment;
  - read the population back, compartment by compartment and bucket by bucket.

The model has two layers:

- Objects whose attributes the program writes in place are classes with
  `modifies` frames (`Entities.Particulate`, `Entities.Compartment`,
  `Entities.Box`). So are the loops of `generate_objects`
  (`Pipeline`, `Placement`).
- Each method is proved against a function on values that states the same
  step (`Particles.VolumeStep`, `Particles.HeterVolumeStep`,
  `Geometry.BoxVolume`, `Assembly.BuildTemplates`, `Assembly.Generate`).
  The properties of the program are proved as lemmas about those functions.

Exceptions become `Outcomes.Result` / `Option<Error>` values. The first one
raised ends the run, as it ends `generate_objects`.

Files: `outcomes.dfy`, `geometry.dfy`, `particles.dfy`, `entities.dfy`,
`assembly.dfy`, `pipeline.dfy`, `placement.dfy`.

### What the code does with non-sphere particles

The `Compartment` docstring (objects_generation.py:82) describes four
aggregation states per compartment, and the comments before
`calc_volume_heter` (objects_generation.py:581-584) list spheres, fibres,
cylinders, pellets and fragments. The code builds the four states for
spheres only:

- `ParticulatesSPM.__init__` (objects_generation.py:551-577) sets no
  dimensions.
- `calc_volume_heter` reads `PdimensionY_m` on the fibre/cylinder branch
  (objects_generation.py:601) and `PdimensionX_m` on the pellet/fragment
  branch (objects_generation.py:611-612). For an aggregate those attributes
  do not exist, so the call raises.
- A particle of unknown shape never gets the volume the aggregate
  constructor reads.

So `generate_objects` returns only when every free particle is a sphere.
This is proved as `Assembly.SpheresAt` and `Assembly.TemplatesNeedSpheres`,
and the converse as `Assembly.TemplatesForSpheres`.

Order: the bucket order in which the population is read back
(freeMP, heterMP, biofMP, heterBiofMP) is not the order in which the
particle lists are concatenated (free, biofouled, heteroaggregated,
biofouled-heteroaggregated). See `Assembly.ArrangeTemplates`.

## Model

| member | source | states |
|---|---|---|
| Entities.Box.constructor | src/utopia/objects_generation.py:14-30 | A new box keeps its name, geometry and volume (each possibly unset) and has no compartments |
| Entities.Box.AddCompartment | src/utopia/objects_generation.py:45-47 | The compartment is appended to the box's list, and its box link points back to this box |
| Entities.Box.CalcVolume | src/utopia/objects_generation.py:49-78 | The new box volume is `BoxVolume` of the old one, the box geometry and the compartment volumes in attachment order |
| Geometry.BoxVolume | src/utopia/objects_generation.py:49-78 | A set volume is kept; otherwise full geometry gives depth×length×width; otherwise the volume stays unset exactly when there are no compartments |
| Geometry.BoxVolumeFromCompartments | src/utopia/objects_generation.py:59-72 | Without geometry, the box volume is the total of the set compartment volumes with unset ones read as 0; it is 0.0, not unset, when no compartment has a volume |
| Geometry.SkippingEqualsZeroFill | src/utopia/objects_generation.py:61-72 | Skipping unset volumes in the sum gives the same total as counting them as zero |
| Geometry.BoxContainsEachCompartment | src/utopia/objects_generation.py:59-72 | A box sized from non-negative compartment volumes is at least as large as each compartment with a volume |
| Entities.Compartment.constructor | src/utopia/objects_generation.py:84-116 | A new compartment keeps its name, kind, geometry, volume and surface area; it has no box, no code, no connexions, and one empty bucket per aggregation state |
| Entities.Processes | src/utopia/objects_generation.py:105-362 | Every kind admits fragmentation; heteroaggregation and biofouling are admitted exactly by the generic, water and surface-sea-water kinds; burial exactly by sediment |
| Entities.SeaSprayProcess | src/utopia/objects_generation.py:244-257 | Sea-spray aerosol is admitted exactly by the surface-sea-water kind |
| Entities.Compartment.AssignBox | src/utopia/objects_generation.py:118-119 | The compartment's box link becomes the given box |
| Entities.Compartment.AddParticles | src/utopia/objects_generation.py:121-123 | A particle with a known aggregation state goes to the end of its bucket and links back to the compartment, with the other buckets unchanged; an unknown state raises the lookup error and changes nothing |
| Entities.Compartment.CalcVolume | src/utopia/objects_generation.py:125-145 | The new volume is `ResolvedVolume`: a set volume is kept, full geometry gives depth×length×width, and otherwise the volume stays unset |
| Geometry.ResolvedVolume | src/utopia/objects_generation.py:125-145 | A set volume is kept; an unset one with full geometry becomes depth×length×width; the result is set exactly when one of the two holds |
| Geometry.ResolvedVolumeIdempotent | src/utopia/objects_generation.py:125-145 | A second `calc_volume` changes nothing |
| Entities.Compartment.CalcVolFromBox | src/utopia/objects_generation.py:147-150 | Three failures, in order: no box, no fraction under the lower-cased name, box volume unset. It succeeds exactly when none applies, and then the volume is the box volume times that fraction; a failure leaves the volume unchanged |
| Particles.NewParticle | src/utopia/objects_generation.py:370-401 | The constructor keeps name, form, composition, density, shape and half-life; the metre dimensions are the micrometre ones over 10^6; the radius is X in metres and the diameter twice it |
| Entities.Particulate.constructor | src/utopia/objects_generation.py:370-401 | A new particle object holds its record, with no volume, shape factor, number concentration or compartment |
| Particles.VolumeStep | src/utopia/objects_generation.py:422-473 | A sphere gets 4/3·π·r³ and shape factor 1; a fibre gets π·r²·Y; a pellet or fragment gets X·Y·Z; an unknown shape changes nothing. Success means a volume was written or the shape is unknown |
| Particles.CylinderCsf | src/utopia/objects_generation.py:444 | The fibre shape factor fails exactly on a negative root argument or a zero root; on success, factor × √(Y·r) = r |
| Particles.CuboidCsf | src/utopia/objects_generation.py:460-462 | The fragment shape factor fails exactly on a negative root argument or a zero root; on success, factor × √(Y·Z) = X |
| Entities.Particulate.CalcVolume | src/utopia/objects_generation.py:422-473 | The object's new volume, shape factor and raised error are exactly `VolumeStep` of its old state |
| Particles.VolumeStepIdempotent | src/utopia/objects_generation.py:422-473 | After a successful `calc_volume`, a second call changes nothing |
| Particles.VolumePositive | src/utopia/objects_generation.py:422-473 | A particle of a recognised shape with positive dimensions gets a positive volume |
| Particles.NumberConcentration | src/utopia/objects_generation.py:475-484 | A non-zero count per litre gives 1000 times that per m³; a zero count converts the mass concentration, and succeeds exactly when density and volume are set and non-zero |
| Particles.NumberConcentrationInverts | src/utopia/objects_generation.py:475-484 | The result inverts its physics: count × volume × density × 1000 gives back the mass in mg/L, and count / 1000 gives back the count per litre |
| Entities.Particulate.CalcNumConc | src/utopia/objects_generation.py:475-484 | On success the number concentration becomes `NumberConcentration`; on failure the error is reported and the attribute is unchanged |
| Entities.Particulate.AssignCompartment | src/utopia/objects_generation.py:486-487 | The particle's compartment link becomes the given compartment |
| Particles.Biofoul | src/utopia/objects_generation.py:497-541 | Coating fails exactly when a dimension is missing or the coated radius is zero. Otherwise: the `_BF` name, form biofMP, half-life 25000 d, the parent's shape and composition, radius = parent radius + thickness, diameter twice the radius, and the shell-rule density of the parent core inside the carrier-density coating |
| Particles.BiofoulGeometry | src/utopia/objects_generation.py:504-541 | The coating adds its thickness once to the radius and twice to each non-zero dimension; a zero dimension stays zero; metre values follow micrometre values |
| Particles.CoatedZeroIff | src/utopia/objects_generation.py:511-524 | With a positive coating, a coated dimension is zero exactly when the parent's is, and otherwise strictly larger |
| Particles.ShellDensityBetween | src/utopia/objects_generation.py:529-536 | The shell-rule density of a coated sphere lies between the core's and the coating's densities |
| Particles.BiofoulDensity | src/utopia/objects_generation.py:529-536 | The coated particle's density lies between the parent's and the biofilm's, and equals the parent's when the coating has zero thickness |
| Particles.Heteroaggregate | src/utopia/objects_generation.py:551-577 | Aggregation fails exactly when a volume is missing or the two volumes sum to zero. Otherwise: the `_SPM` name; form heterBiofMP with half-life 50000 d for a biofMP parent, else heterMP with 100000 d; the parent's shape; no dimensions |
| Particles.MixDensityBetween | src/utopia/objects_generation.py:563-567 | The volume-weighted density lies between the two components' densities |
| Particles.HeteroaggregateDensity | src/utopia/objects_generation.py:563-572 | With non-negative volumes of positive total, the aggregate exists; its density is volume-weighted and lies between the parent's and the carrier's; its radius is that of the sphere of the summed volume |
| Particles.HeterVolumeStep | src/utopia/objects_generation.py:585-618 | Every recognised shape gets parent volume + carrier volume; a sphere gets shape factor 1 and succeeds; a fibre or fragment without dimensions raises; an unknown shape changes nothing |
| Entities.Particulate.CalcVolumeHeter | src/utopia/objects_generation.py:585-618 | The object's new volume, shape factor and raised error are exactly `HeterVolumeStep` of its old state and the parent's and carrier's volumes |
| Entities.Particulate.Copy | src/utopia/objects_generation.py:784 | The deep copy of an unplaced particle is a fresh object with the same record and attributes |
| Entities.Compartment.Clone | src/utopia/objects_generation.py:768-771 | The deep copy of an empty compartment not in a box is a fresh compartment with equal attributes and empty buckets |
| Placement.AssignCodes | src/utopia/objects_generation.py:658-659 | Compartment i in list order gets code i + 1 |
| Placement.ResolveVolumes | src/utopia/objects_generation.py:662-663 | Every compartment's volume becomes `ResolvedVolume` of its old volume and its geometry |
| Placement.Names | src/utopia/objects_generation.py:670 | The name list has the compartments' names in list order |
| Placement.NamePairs | src/utopia/objects_generation.py:666-668 | Pair i is compartment i's name with the compartment itself, not a copy |
| Assembly.Keyed | src/utopia/objects_generation.py:666-668 | The keys of the dictionary are exactly the keys occurring in the pairs |
| Assembly.KeyedLastWins | src/utopia/objects_generation.py:666-668 | A repeated key maps to the value of its last occurrence |
| Placement.PrepareCompartments | src/utopia/objects_generation.py:658-670 | Codes 1..n, resolved volumes, the name index over the original compartments, and the name list |
| Assembly.SizeCoding | src/utopia/objects_generation.py:680-685 | The size coding has exactly the free particles' names as keys, and each name maps to the diameter in µm of its last occurrence in the list |
| Assembly.Sized | src/utopia/objects_generation.py:688-690 | `calc_volume` on a new particle: a sphere succeeds with volume 4/3·π·r³ and shape factor 1; an unknown shape succeeds with nothing written; a fibre or fragment without dimensions raises; on success a volume is set exactly when the shape is recognised |
| Pipeline.SizeAll | src/utopia/objects_generation.py:688-690 | The loop raises the first error of the sizing traversal, and otherwise the objects hold the sized templates |
| Assembly.Carrier | src/utopia/objects_generation.py:693-703 | The carrier is the sphere `spm1` of the given density, with X = radius in µm, volume 4/3·π·r³ and shape factor 1 |
| Pipeline.NewCarrier | src/utopia/objects_generation.py:693-703 | The carrier object is fresh, unplaced, and holds the `Carrier` template |
| Pipeline.Derive | src/utopia/objects_generation.py:707-709 | One fresh, distinct, unsized, unplaced object per parent, built by the raising constructor in order; it fails with the first constructor error |
| Pipeline.BiofoulAll | src/utopia/objects_generation.py:707-716 | Biofouling then sizing fails with the first error of `BiofouledStage`; otherwise distinct unplaced objects hold its templates |
| Pipeline.HeterSizeAll | src/utopia/objects_generation.py:729-730 | `calc_volume_heter(parent, spm)` on each aggregate raises the first error of the traversal, and otherwise the aggregates hold the sized templates |
| Pipeline.AggregateAll | src/utopia/objects_generation.py:721-730 | Aggregation then sizing fails with the first error of `AggregatedStage`; otherwise distinct unplaced objects hold its templates |
| Pipeline.DeriveTemplates | src/utopia/objects_generation.py:707-745 | The three derivation loops fail with the first error of `Derivations`, and otherwise hold its templates in order |
| Pipeline.DerivationsFail | src/utopia/objects_generation.py:707-745 | Once the free particles are sized, template building fails with the first error of the derivations |
| Pipeline.DerivationsSucceedAll | src/utopia/objects_generation.py:707-752 | Once the free particles are sized and the derivations succeed, the templates are the sized free particles followed by the derived ones |
| Pipeline.BuildTemplateObjects | src/utopia/objects_generation.py:688-752 | The particle part succeeds exactly when `BuildTemplates` does, with the same error; on success the objects hold its templates in concatenation order, unplaced, and the carrier is fresh |
| Assembly.BuildTemplates | src/utopia/objects_generation.py:688-752 | On success there are four lists of the length of the free list, 4N templates in all |
| Assembly.TemplateAt | src/utopia/objects_generation.py:688-752 | Element i of each list derives from free particle i: sized; coated and sized; aggregated and sized; coated, aggregated and sized |
| Assembly.TemplatesIdentity | src/utopia/objects_generation.py:688-752 | Free templates keep their records. Derived ones are named `_BF`, `_SPM`, `_BF_SPM`, with forms biofMP, heterMP (heterBiofMP for a biofMP parent) and heterBiofMP and half-lives 25000, 100000 and 50000 d |
| Assembly.SpheresAt | src/utopia/objects_generation.py:585-752 | Templates exist only when free particle i is a sphere; then all four of its templates are sized spheres, and an aggregate's volume is its parent's plus the carrier's |
| Assembly.TemplatesNeedSpheres | src/utopia/objects_generation.py:585-752 | Successful template building implies every free particle is a sphere |
| Assembly.TemplatesSized | src/utopia/objects_generation.py:688-752 | Every built template is a sphere with a volume and shape factor 1 |
| Assembly.SizedShape | src/utopia/objects_generation.py:422-473 | A sized template has a volume only in a recognised shape; a sphere's is 4/3·π·r³ with factor 1 |
| Assembly.AggregatedShape | src/utopia/objects_generation.py:551-618 | A sized aggregate has a parent and a carrier with volumes; if its shape is recognised it is a sphere, its volume their sum and its factor 1 |
| Assembly.TemplatesForSpheres | src/utopia/objects_generation.py:688-752 | Free spheres of positive radius and a carrier of non-negative radius always yield the templates |
| Assembly.DensitiesBetween | src/utopia/objects_generation.py:707-752 | Each derived density lies between its parent's and the carrier's |
| Assembly.OfForm | src/utopia/objects_generation.py:121-123 | A bucket holds templates of its own state only, each one from the list |
| Assembly.ArrangePermutes | src/utopia/objects_generation.py:787-799 | When every template has a bucket, reading the buckets back is a permutation of the templates |
| Assembly.ArrangeTemplates | src/utopia/objects_generation.py:747-799 | With freeMP inputs, a compartment reads back free, heteroaggregated, biofouled, biofouled-heteroaggregated, not the concatenation order |
| Assembly.FirstStray | src/utopia/objects_generation.py:121-123 | No stray state exactly when every template's state has a bucket; a stray one has no bucket |
| Assembly.FirstStrayAt | src/utopia/objects_generation.py:781-784 | The first state without a bucket met in list order is the stray reported |
| Placement.StrayError | src/utopia/objects_generation.py:781-784 | No error exactly when every template's state has a bucket |
| Assembly.PopulationCount | src/utopia/objects_generation.py:781-799 | m compartments each holding every template give m × N particles |
| Assembly.Generate | src/utopia/objects_generation.py:627-820 | A result implies the templates were built and, with a compartment present, that every state has a bucket |
| Assembly.GenerateCount | src/utopia/objects_generation.py:627-820 | With freeMP inputs, assembly succeeds exactly when the templates are built, and then yields 4·N·M particles |
| Placement.AddCopy | src/utopia/objects_generation.py:784 | Adding a copy fails exactly when the template's state has no bucket; otherwise every bucket holds its own copies of the first j + 1 templates of its state, in order |
| Placement.FillCompartment | src/utopia/objects_generation.py:783-784 | One compartment raises the first stray state; otherwise each bucket holds fresh copies of that state's templates in order, owned by the compartment |
| Placement.AttachCopies | src/utopia/objects_generation.py:768-771 | The box gets one fresh copy per compartment in order, each with equal attributes, empty buckets and a link back to the box |
| Placement.Populate | src/utopia/objects_generation.py:781-784 | With at least one compartment, the nested loop raises the first stray state; otherwise every compartment is filled |
| Placement.AppendAll | src/utopia/objects_generation.py:792-799 | The population grows by the bucket, in order |
| Placement.Flatten | src/utopia/objects_generation.py:788-799 | The gathered list is every compartment's buckets in the order freeMP, heterMP, biofMP, heterBiofMP, compartment by compartment |
| Placement.ContentsShow | src/utopia/objects_generation.py:781-799 | A filled compartment reads back the bucket arrangement of the templates, as distinct objects all owned by it |
| Placement.GatheredShows | src/utopia/objects_generation.py:781-799 | The gathered objects hold `Population` of the templates for that many compartments |
| Placement.GatheredDistinct | src/utopia/objects_generation.py:781-799 | The gathered objects are distinct and each is owned by one of the compartments |
| Placement.FillAndGather | src/utopia/objects_generation.py:781-799 | Fails exactly on a stray state when compartments exist; otherwise the population holds `Population`, its objects are distinct and owned by the attached compartments |
| Placement.PlaceAll | src/utopia/objects_generation.py:768-799 | The same outcome; on success a fresh box with the given name holds one fresh copy per compartment, and every object is owned by one of them |
| Placement.Assemble | src/utopia/objects_generation.py:688-799 | The particle and placement part succeeds exactly when `Generate` does, with the same error, and the population holds its value |
| Placement.GenerateObjects | src/utopia/objects_generation.py:627-820 | Codes 1..n and resolved volumes. It succeeds exactly when `Generate` does, with the same error, and the population holds its value. Also: objects distinct and owned by the box's fresh compartment copies, the `spm1` carrier, the name index over the originals, the name list, `[boxName]` and the size coding |

## Left out

- Reading the input tables (`instantiate_compartments`, `instantiateParticles_from_csv`) and `set_interactions` are not part of this model. `Placement.GenerateObjects` takes the compartments and free particles those readers return, and leaves the connexions as they were set before.
- The species list (`generate_system_species_list`) and the particle-property `DataFrame` are not part of this model; the result record leaves them out.
- Diagnostics that only print are left out; the state they leave is modelled.
- `Compartment.calc_particleConcentration_Nm3_initial` is left out: `generate_objects` never calls it. It indexes each bucket list with a particle object rather than a position, and reads `Pnumber`, which no particle sets (objects_generation.py:152-157).
- `Box.calc_Bvolume_m3` is modelled (`Entities.Box.CalcVolume`), but `generate_objects` does not call it (the call is commented out).
- `Entities.Compartment.CalcVolFromBox` takes the box's volume-fraction table as a parameter. The box in `objects_generation.py` never sets `CvolFractionBox`.
- Floating point is modelled as real arithmetic. `math.pi` is an uninterpreted positive constant; `math.sqrt` and the cube root are uninterpreted functions. Rounding, overflow and NaN are not modelled.
- `Entities.Lower`: lower-cases ASCII letters only, not all of Unicode.
- `Entities.Particulate.Copy`: modelled only for particles not yet placed in a compartment. `generate_objects` copies only those, so the copy's compartment link is null.
- `Entities.Compartment.Clone`: modelled only for compartments that are not in a box and hold no particles. `generate_objects` copies only those.
- `Placement.GenerateObjects`: requires distinct, empty, unattached compartments and distinct, unplaced, unsized free particles. This is what the readers return; repeated objects in the input lists are not modelled.
- `Placement.GenerateObjects`: the number concentration of the particles is not stated, because `generate_objects` does not set it.
- `Placement.GenerateObjects`: the model also returns the box it fills, which the source keeps in a local list.
- `Entities.Processes`: which of the four resuspension-type entries each kind admits is not stated as a separate property. The full lists are in the function body.
- Parent links (`parentMP`, `parentSPM`) are kept as the values they were derived from (`Particles.Origin`), not as object references.
