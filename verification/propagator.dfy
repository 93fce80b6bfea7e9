/** One exposure of Propagator._propagate_single and the whole run of
    Propagator.propagate: the particles of an exposure are scattered one by
    one (sharing the single-slot qmap cache), their amplitudes superimposed on
    the last particle's scattering vectors, the total handed to the detector,
    and the output dictionaries of all exposures aggregated. */
module Propagator {
  import opened Wrappers
  import opened Numbers
  import opened QMapCache
  import opened Scattering
  import opened Threading
  import Aggregation

  // ---------------------------------------------------------------------------
  // Output values

  /** One element of an output array. */
  datatype Cell = Number(x: real) | Amplitude(a: Amp) | Flag(b: bool) | Count(n: int) | Nothing

  /** A numpy array: its shape and its elements in row-major order. */
  datatype Value = Value(shape: seq<nat>, cells: seq<Cell>)

  function Product(s: seq<nat>): nat {
    if s == [] then 1 else s[0] * Product(s[1..])
  }

  function ShapeOf(v: Value): seq<nat> {
    v.shape
  }

  /** numpy.zeros(shape). */
  function Zeros(shape: seq<nat>): (v: Value)
    ensures v.shape == shape && |v.cells| == Product(shape)
    ensures forall j :: 0 <= j < |v.cells| ==> v.cells[j] == Number(0.0)
  {
    Value(shape, seq(Product(shape), j => Number(0.0)))
  }

  function Scalar(x: real): Value {
    Value([], [Number(x)])
  }

  /** Python's None as a dictionary value: a zero-axis array holding None. */
  const NoneValue: Value := Value([], [Nothing])

  /** A pixel field as a one-axis array (the detector rows one after another). */
  function FieldValue(f: Field): (v: Value)
    ensures v.shape == [|f|] && |v.cells| == |f|
    ensures forall p :: 0 <= p < |f| ==> v.cells[p] == Amplitude(f[p])
  {
    Value([|f|], seq(|f|, p requires 0 <= p < |f| => Amplitude(f[p])))
  }

  /** Scattering vectors or atom positions as an array of shape [n, 3], one
      row per vector. */
  function VectorsValue(vs: seq<Vec3>): (v: Value)
    ensures v.shape == [|vs|, 3] && |v.cells| == 3 * |vs|
    ensures forall p :: 0 <= p < |vs| ==>
      v.cells[3 * p] == Number(vs[p].x) && v.cells[3 * p + 1] == Number(vs[p].y) && v.cells[3 * p + 2] == Number(vs[p].z)
  {
    Value([|vs|, 3], seq(3 * |vs|, j requires 0 <= j < 3 * |vs| =>
      var v := vs[j / 3];
      Number(if j % 3 == 0 then v.x else if j % 3 == 1 then v.y else v.z)))
  }

  /** Atomic numbers as an int32 array of shape [n, 1]. */
  function NumbersValue(ns: seq<int>): (v: Value)
    ensures v.shape == [|ns|, 1] && |v.cells| == |ns|
    ensures forall p :: 0 <= p < |ns| ==> v.cells[p] == Count(ns[p])
  {
    Value([|ns|, 1], seq(|ns|, p requires 0 <= p < |ns| => Count(ns[p])))
  }

  function DensityValue(dm: DensityMap): (v: Value)
    ensures v.shape == [|dm.values|] && |v.cells| == |dm.values|
  {
    Value([|dm.values|], seq(|dm.values|, j requires 0 <= j < |dm.values| => Amplitude(Finite(dm.values[j]))))
  }

  function MaskValue(m: seq<int>): (v: Value)
    ensures v.shape == [|m|] && |v.cells| == |m|
    ensures forall p :: 0 <= p < |m| ==> v.cells[p] == Count(m[p])
  {
    Value([|m|], seq(|m|, p requires 0 <= p < |m| => Count(m[p])))
  }

  /** `M == 0`: a pixel is usable exactly when none of its mask bits is set. */
  function BinaryMask(m: seq<int>): (v: Value)
    ensures v.shape == [|m|] && |v.cells| == |m|
    ensures forall p :: 0 <= p < |m| ==> v.cells[p].Flag? && (v.cells[p].b <==> m[p] == 0)
  {
    Value([|m|], seq(|m|, p requires 0 <= p < |m| => Flag(m[p] == 0)))
  }

  /** The binary mask and the mask are two views of the same pixels: a pixel is
      flagged usable exactly when its mask value is zero. */
  lemma BinaryMaskAgreesWithMask(m: seq<int>, p: nat)
    requires p < |m|
    ensures BinaryMask(m).cells[p] == Flag(MaskValue(m).cells[p] == Count(0))
  {
  }

  // ---------------------------------------------------------------------------
  // Inputs of one exposure

  /** One particle as the sample iterator hands it out: its model and the
      parameter dictionary the propagator writes its results into. */
  datatype ParticleDraw = ParticleDraw(particle: Particle, record: map<string, Value>)

  /** The dictionaries source.get_next, sample.get_next and detector.get_next
      return for one exposure, and the geometry read from them. */
  datatype Draw = Draw(
    source: map<string, Value>,
    sample: map<string, Value>,
    particles: seq<ParticleDraw>,
    detector: map<string, Value>,
    geometry: Geometry)

  /** What detector.detect_photons returns that the propagator keeps: the
      intensity pattern, the pixel mask and the downsampled intensity pattern. */
  datatype Detection = Detection(intensity: Value, mask: seq<int>, intensityXxX: Value)

  datatype DetectorModel = DetectorModel(
    detectPhotons: seq<Float<real>> -> Detection,
    downsampling: Option<nat>,
    downsample: (Field, nat, seq<int>) -> (Field, seq<int>))   // utils.resample.downsample

  /** The keyword arguments of propagate: save_map (default off) and save_qmap (default on). */
  datatype Options = Options(saveMap: bool, saveQMap: bool)

  const DefaultOptions: Options := Options(false, true)

  datatype Setup = Setup(kernels: Kernels, physics: Physics, detector: DetectorModel)

  predicate ValidDraw(d: Draw) {
    d.geometry.wavelength != 0.0
  }

  // ---------------------------------------------------------------------------
  // The particle loop

  /** The dispatch of one particle as a step of the particle loop. */
  function Dispatch(k: Kernels, phys: Physics, g: Geometry): (Cache, Particle) --> Result<Step, ScatterError> {
    (cache: Cache, p: Particle) requires phys.Valid() && g.wavelength != 0.0 => ScatterParticle(k, phys, g, cache, p)
  }

  lemma DispatchEnabled(k: Kernels, phys: Physics, g: Geometry, ps: seq<Particle>)
    requires phys.Valid() && g.wavelength != 0.0
    ensures Enabled(Dispatch(k, phys, g), ps)
  {
  }

  /** The particles of one exposure in order, each dispatched with the cache
      the previous one left behind. The first failure ends the loop. */
  function ScatterAll(k: Kernels, phys: Physics, g: Geometry, cache: Cache, ps: seq<Particle>): (r: Result<Threaded<Single, Cache>, ScatterError>)
    requires phys.Valid() && g.wavelength != 0.0
    ensures r.Success? ==> |r.value.outputs| == |ps|
  {
    DispatchEnabled(k, phys, g, ps);
    Thread(Dispatch(k, phys, g), cache, ps)
  }

  /** Particle i's result is its dispatch with the cache the particles before
      it left behind. */
  lemma ScatterAllOutput(k: Kernels, phys: Physics, g: Geometry, cache: Cache, ps: seq<Particle>, i: nat)
    requires phys.Valid() && g.wavelength != 0.0 && i < |ps|
    requires ScatterAll(k, phys, g, cache, ps).Success?
    ensures ScatterAll(k, phys, g, cache, ps[..i]).Success?
    ensures var before := ScatterAll(k, phys, g, cache, ps[..i]).value;
      && ScatterParticle(k, phys, g, before.state, ps[i]).Success?
      && ScatterAll(k, phys, g, cache, ps).value.outputs[i] == ScatterParticle(k, phys, g, before.state, ps[i]).value.output
  {
    DispatchEnabled(k, phys, g, ps);
    ThreadOutput(Dispatch(k, phys, g), cache, ps, i);
  }

  /** A particle of an unrecognised class ends the run: the loop never gets
      past it. */
  lemma ScatterAllRejectsUnknown(k: Kernels, phys: Physics, g: Geometry, cache: Cache, ps: seq<Particle>)
    requires phys.Valid() && g.wavelength != 0.0
    requires ScatterAll(k, phys, g, cache, ps).Success?
    ensures forall i :: 0 <= i < |ps| ==> !ps[i].shape.Other?
  {
    forall i | 0 <= i < |ps| ensures !ps[i].shape.Other? {
      ScatterAllOutput(k, phys, g, cache, ps, i);
    }
  }

  /** Every particle's record gets the beam intensity at its position and its F0. */
  lemma ScatterAllIntensities(k: Kernels, phys: Physics, g: Geometry, cache: Cache, ps: seq<Particle>)
    requires phys.Valid() && g.wavelength != 0.0
    requires ScatterAll(k, phys, g, cache, ps).Success?
    ensures var ss := ScatterAll(k, phys, g, cache, ps).value.outputs;
      forall i :: 0 <= i < |ps| ==>
        ss[i].intensity == k.intensityAt(ps[i].position) &&
        ss[i].f0 == PrimaryAmplitude(k.sqrt, k.intensityAt(ps[i].position), g.solidAngle, g.wavelength)
  {
    var ss := ScatterAll(k, phys, g, cache, ps).value.outputs;
    forall i | 0 <= i < |ps|
      ensures ss[i].intensity == k.intensityAt(ps[i].position)
      ensures ss[i].f0 == PrimaryAmplitude(k.sqrt, k.intensityAt(ps[i].position), g.solidAngle, g.wavelength)
    {
      ScatterAllOutput(k, phys, g, cache, ps, i);
    }
  }

  /** With a coherent slot the dispatch of a particle does not depend on what
      the slot holds. */
  lemma ScatterParticleTransparent(k: Kernels, phys: Physics, g: Geometry, c1: Cache, c2: Cache, p: Particle)
    requires phys.Valid() && g.wavelength != 0.0
    requires Coherent(c1, k.generate) && Coherent(c2, k.generate)
    ensures ScatterParticle(k, phys, g, c1, p).Success? <==> ScatterParticle(k, phys, g, c2, p).Success?
    ensures ScatterParticle(k, phys, g, c1, p).Success? ==>
      && ScatterParticle(k, phys, g, c1, p).value.output == ScatterParticle(k, phys, g, c2, p).value.output
      && Coherent(ScatterParticle(k, phys, g, c1, p).value.state, k.generate)
      && Coherent(ScatterParticle(k, phys, g, c2, p).value.state, k.generate)
  {
    if p.shape.Sphere? || p.shape.Spheroid? || p.shape.Map? {
      RequestTransparent(c1, RequestKey(g, p), k.generate);
      RequestTransparent(c2, RequestKey(g, p), k.generate);
    }
  }

  /** The slot holds what the generator computes for its key. */
  function CoherentWith(generate: QMapKey -> QMap): Cache -> bool {
    c => Coherent(c, generate)
  }

  /** The qmap cache is transparent for a whole exposure: from any two
      coherent slots the particle loop computes the same particles. */
  lemma ScatterAllTransparent(k: Kernels, phys: Physics, g: Geometry, c1: Cache, c2: Cache, ps: seq<Particle>)
    requires phys.Valid() && g.wavelength != 0.0
    requires Coherent(c1, k.generate) && Coherent(c2, k.generate)
    ensures ScatterAll(k, phys, g, c1, ps).Success? <==> ScatterAll(k, phys, g, c2, ps).Success?
    ensures ScatterAll(k, phys, g, c1, ps).Success? ==>
      && ScatterAll(k, phys, g, c1, ps).value.outputs == ScatterAll(k, phys, g, c2, ps).value.outputs
      && Coherent(ScatterAll(k, phys, g, c1, ps).value.state, k.generate)
      && Coherent(ScatterAll(k, phys, g, c2, ps).value.state, k.generate)
  {
    var step := Dispatch(k, phys, g);
    var inv := CoherentWith(k.generate);
    DispatchEnabled(k, phys, g, ps);
    forall a, b, i | 0 <= i < |ps| && inv(a) && inv(b)
      ensures Interchangeable(step, inv, a, b, ps[i])
    {
      ScatterParticleTransparent(k, phys, g, a, b, ps[i]);
    }
    ThreadTransparent(step, inv, c1, c2, ps);
  }

  // ---------------------------------------------------------------------------
  // One exposure

  /** The superposition step: no particle leaves F unbound; amplitudes that do
      not match the last particle's scattering vectors cannot be combined. */
  function Superposition(expI: real -> Complex, fs: seq<Field>, vs: seq<Vec3>, qmap: QMap): (r: Result<Field, ScatterError>)
    requires |fs| == |vs|
    ensures fs == [] ==> r == Failure(NoParticles)
    ensures fs != [] ==> (r.Success? <==> Conformal(fs, qmap))
    ensures r.Success? ==> Conformal(fs, qmap) && r.value == Superpose(expI, fs, vs, qmap)
  {
    if fs == [] then Failure(NoParticles)
    else if !Conformal(fs, qmap) then Failure(ShapeMismatch)
    else Success(Superpose(expI, fs, vs, qmap))
  }

  /** The Superimpose loop computes the superposition step. */
  method SuperimposeAgrees(expI: real -> Complex, fs: seq<Field>, vs: seq<Vec3>, qmap: QMap) returns (r: Result<Field, ScatterError>)
    requires |fs| == |vs|
    ensures r.Success? <==> Superposition(expI, fs, vs, qmap).Success?
    ensures r.Success? ==> r.value == Superposition(expI, fs, vs, qmap).value
  {
    r := Superimpose(expI, fs, vs, qmap);
  }

  /** abs(F_tot)**2 pixel by pixel. */
  function IntensityField(f: Field): (r: seq<Float<real>>)
    ensures |r| == |f|
    ensures forall p :: 0 <= p < |f| ==> r[p] == IntensityOf(f[p])
  {
    seq(|f|, p requires 0 <= p < |f| => IntensityOf(f[p]))
  }

  /** The top-level entries of one exposure's output. The downsampled entries
      are present exactly when the detector downsamples. */
  function TopLevel(total: Field, d: Detection, det: DetectorModel): (top: map<string, Value>)
    ensures "fourier_pattern" in top && top["fourier_pattern"] == FieldValue(total)
    ensures "intensity_pattern" in top && top["intensity_pattern"] == d.intensity
    ensures "mask" in top && top["mask"] == MaskValue(d.mask)
    ensures "mask_binary" in top && top["mask_binary"] == BinaryMask(d.mask)
    ensures det.downsampling.None? ==> top.Keys == {"fourier_pattern", "intensity_pattern", "mask_binary", "mask"}
    ensures det.downsampling.Some? ==>
      var down := det.downsample(total, det.downsampling.value, d.mask);
      && top.Keys == {"fourier_pattern", "intensity_pattern", "mask_binary", "mask",
                      "fourier_pattern_xxx", "intensity_pattern_xxx", "mask_xxx", "mask_xxx_binary"}
      && top["fourier_pattern_xxx"] == FieldValue(down.0)
      && top["intensity_pattern_xxx"] == d.intensityXxX
      && top["mask_xxx"] == MaskValue(down.1)
      && top["mask_xxx_binary"] == BinaryMask(down.1)
  {
    var basic := map[
      "fourier_pattern" := FieldValue(total),
      "intensity_pattern" := d.intensity,
      "mask_binary" := BinaryMask(d.mask),
      "mask" := MaskValue(d.mask)];
    match det.downsampling
    case None => basic
    case Some(factor) =>
      var down := det.downsample(total, factor, d.mask);
      basic["fourier_pattern_xxx" := FieldValue(down.0)]
           ["intensity_pattern_xxx" := d.intensityXxX]
           ["mask_xxx" := MaskValue(down.1)]
           ["mask_xxx_binary" := BinaryMask(down.1)]
  }

  /** The molecule branch fills in the atoms of a molecule whose record has
      atomic_position set to None. */
  predicate AtomsWrittenBack(d: ParticleDraw) {
    d.particle.shape.Molecule? && "atomic_position" in d.record && d.record["atomic_position"] == NoneValue
  }

  /** The entries an exposure writes into a particle's parameter dictionary. */
  function WrittenKeys(opts: Options, d: ParticleDraw, s: Single): set<string> {
    {"intensity", "F0"}
    + (if opts.saveMap && s.density.Some? then {"dn", "dx", "dx3"} else {})
    + (if AtomsWrittenBack(d) then {"atomic_position", "atomic_number"} else {})
    + (if opts.saveQMap then {"qmap"} else {})
  }

  /** The particle's parameter dictionary after the exposure: intensity and F0
      always, the density map, its voxel size and volume for map particles when
      save_map is set, the molecule's atoms when its atomic_position was None,
      the scattering vectors when save_qmap is set. Every other entry is the
      parameter the sample drew. */
  function ParticleRecord(opts: Options, atoms: Particle -> Atoms, d: ParticleDraw, s: Single): (r: map<string, Value>)
    ensures r.Keys == d.record.Keys + WrittenKeys(opts, d, s)
    ensures forall key :: key in d.record && key !in WrittenKeys(opts, d, s) ==> r[key] == d.record[key]
    ensures "intensity" in r && r["intensity"] == Scalar(s.intensity)
    ensures "F0" in r && r["F0"] == Scalar(s.f0)
    ensures opts.saveQMap ==> "qmap" in r && r["qmap"] == VectorsValue(s.qmap)
    ensures opts.saveMap && s.density.Some? ==>
      && "dn" in r && r["dn"] == DensityValue(s.density.value)
      && "dx" in r && r["dx"] == Scalar(s.density.value.dx)
      && "dx3" in r && r["dx3"] == Scalar(Cube(s.density.value.dx))
    ensures AtomsWrittenBack(d) ==>
      && "atomic_position" in r && r["atomic_position"] == VectorsValue(atoms(d.particle).positions)
      && "atomic_number" in r && r["atomic_number"] == NumbersValue(atoms(d.particle).numbers)
  {
    var base := d.record["intensity" := Scalar(s.intensity)]["F0" := Scalar(s.f0)];
    var withMap :=
      if opts.saveMap && s.density.Some? then
        var dm := s.density.value;
        base["dn" := DensityValue(dm)]["dx" := Scalar(dm.dx)]["dx3" := Scalar(Cube(dm.dx))]
      else base;
    var withAtoms :=
      if AtomsWrittenBack(d) then
        var a := atoms(d.particle);
        withMap["atomic_position" := VectorsValue(a.positions)]["atomic_number" := NumbersValue(a.numbers)]
      else withMap;
    if opts.saveQMap then withAtoms["qmap" := VectorsValue(s.qmap)] else withAtoms
  }

  /** Which optional entries a particle record holds after the exposure: each
      is there exactly when the exposure wrote it or the sample had drawn it. */
  lemma ParticleRecordEntries(opts: Options, atoms: Particle -> Atoms, d: ParticleDraw, s: Single)
    ensures var r := ParticleRecord(opts, atoms, d, s);
      && ("qmap" in r <==> opts.saveQMap || "qmap" in d.record)
      && ("dn" in r <==> (opts.saveMap && s.density.Some?) || "dn" in d.record)
      && ("dx" in r <==> (opts.saveMap && s.density.Some?) || "dx" in d.record)
      && ("dx3" in r <==> (opts.saveMap && s.density.Some?) || "dx3" in d.record)
      && ("atomic_position" in r <==> "atomic_position" in d.record)
      && ("atomic_number" in r <==> AtomsWrittenBack(d) || "atomic_number" in d.record)
  {
  }

  function Positions(ds: seq<ParticleDraw>): (vs: seq<Vec3>)
    ensures |vs| == |ds|
    ensures forall i :: 0 <= i < |ds| ==> vs[i] == ds[i].particle.position
  {
    seq(|ds|, i requires 0 <= i < |ds| => ds[i].particle.position)
  }

  function Models(ds: seq<ParticleDraw>): (ps: seq<Particle>)
    ensures |ps| == |ds|
    ensures forall i :: 0 <= i < |ds| ==> ps[i] == ds[i].particle
  {
    seq(|ds|, i requires 0 <= i < |ds| => ds[i].particle)
  }

  function Amplitudes(ss: seq<Single>): (fs: seq<Field>)
    ensures |fs| == |ss|
    ensures forall i :: 0 <= i < |ss| ==> fs[i] == ss[i].amplitude
  {
    seq(|ss|, i requires 0 <= i < |ss| => ss[i].amplitude)
  }

  function Records(opts: Options, atoms: Particle -> Atoms, ds: seq<ParticleDraw>, ss: seq<Single>): (rs: seq<map<string, Value>>)
    requires |ds| == |ss|
    ensures |rs| == |ds|
    ensures forall i :: 0 <= i < |ds| ==> rs[i] == ParticleRecord(opts, atoms, ds[i], ss[i])
  {
    seq(|ds|, i requires 0 <= i < |ds| => ParticleRecord(opts, atoms, ds[i], ss[i]))
  }

  /** One exposure's output dictionaries and the cache it leaves behind. */
  type Outcome = Stepped<Aggregation.Exposure<Value>, Cache>

  /** The part of _propagate_single after the particle loop: superimpose the
      amplitudes on the scattering vectors of the last particle, detect, and
      assemble the exposure's output dictionaries. */
  function Expose(s: Setup, opts: Options, d: Draw, singles: seq<Single>): (r: Result<Aggregation.Exposure<Value>, ScatterError>)
    requires |singles| == |d.particles|
    ensures singles == [] ==> r == Failure(NoParticles)
    ensures singles != [] ==> (r.Success? <==> Conformal(Amplitudes(singles), singles[|singles| - 1].qmap))
    ensures r.Success? ==>
      var last := singles[|singles| - 1];
      && "fourier_pattern" in r.value.top
      && r.value.top["fourier_pattern"] ==
           FieldValue(Superpose(s.kernels.expI, Amplitudes(singles), Positions(d.particles), last.qmap))
      && r.value.particles == Records(opts, s.kernels.atoms, d.particles, singles)
    ensures r.Success? ==>
      && r.value.source == d.source
      && r.value.sample == d.sample
      && r.value.detector == d.detector
  {
    if singles == [] then Failure(NoParticles)
    else
      var qmap := singles[|singles| - 1].qmap;
      var total :- Superposition(s.kernels.expI, Amplitudes(singles), Positions(d.particles), qmap);
      var detection := s.detector.detectPhotons(IntensityField(total));
      var top := TopLevel(total, detection, s.detector);
      var records := Records(opts, s.kernels.atoms, d.particles, singles);
      Success(Aggregation.Exposure(top, d.source, d.sample, records, d.detector))
  }

  /** _propagate_single: scatter the particles in order with the cache, then
      expose. The cache only enters through the particle loop. */
  function PropagateSingle(s: Setup, opts: Options, cache: Cache, d: Draw): (r: Result<Outcome, ScatterError>)
    requires s.physics.Valid() && ValidDraw(d)
    ensures d.particles == [] ==> r == Failure(NoParticles)
    ensures var scattered := ScatterAll(s.kernels, s.physics, d.geometry, cache, Models(d.particles));
      r.Success? <==> scattered.Success? && Expose(s, opts, d, scattered.value.outputs).Success?
    ensures r.Success? ==>
      var scattered := ScatterAll(s.kernels, s.physics, d.geometry, cache, Models(d.particles)).value;
      && r.value.output == Expose(s, opts, d, scattered.outputs).value
      && r.value.state == scattered.state
  {
    var scattered :- ScatterAll(s.kernels, s.physics, d.geometry, cache, Models(d.particles));
    var exposure :- Expose(s, opts, d, scattered.outputs);
    Success(Stepped(exposure, scattered.state))
  }

  /** An exposure with a particle of an unrecognised class ends the run. */
  lemma UnknownShapeEndsExposure(s: Setup, opts: Options, cache: Cache, d: Draw, i: nat)
    requires s.physics.Valid() && ValidDraw(d)
    requires i < |d.particles| && d.particles[i].particle.shape.Other?
    ensures PropagateSingle(s, opts, cache, d).Failure?
  {
    var ps := Models(d.particles);
    if ScatterAll(s.kernels, s.physics, d.geometry, cache, ps).Success? {
      ScatterAllRejectsUnknown(s.kernels, s.physics, d.geometry, cache, ps);
    }
  }

  /** The qmap cache is transparent for an exposure: from any two coherent
      slots the exposure's output is the same, and the slot stays coherent. */
  lemma PropagateSingleTransparent(s: Setup, opts: Options, c1: Cache, c2: Cache, d: Draw)
    requires s.physics.Valid() && ValidDraw(d)
    requires Coherent(c1, s.kernels.generate) && Coherent(c2, s.kernels.generate)
    ensures PropagateSingle(s, opts, c1, d).Success? <==> PropagateSingle(s, opts, c2, d).Success?
    ensures PropagateSingle(s, opts, c1, d).Success? ==>
      && PropagateSingle(s, opts, c1, d).value.output == PropagateSingle(s, opts, c2, d).value.output
      && Coherent(PropagateSingle(s, opts, c1, d).value.state, s.kernels.generate)
      && Coherent(PropagateSingle(s, opts, c2, d).value.state, s.kernels.generate)
  {
    ScatterAllTransparent(s.kernels, s.physics, d.geometry, c1, c2, Models(d.particles));
  }

  // ---------------------------------------------------------------------------
  // The whole run

  predicate ValidDraws(ds: seq<Draw>) {
    forall i :: 0 <= i < |ds| ==> ValidDraw(ds[i])
  }

  /** One exposure as a step of the run loop. */
  function Exposures(s: Setup, opts: Options): (Cache, Draw) --> Result<Outcome, ScatterError> {
    (cache: Cache, d: Draw) requires s.physics.Valid() && ValidDraw(d) => PropagateSingle(s, opts, cache, d)
  }

  lemma ExposuresEnabled(s: Setup, opts: Options, ds: seq<Draw>)
    requires s.physics.Valid() && ValidDraws(ds)
    ensures Enabled(Exposures(s, opts), ds)
  {
  }

  /** The exposures in order, the qmap cache carried from one to the next.
      The first failing exposure ends the run. */
  function Simulate(s: Setup, opts: Options, cache: Cache, ds: seq<Draw>): (r: Result<Threaded<Aggregation.Exposure<Value>, Cache>, ScatterError>)
    requires s.physics.Valid() && ValidDraws(ds)
    ensures r.Success? ==> |r.value.outputs| == |ds|
  {
    ExposuresEnabled(s, opts, ds);
    Thread(Exposures(s, opts), cache, ds)
  }

  /** Exposure i of a run is the output of _propagate_single for draw i with
      the cache the earlier exposures left behind. */
  lemma SimulateExposures(s: Setup, opts: Options, cache: Cache, ds: seq<Draw>, i: nat)
    requires s.physics.Valid() && ValidDraws(ds) && i < |ds|
    requires Simulate(s, opts, cache, ds).Success?
    ensures Simulate(s, opts, cache, ds[..i]).Success?
    ensures var before := Simulate(s, opts, cache, ds[..i]).value;
      && PropagateSingle(s, opts, before.state, ds[i]).Success?
      && Simulate(s, opts, cache, ds).value.outputs[i] == PropagateSingle(s, opts, before.state, ds[i]).value.output
  {
    ExposuresEnabled(s, opts, ds);
    ThreadOutput(Exposures(s, opts), cache, ds, i);
  }

  /** The cache is transparent for the whole run: starting from any coherent
      slot gives the same exposures as starting from an empty one. */
  lemma SimulateTransparent(s: Setup, opts: Options, c1: Cache, c2: Cache, ds: seq<Draw>)
    requires s.physics.Valid() && ValidDraws(ds)
    requires Coherent(c1, s.kernels.generate) && Coherent(c2, s.kernels.generate)
    ensures Simulate(s, opts, c1, ds).Success? <==> Simulate(s, opts, c2, ds).Success?
    ensures Simulate(s, opts, c1, ds).Success? ==>
      && Simulate(s, opts, c1, ds).value.outputs == Simulate(s, opts, c2, ds).value.outputs
      && Coherent(Simulate(s, opts, c1, ds).value.state, s.kernels.generate)
      && Coherent(Simulate(s, opts, c2, ds).value.state, s.kernels.generate)
  {
    var step := Exposures(s, opts);
    var inv := CoherentWith(s.kernels.generate);
    ExposuresEnabled(s, opts, ds);
    forall a, b, i | 0 <= i < |ds| && inv(a) && inv(b)
      ensures Interchangeable(step, inv, a, b, ds[i])
    {
      PropagateSingleTransparent(s, opts, a, b, ds[i]);
    }
    ThreadTransparent(step, inv, c1, c2, ds);
  }

  datatype RunError = ScatterFailure(scatter: ScatterError) | AggregationFailure(aggregation: Aggregation.AggregationError)

  /** Propagator.propagate: simulate every exposure, then aggregate. */
  function Run(s: Setup, opts: Options, ds: seq<Draw>): (r: Result<Aggregation.Aggregate<Value>, RunError>)
    requires s.physics.Valid() && ValidDraws(ds)
    ensures Simulate(s, opts, Empty, ds).Failure? ==> r == Failure(ScatterFailure(Simulate(s, opts, Empty, ds).error))
    ensures Simulate(s, opts, Empty, ds).Success? ==>
      var agg := Aggregation.AggregateOf(Simulate(s, opts, Empty, ds).value.outputs, ShapeOf, Zeros);
      && (r.Success? <==> agg.Success?)
      && (r.Success? ==> r.value == agg.value)
  {
    var sim := Simulate(s, opts, Empty, ds);
    if sim.Failure? then Failure(ScatterFailure(sim.error))
    else
      var agg := Aggregation.AggregateOf(sim.value.outputs, ShapeOf, Zeros);
      if agg.Failure? then Failure(AggregationFailure(agg.error)) else Success(agg.value)
  }

  /** A run with a particle of an unrecognised class in any exposure fails. */
  lemma UnknownShapeEndsRun(s: Setup, opts: Options, ds: seq<Draw>, i: nat, j: nat)
    requires s.physics.Valid() && ValidDraws(ds)
    requires i < |ds| && j < |ds[i].particles| && ds[i].particles[j].particle.shape.Other?
    ensures Run(s, opts, ds).Failure?
  {
    if Simulate(s, opts, Empty, ds).Success? {
      SimulateExposures(s, opts, Empty, ds, i);
      UnknownShapeEndsExposure(s, opts, Simulate(s, opts, Empty, ds[..i]).value.state, ds[i], j);
    }
  }

  /** Every exposure that succeeds reports a Fourier pattern. */
  lemma ExposureHasFourierPattern(s: Setup, opts: Options, cache: Cache, d: Draw)
    requires s.physics.Valid() && ValidDraw(d)
    requires PropagateSingle(s, opts, cache, d).Success?
    ensures "fourier_pattern" in PropagateSingle(s, opts, cache, d).value.output.top
  {
    var scattered := ScatterAll(s.kernels, s.physics, d.geometry, cache, Models(d.particles)).value;
    assert Expose(s, opts, d, scattered.outputs).Success?;
  }

  /** Every exposure of a successful simulation reports a Fourier pattern. */
  lemma SimulateFourierPatterns(s: Setup, opts: Options, cache: Cache, ds: seq<Draw>, i: nat)
    requires s.physics.Valid() && ValidDraws(ds) && i < |ds|
    requires Simulate(s, opts, cache, ds).Success?
    ensures "fourier_pattern" in Simulate(s, opts, cache, ds).value.outputs[i].top
  {
    SimulateExposures(s, opts, cache, ds, i);
    ExposureHasFourierPattern(s, opts, Simulate(s, opts, cache, ds[..i]).value.state, ds[i]);
  }

  /** Every exposure of a successful run contributes its Fourier pattern:
      the aggregated channel holds, at index i, the superposition of exposure
      i's particles. */
  lemma RunFourierPatterns(s: Setup, opts: Options, ds: seq<Draw>, i: nat) returns (es: seq<Aggregation.Exposure<Value>>)
    requires s.physics.Valid() && ValidDraws(ds) && i < |ds|
    requires Run(s, opts, ds).Success?
    ensures Simulate(s, opts, Empty, ds).Success? && es == Simulate(s, opts, Empty, ds).value.outputs
    ensures i < |es| && "fourier_pattern" in es[i].top
    ensures "fourier_pattern" in Run(s, opts, ds).value.top
    ensures Run(s, opts, ds).value.top["fourier_pattern"][i] == Some(es[i].top["fourier_pattern"])
  {
    es := RunAggregates(s, opts, ds);
    SimulateFourierPatterns(s, opts, Empty, ds, i);
    FourierPatternNotReserved();
    Aggregation.AggregateTopEntry(es, ShapeOf, Zeros, "fourier_pattern", i);
  }

  lemma FourierPatternNotReserved()
    ensures "fourier_pattern" !in Aggregation.Reserved
  {
  }

  /** A successful run is the aggregate of its simulated exposures. */
  lemma RunAggregates(s: Setup, opts: Options, ds: seq<Draw>) returns (es: seq<Aggregation.Exposure<Value>>)
    requires s.physics.Valid() && ValidDraws(ds)
    requires Run(s, opts, ds).Success?
    ensures Simulate(s, opts, Empty, ds).Success? && es == Simulate(s, opts, Empty, ds).value.outputs
    ensures |es| == |ds|
    ensures Aggregation.AggregateOf(es, ShapeOf, Zeros).Success?
    ensures Run(s, opts, ds).value == Aggregation.AggregateOf(es, ShapeOf, Zeros).value
  {
    es := Simulate(s, opts, Empty, ds).value.outputs;
  }

  /** The run loop of Propagator.propagate: exposures one after another with
      the cache carried along, then the aggregation. */
  method Propagate(s: Setup, opts: Options, ds: seq<Draw>) returns (r: Result<Aggregation.Aggregate<Value>, RunError>)
    requires s.physics.Valid() && ValidDraws(ds)
    ensures r == Run(s, opts, ds)
  {
    ExposuresEnabled(s, opts, ds);
    var cache := Empty;
    var exposures: seq<Aggregation.Exposure<Value>> := [];
    var i := 0;
    while i < |ds|
      invariant 0 <= i <= |ds|
      invariant Simulate(s, opts, Empty, ds[..i]) == Success(Threaded(exposures, cache))
    {
      ThreadExtend(Exposures(s, opts), Empty, ds, i);
      var out := PropagateSingle(s, opts, cache, ds[i]);
      if out.Failure? {
        ThreadFailureFinal(Exposures(s, opts), Empty, ds, i + 1);
        return Failure(ScatterFailure(out.error));
      }
      exposures := exposures + [out.value.output];
      cache := out.value.state;
      i := i + 1;
    }
    assert ds[..i] == ds;
    var agg := Aggregation.Propagate(exposures, ShapeOf, Zeros);
    if agg.Failure? {
      return Failure(AggregationFailure(agg.error));
    }
    return Success(agg.value);
  }
}
