/** The per-particle part of one exposure in Propagator._propagate_single:
    which scattering-vector map a particle asks for, the intensity scaling
    factor of the uniform shapes, the rescaling and masking of the map branch's
    NFFT input, and the superposition of the particle amplitudes. The
    diffraction kernels, the NFFT, the beam profile and exp(i x) are
    collaborators handed in as functions. */
module Scattering {
  import opened Wrappers
  import opened Numbers
  import Material
  import opened QMapCache
  import opened Threading

  /** The particle model class a particle was drawn from. `Other` is any
      class the dispatch does not recognise. */
  datatype Shape = Sphere | Spheroid | Map | Molecule | Other

  datatype Particle = Particle(
    shape: Shape,
    material: Material.Material,
    position: Vec3,
    euler0: real,
    euler1: real,
    euler2: real,
    diameter: real,
    flattening: real)

  /** A complex amplitude per detector pixel, rows one after another. */
  type Field = seq<Amp>

  /** What the propagator reads out of the detector and source dictionaries. */
  datatype Geometry = Geometry(
    nx: int, ny: int, cx: real, cy: real, pixelSize: real, distance: real,
    solidAngle: real, wavelength: real)

  /** The atoms of a molecule: their positions and atomic numbers. */
  datatype Atoms = Atoms(positions: seq<Vec3>, numbers: seq<int>)

  /** A refractive-index map in the form the NFFT consumes, with its voxel size. */
  datatype DensityMap = DensityMap(values: seq<Complex>, dx: real)

  /** The collaborators of the dispatch. */
  datatype Kernels = Kernels(
    sqrt: real -> real,                                  // numpy.sqrt
    expI: real -> Complex,                               // numpy.exp(1j * x)
    intensityAt: Vec3 -> real,                           // source.get_intensity(pos, "ph/m2")
    generate: QMapKey -> QMap,                           // generate_qmap
    sphere: (real, seq<real>, real) -> Field,            // F_sphere_diffraction(K, q, R)
    spheroid: (real, seq<real>, seq<real>, real, real, real, real) -> Field,
                                                         // F_spheroid_diffraction(K, qx, qy, a, c, theta, phi)
    semiDiameterA: (real, real) -> real,                 // to_spheroid_semi_diameter_a(d, flattening)
    semiDiameterC: (real, real) -> real,                 // to_spheroid_semi_diameter_c(d, flattening)
    spheroidTheta: (real, real, real) -> real,           // to_spheroid_theta(e0, e1, e2)
    spheroidPhi: (real, real, real) -> real,             // to_spheroid_phi(e0, e1, e2)
    resolutionElement: (real, real, real) -> real,       // detector.get_real_space_resolution_element(wavelength, cx, cy)
    resolutionElementMin: (real, real, real) -> real,    // detector.get_real_space_resolution_element_min(wavelength, cx, cy)
    map3d: (Particle, real, real, Complex) -> DensityMap,// p.get_map3d(D_particle, dx_required, dx_suggested, dn)
    nfft: (seq<Complex>, seq<Vec3>) -> seq<Complex>,     // utils.nfft.nfft
    molecule: Particle -> (Field, QMap),                 // the spsim simulation and its scattering vectors
    atoms: Particle -> Atoms)                            // mol.pos and mol.atomic_number of the spsim molecule

  /** The element tables and physical constants the materials are evaluated with. */
  datatype Physics = Physics(tables: Material.ElementTables, constants: Material.Constants) {
    ghost predicate Valid() {
      tables.Valid() && constants.Valid()
    }
  }

  datatype ScatterError =
    | MaterialFailure(cause: Material.MaterialError)  // an exception raised by get_dn
    | UnknownShape                                     // "No valid particles initialized." and sys.exit
    | NoParticles                                      // F is unbound after an empty particle loop
    | ShapeMismatch                                    // numpy refuses to combine or reshape arrays of different sizes

  // ---------------------------------------------------------------------------
  // Primary wave and intensity scaling

  /** F0 = sqrt(I_0 Omega_p) 2 pi / wavelength^2. */
  function PrimaryAmplitude(sqrt: real -> real, intensity: real, solidAngle: real, wavelength: real): (f0: real)
    requires wavelength != 0.0
    ensures f0 * (wavelength * wavelength) == sqrt(intensity * solidAngle) * 2.0 * Pi
  {
    sqrt(intensity * solidAngle) * 2.0 * Pi / (wavelength * wavelength)
  }

  /** With a square root that squares back, F0^2 wavelength^4 = 4 pi^2 I_0 Omega_p:
      the primary amplitude squared is the photon count per pixel scaled by
      (2 pi / wavelength^2)^2. */
  lemma PrimaryAmplitudeSquared(sqrt: real -> real, intensity: real, solidAngle: real, wavelength: real)
    requires wavelength != 0.0
    requires sqrt(intensity * solidAngle) * sqrt(intensity * solidAngle) == intensity * solidAngle
    ensures var f0 := PrimaryAmplitude(sqrt, intensity, solidAngle, wavelength);
      f0 * f0 * (wavelength * wavelength) * (wavelength * wavelength) == 4.0 * Pi * Pi * intensity * solidAngle
  {
    var f0 := PrimaryAmplitude(sqrt, intensity, solidAngle, wavelength);
    var s := sqrt(intensity * solidAngle);
    var w := wavelength * wavelength;
    assert f0 * w == s * 2.0 * Pi;
    SquareOfProduct(f0, w, s * 2.0 * Pi);
    assert (s * 2.0 * Pi) * (s * 2.0 * Pi) == 4.0 * Pi * Pi * (s * s);
  }

  lemma SquareOfProduct(a: real, b: real, c: real)
    requires a * b == c
    ensures a * a * b * b == c * c
  {
    assert a * a * b * b == (a * b) * (a * b);
  }

  /** V = 4/3 pi R^3 with R = diameter / 2. */
  function SphereVolume(diameter: real): (v: real)
    ensures diameter >= 0.0 ==> v >= 0.0
    ensures diameter > 0.0 ==> v > 0.0
  {
    var r := diameter / 2.0;
    4.0 / 3.0 * Pi * (r * r * r)
  }

  /** Doubling the diameter multiplies the volume by eight. */
  lemma {:induction false} SphereVolumeDoubling(diameter: real)
    ensures SphereVolume(2.0 * diameter) == 8.0 * SphereVolume(diameter)
  {
    var r := diameter / 2.0;
    assert (2.0 * diameter) / 2.0 == 2.0 * r;
    assert (2.0 * r) * (2.0 * r) * (2.0 * r) == 8.0 * (r * r * r);
  }

  /** K = (F0 V |dn|)^2, written with |dn|^2 as the squared modulus. */
  function IntensityFactor(f0: real, volume: real, dn: Complex): (k: real)
    ensures k >= 0.0
  {
    AbsSqZero(dn);
    NonNegativeProduct(Square(f0 * volume), dn.AbsSq());
    Square(f0 * volume) * dn.AbsSq()
  }

  function Square(x: real): (y: real)
    ensures y >= 0.0
    ensures y == 0.0 <==> x == 0.0
  {
    SquareZero(x);
    x * x
  }

  /** K vanishes exactly when the primary amplitude, the volume or the
      refractive-index decrement does. */
  lemma IntensityFactorVanishes(f0: real, volume: real, dn: Complex)
    ensures IntensityFactor(f0, volume, dn) == 0.0 <==> f0 == 0.0 || volume == 0.0 || dn == ComplexZero
  {
    var sq := Square(f0 * volume);
    var m := dn.AbsSq();
    assert IntensityFactor(f0, volume, dn) == sq * m;
    ProductZero(sq, m);
    assert sq == 0.0 <==> f0 * volume == 0.0;
    ProductZero(f0, volume);
    AbsSqZero(dn);
  }

  lemma NonNegativeProduct(x: real, y: real)
    requires x >= 0.0 && y >= 0.0
    ensures x * y >= 0.0
  {
    if x > 0.0 && y > 0.0 {
      PositiveProduct(x, y);
    }
  }

  lemma ProductZero(x: real, y: real)
    ensures x * y == 0.0 <==> x == 0.0 || y == 0.0
  {
    if x != 0.0 && y != 0.0 {
      var ax := if x > 0.0 then x else -x;
      var ay := if y > 0.0 then y else -y;
      PositiveProduct(ax, ay);
      assert ax * ay == x * y || ax * ay == -(x * y);
    }
  }

  lemma SquareZero(x: real)
    ensures x * x >= 0.0
    ensures x * x == 0.0 <==> x == 0.0
  {
    ProductZero(x, x);
    if x < 0.0 {
      PositiveProduct(-x, -x);
    } else if x > 0.0 {
      PositiveProduct(x, x);
    }
  }

  /** |z|^2 is never negative and vanishes only at zero. */
  lemma AbsSqZero(z: Complex)
    ensures z.AbsSq() >= 0.0
    ensures z.AbsSq() == 0.0 <==> z == ComplexZero
  {
    SquareZero(z.re);
    SquareZero(z.im);
  }

  /** The scaling factor grows with the sixth power of the diameter: doubling
      it multiplies K by 64. */
  lemma {:induction false} IntensityFactorDoubling(f0: real, diameter: real, dn: Complex)
    ensures IntensityFactor(f0, SphereVolume(2.0 * diameter), dn) == 64.0 * IntensityFactor(f0, SphereVolume(diameter), dn)
  {
    var v := SphereVolume(diameter);
    SphereVolumeDoubling(diameter);
    assert Square(f0 * (8.0 * v)) == 64.0 * Square(f0 * v) by {
      assert (f0 * (8.0 * v)) * (f0 * (8.0 * v)) == 64.0 * ((f0 * v) * (f0 * v));
    }
  }

  /** K is quadratic in the refractive-index decrement: scaling dn by s scales K by s^2. */
  lemma {:induction false} IntensityFactorQuadraticInDn(f0: real, volume: real, dn: Complex, s: real)
    ensures IntensityFactor(f0, volume, dn.Scale(s)) == s * s * IntensityFactor(f0, volume, dn)
  {
    var a := f0 * volume;
    assert dn.Scale(s).AbsSq() == s * s * dn.AbsSq() by {
      assert (s * dn.re) * (s * dn.re) == s * s * (dn.re * dn.re);
      assert (s * dn.im) * (s * dn.im) == s * s * (dn.im * dn.im);
    }
    assert a * a * (s * s * dn.AbsSq()) == s * s * (a * a * dn.AbsSq());
  }

  // ---------------------------------------------------------------------------
  // Which scattering-vector map a particle requests

  function KeyWithAngles(g: Geometry, e0: real, e1: real, e2: real): QMapKey {
    QMapKey(g.nx, g.ny, g.cx, g.cy, g.pixelSize, g.distance, g.wavelength, e0, e1, e2)
  }

  /** Spheres and spheroids ask for the unrotated map (a spheroid's rotation
      enters its diffraction formula instead); map particles ask for the map
      rotated by their own Euler angles. */
  function RequestKey(g: Geometry, p: Particle): (key: QMapKey)
    requires p.shape.Sphere? || p.shape.Spheroid? || p.shape.Map?
  {
    if p.shape.Map? then KeyWithAngles(g, p.euler0, p.euler1, p.euler2)
    else KeyWithAngles(g, 0.0, 0.0, 0.0)
  }

  /** The geometry part of a request is the exposure's geometry. */
  lemma RequestKeyGeometry(g: Geometry, p: Particle)
    requires p.shape.Sphere? || p.shape.Spheroid? || p.shape.Map?
    ensures var key := RequestKey(g, p);
      && key.nx == g.nx && key.ny == g.ny && key.cx == g.cx && key.cy == g.cy
      && key.pixelSize == g.pixelSize && key.detectorDistance == g.distance && key.wavelength == g.wavelength
    ensures p.shape.Map? ==> RequestKey(g, p).euler0 == p.euler0 && RequestKey(g, p).euler1 == p.euler1 && RequestKey(g, p).euler2 == p.euler2
    ensures !p.shape.Map? ==> RequestKey(g, p).euler0 == 0.0 && RequestKey(g, p).euler1 == 0.0 && RequestKey(g, p).euler2 == 0.0
  {
  }

  /** Spheres and spheroids in one exposure share the unrotated map whatever
      their orientation: the request after the first one is served from the
      cache. */
  lemma UnrotatedShapesShareQMap(cache: Cache, g: Geometry, p: Particle, p': Particle, generate: QMapKey -> QMap)
    requires p.shape.Sphere? || p.shape.Spheroid?
    requires p'.shape.Sphere? || p'.shape.Spheroid?
    ensures var first := Request(cache, RequestKey(g, p), generate);
      !Request(first.cache, RequestKey(g, p'), generate).recomputed
  {
    RepeatedRequestHits(cache, RequestKey(g, p), generate);
  }

  /** Two map particles of different orientation do not share a map: the
      second request recomputes. */
  lemma RotatedMapsRecompute(cache: Cache, g: Geometry, p: Particle, p': Particle, generate: QMapKey -> QMap)
    requires p.shape.Map? && p'.shape.Map?
    requires p.euler0 != p'.euler0 || p.euler1 != p'.euler1 || p.euler2 != p'.euler2
    ensures var first := Request(cache, RequestKey(g, p), generate);
      Request(first.cache, RequestKey(g, p'), generate).recomputed
  {
    var first := Request(cache, RequestKey(g, p), generate);
    assert first.cache.key != RequestKey(g, p');
    ComponentsDetermineKey(first.cache.key, RequestKey(g, p'));
  }

  // ---------------------------------------------------------------------------
  // Scattering-vector components the uniform kernels use

  /** q = sqrt(qmap[:,:,1]^2 + qmap[:,:,2]^2) of the sphere branch. */
  function RadialQ(sqrt: real -> real, qmap: QMap): (q: seq<real>)
    ensures |q| == |qmap|
    ensures forall p :: 0 <= p < |qmap| ==> q[p] == Radial(sqrt, qmap[p])
  {
    seq(|qmap|, p requires 0 <= p < |qmap| => Radial(sqrt, qmap[p]))
  }

  /** The length of a vector's projection on the detector plane's (y, z) axes. */
  function Radial(sqrt: real -> real, v: Vec3): real {
    sqrt(v.y * v.y + v.z * v.z)
  }

  /** qx = qmap[:,:,2] of the spheroid branch. */
  function SpheroidQx(qmap: QMap): (q: seq<real>)
    ensures |q| == |qmap|
    ensures forall p :: 0 <= p < |qmap| ==> q[p] == qmap[p].z
  {
    seq(|qmap|, p requires 0 <= p < |qmap| => qmap[p].z)
  }

  /** qy = qmap[:,:,1] of the spheroid branch. */
  function SpheroidQy(qmap: QMap): (q: seq<real>)
    ensures |q| == |qmap|
    ensures forall p :: 0 <= p < |qmap| ==> q[p] == qmap[p].y
  {
    seq(|qmap|, p requires 0 <= p < |qmap| => qmap[p].y)
  }

  // ---------------------------------------------------------------------------
  // NFFT input of the map branch

  /** dx q / (2 pi): a scattering vector in units of the map's sampling frequency. */
  function Scaled(q: Vec3, dx: real): Vec3 {
    q.Scale(dx / (2.0 * Pi))
  }

  /** Scaling back by 2 pi / dx recovers the scattering vector. */
  lemma ScaledRoundTrip(q: Vec3, dx: real)
    requires dx != 0.0
    ensures Scaled(q, dx).Scale(2.0 * Pi / dx) == q
  {
    var a := dx / (2.0 * Pi);
    var b := 2.0 * Pi / dx;
    assert b * a == 1.0;
    assert b * (a * q.x) == (b * a) * q.x;
    assert b * (a * q.y) == (b * a) * q.y;
    assert b * (a * q.z) == (b * a) * q.z;
  }

  /** The NFFT accepts coordinates in [-0.5, 0.5]. */
  predicate InRange(x: real) {
    -0.5 <= x <= 0.5
  }

  /** A pixel whose scaled vector has a component outside the NFFT's range. */
  predicate Invalid(v: Vec3) {
    !InRange(v.x) || !InRange(v.y) || !InRange(v.z)
  }

  /** `qmap_shaped[abs(qmap_shaped) > 0.5] = 0.` on one component. */
  function Clamp(x: real): (y: real)
    ensures InRange(y)
    ensures InRange(x) <==> y == x
    ensures !InRange(x) ==> y == 0.0
  {
    if Abs(x) > 0.5 then 0.0 else x
  }

  function ClampVec(v: Vec3): (w: Vec3)
    ensures !Invalid(w)
    ensures !Invalid(v) <==> w == v
  {
    Vec3(Clamp(v.x), Clamp(v.y), Clamp(v.z))
  }

  /** The coordinates handed to the NFFT: every pixel's scaled vector with each
      out-of-range component set to zero. */
  function NfftCoordinates(qmap: QMap, dx: real): (cs: seq<Vec3>)
    ensures |cs| == |qmap|
    ensures forall p :: 0 <= p < |qmap| ==> cs[p] == ClampVec(Scaled(qmap[p], dx))
  {
    seq(|qmap|, p requires 0 <= p < |qmap| => ClampVec(Scaled(qmap[p], dx)))
  }

  /** Every coordinate handed to the NFFT is in range, and a pixel keeps its
      scaled vector exactly when that vector was in range. */
  lemma NfftCoordinatesInRange(qmap: QMap, dx: real)
    ensures forall p :: 0 <= p < |qmap| ==> !Invalid(NfftCoordinates(qmap, dx)[p])
    ensures forall p :: 0 <= p < |qmap| ==>
      (NfftCoordinates(qmap, dx)[p] == Scaled(qmap[p], dx) <==> !Invalid(Scaled(qmap[p], dx)))
  {
  }

  /** The pixels whose scaled vector had an out-of-range component. */
  function InvalidPixels(qmap: QMap, dx: real): (bad: seq<bool>)
    ensures |bad| == |qmap|
    ensures forall p :: 0 <= p < |qmap| ==> (bad[p] <==> Invalid(Scaled(qmap[p], dx)))
  {
    seq(|qmap|, p requires 0 <= p < |qmap| => Invalid(Scaled(qmap[p], dx)))
  }

  /** `fourier_pattern[numpy.any(invalid_mask)] = numpy.nan` as written:
      numpy.any reduces the mask to one boolean, and indexing with True selects
      the whole array, so one invalid pixel turns every pixel into NaN. */
  function MaskPatternAsWritten(pattern: seq<Complex>, bad: seq<bool>): (r: Field)
    requires |bad| == |pattern|
    ensures |r| == |pattern|
    ensures (exists p :: 0 <= p < |bad| && bad[p]) ==> forall p :: 0 <= p < |r| ==> r[p].NaN?
    ensures (forall p :: 0 <= p < |bad| ==> !bad[p]) ==> forall p :: 0 <= p < |r| ==> r[p] == Finite(pattern[p])
  {
    if exists p :: 0 <= p < |bad| && bad[p] then seq(|pattern|, p => NaN)
    else seq(|pattern|, p requires 0 <= p < |pattern| => Finite(pattern[p]))
  }

  /** The evidently intended masking: exactly the pixels with an out-of-range
      component become NaN, every other pixel keeps its NFFT value. */
  function MaskPattern(pattern: seq<Complex>, bad: seq<bool>): (r: Field)
    requires |bad| == |pattern|
    ensures |r| == |pattern|
    ensures forall p :: 0 <= p < |r| ==> (r[p].NaN? <==> bad[p])
    ensures forall p :: 0 <= p < |r| && !bad[p] ==> r[p] == Finite(pattern[p])
  {
    seq(|pattern|, p requires 0 <= p < |pattern| => if bad[p] then NaN else Finite(pattern[p]))
  }

  /** The two maskings agree exactly when no pixel or every pixel is invalid. */
  lemma MaskingAgreement(pattern: seq<Complex>, bad: seq<bool>)
    requires |bad| == |pattern|
    ensures MaskPatternAsWritten(pattern, bad) == MaskPattern(pattern, bad) <==>
      (forall p :: 0 <= p < |bad| ==> bad[p]) || (forall p :: 0 <= p < |bad| ==> !bad[p])
  {
    var w := MaskPatternAsWritten(pattern, bad);
    var c := MaskPattern(pattern, bad);
    if w == c && !(forall p :: 0 <= p < |bad| ==> !bad[p]) {
      forall p | 0 <= p < |bad| ensures bad[p] {
        assert w[p] == c[p];
      }
    }
  }

  /** A two-pixel pattern with only the first pixel out of range: the code as
      written loses the second pixel's value. */
  lemma MaskingCounterexample()
    ensures MaskPatternAsWritten([ComplexZero, Complex(1.0, 0.0)], [true, false])[1].NaN?
    ensures MaskPattern([ComplexZero, Complex(1.0, 0.0)], [true, false])[1] == Finite(Complex(1.0, 0.0))
  {
    assert [true, false][0];
  }

  // ---------------------------------------------------------------------------
  // One particle

  /** What the dispatch produces for one particle: its amplitude, the
      scattering vectors it was computed on, and the values written back into
      its record (intensity, F0 and, for map particles, the density map). */
  datatype Single = Single(amplitude: Field, qmap: QMap, intensity: real, f0: real, density: Option<DensityMap>)

  type Step = Stepped<Single, Cache>

  function DnOf(phys: Physics, g: Geometry, p: Particle): (r: Result<Complex, ScatterError>)
    requires phys.Valid()
    ensures r.Success? <==> Material.GetDn(p.material, phys.tables, phys.constants, g.wavelength).Success?
    ensures r.Success? ==> r.value == Material.GetDn(p.material, phys.tables, phys.constants, g.wavelength).value
  {
    var dn := Material.GetDn(p.material, phys.tables, phys.constants, g.wavelength);
    if dn.Failure? then Failure(MaterialFailure(dn.error)) else Success(dn.value)
  }

  /** numpy.sqrt(2), the double nearest to the square root of two. */
  const Sqrt2: real := 1.4142135623730951

  /** The map branch's amplitude and the density map it was computed from. */
  datatype MapScatter = MapScatter(amplitude: Field, density: DensityMap)

  /** dx**3, the voxel volume. */
  function Cube(x: real): real {
    x * x * x
  }

  /** F0 dx^3, the factor the map branch's NFFT values are scaled by. */
  function VoxelScale(f0: real, dm: DensityMap): real {
    f0 * Cube(dm.dx)
  }

  /** F = F0 * fourier_pattern * dx^3 of the map branch. */
  function MapAmplitude(masked: Field, scale: real): (r: Field)
    ensures |r| == |masked|
    ensures forall p :: 0 <= p < |masked| ==> r[p] == ScaleAmp(masked[p], scale)
  {
    seq(|masked|, p requires 0 <= p < |masked| => ScaleAmp(masked[p], scale))
  }

  /** After masking and scaling, a pixel is NaN exactly when its scaled
      vector was out of range, and otherwise holds F0 dx^3 times the NFFT value. */
  lemma MaskedAmplitude(scale: real, pattern: seq<Complex>, qmap: QMap, dx: real)
    requires |pattern| == |qmap|
    ensures forall q :: 0 <= q < |qmap| ==>
      (MapAmplitude(MaskPattern(pattern, InvalidPixels(qmap, dx)), scale)[q].NaN? <==> Invalid(Scaled(qmap[q], dx)))
    ensures forall q :: 0 <= q < |qmap| && !Invalid(Scaled(qmap[q], dx)) ==>
      MapAmplitude(MaskPattern(pattern, InvalidPixels(qmap, dx)), scale)[q] == Finite(pattern[q].Scale(scale))
  {
    var bad := InvalidPixels(qmap, dx);
    var masked := MaskPattern(pattern, bad);
    forall q | 0 <= q < |qmap|
      ensures masked[q].NaN? <==> Invalid(Scaled(qmap[q], dx))
      ensures !Invalid(Scaled(qmap[q], dx)) ==> masked[q] == Finite(pattern[q])
    {
      assert bad[q] <==> Invalid(Scaled(qmap[q], dx));
    }
  }

  /** The map branch after the qmap request: voxel size from the detector's
      resolution elements, the density map, the clamped NFFT input, the NFFT,
      the masking of invalid pixels and the scaling by F0 dx^3. A pattern the
      NFFT returns with a different pixel count cannot be reshaped. */
  function MapBranch(k: Kernels, g: Geometry, p: Particle, dn: Complex, f0: real, qmap: QMap): (r: Result<MapScatter, ScatterError>)
    ensures r.Success? <==> |MapPattern(k, MapDensity(k, g, p, dn), qmap)| == |qmap|
    ensures r.Success? ==> r.value.density == MapDensity(k, g, p, dn) && |r.value.amplitude| == |qmap|
    ensures r.Success? ==> forall q :: 0 <= q < |qmap| ==>
      (r.value.amplitude[q].NaN? <==> Invalid(Scaled(qmap[q], r.value.density.dx)))
  {
    var dm := MapDensity(k, g, p, dn);
    var pattern := MapPattern(k, dm, qmap);
    if |pattern| != |qmap| then Failure(ShapeMismatch)
    else
      var scale := VoxelScale(f0, dm);
      MaskedAmplitude(scale, pattern, qmap, dm.dx);
      Success(MapScatter(MapAmplitude(MaskPattern(pattern, InvalidPixels(qmap, dm.dx)), scale), dm))
  }

  /** Every pixel whose scaled vector was in range holds F0 dx^3 times its NFFT value. */
  predicate MapPixels(m: MapScatter, f0: real, pattern: seq<Complex>, qmap: QMap)
    requires |m.amplitude| == |pattern| == |qmap|
  {
    forall q :: 0 <= q < |qmap| && !Invalid(Scaled(qmap[q], m.density.dx)) ==>
      m.amplitude[q] == Finite(pattern[q].Scale(VoxelScale(f0, m.density)))
  }

  /** A successful map branch keeps the NFFT value, scaled by F0 dx^3, at
      every pixel whose scaled vector was in range. */
  lemma MapBranchPixels(k: Kernels, g: Geometry, p: Particle, dn: Complex, f0: real, qmap: QMap)
    requires MapBranch(k, g, p, dn, f0, qmap).Success?
    ensures MapPixels(MapBranch(k, g, p, dn, f0, qmap).value, f0, MapPattern(k, MapDensity(k, g, p, dn), qmap), qmap)
  {
    var dm := MapDensity(k, g, p, dn);
    MaskedAmplitude(VoxelScale(f0, dm), MapPattern(k, dm, qmap), qmap, dm.dx);
  }

  /** Some pixel of the map has a scaled vector out of range. */
  predicate SomeInvalid(qmap: QMap, dx: real) {
    exists q :: 0 <= q < |qmap| && Invalid(Scaled(qmap[q], dx))
  }

  /** Every pixel of the map has a scaled vector out of range. */
  predicate AllInvalid(qmap: QMap, dx: real) {
    forall q :: 0 <= q < |qmap| ==> Invalid(Scaled(qmap[q], dx))
  }

  /** The map branch with the masking as written: once a single pixel is out
      of range the whole amplitude is NaN; otherwise every pixel holds
      F0 dx^3 times its NFFT value. */
  function MapBranchAsWritten(k: Kernels, g: Geometry, p: Particle, dn: Complex, f0: real, qmap: QMap): (r: Result<MapScatter, ScatterError>)
    ensures r.Success? <==> |MapPattern(k, MapDensity(k, g, p, dn), qmap)| == |qmap|
    ensures r.Success? ==> r.value.density == MapDensity(k, g, p, dn) && |r.value.amplitude| == |qmap|
    ensures r.Success? && SomeInvalid(qmap, r.value.density.dx) ==>
      forall q :: 0 <= q < |qmap| ==> r.value.amplitude[q].NaN?
    ensures r.Success? && !SomeInvalid(qmap, r.value.density.dx) ==>
      MapPixels(r.value, f0, MapPattern(k, MapDensity(k, g, p, dn), qmap), qmap)
  {
    var dm := MapDensity(k, g, p, dn);
    var pattern := MapPattern(k, dm, qmap);
    if |pattern| != |qmap| then Failure(ShapeMismatch)
    else
      var bad := InvalidPixels(qmap, dm.dx);
      var scale := VoxelScale(f0, dm);
      var amplitude := MapAmplitude(MaskPatternAsWritten(pattern, bad), scale);
      assert SomeInvalid(qmap, dm.dx) <==> exists q :: 0 <= q < |bad| && bad[q] by {
        if SomeInvalid(qmap, dm.dx) {
          var q :| 0 <= q < |qmap| && Invalid(Scaled(qmap[q], dm.dx));
          assert bad[q];
        }
      }
      Success(MapScatter(amplitude, dm))
  }

  /** The map branch as written and the corrected one succeed together, and
      they compute the same amplitude exactly when no pixel or every pixel of
      the map is out of range. */
  lemma MapBranchAgreement(k: Kernels, g: Geometry, p: Particle, dn: Complex, f0: real, qmap: QMap)
    ensures MapBranchAsWritten(k, g, p, dn, f0, qmap).Success? <==> MapBranch(k, g, p, dn, f0, qmap).Success?
    ensures MapBranch(k, g, p, dn, f0, qmap).Success? ==>
      var dx := MapDensity(k, g, p, dn).dx;
      (MapBranchAsWritten(k, g, p, dn, f0, qmap) == MapBranch(k, g, p, dn, f0, qmap) <==>
       AllInvalid(qmap, dx) || !SomeInvalid(qmap, dx))
  {
    var dm := MapDensity(k, g, p, dn);
    var pattern := MapPattern(k, dm, qmap);
    if |pattern| == |qmap| {
      var bad := InvalidPixels(qmap, dm.dx);
      var scale := VoxelScale(f0, dm);
      var w := MapAmplitude(MaskPatternAsWritten(pattern, bad), scale);
      var c := MapAmplitude(MaskPattern(pattern, bad), scale);
      assert MapBranchAsWritten(k, g, p, dn, f0, qmap) == Success(MapScatter(w, dm));
      assert MapBranch(k, g, p, dn, f0, qmap) == Success(MapScatter(c, dm));
      MaskingAgreement(pattern, bad);
      assert AllInvalid(qmap, dm.dx) <==> forall q :: 0 <= q < |bad| ==> bad[q];
      assert !SomeInvalid(qmap, dm.dx) <==> forall q :: 0 <= q < |bad| ==> !bad[q] by {
        if SomeInvalid(qmap, dm.dx) {
          var q :| 0 <= q < |qmap| && Invalid(Scaled(qmap[q], dm.dx));
          assert bad[q];
        }
      }
      if w == c && SomeInvalid(qmap, dm.dx) {
        forall q | 0 <= q < |qmap| ensures Invalid(Scaled(qmap[q], dm.dx)) {
          assert w[q] == c[q];
        }
      }
      if MaskPatternAsWritten(pattern, bad) == MaskPattern(pattern, bad) {
        assert w == c;
      }
    }
  }

  /** p.get_map3d with the required and suggested voxel sizes, each the
      detector's real-space resolution element divided by sqrt(2). */
  function MapDensity(k: Kernels, g: Geometry, p: Particle, dn: Complex): DensityMap {
    var dxRequired := k.resolutionElement(g.wavelength, g.cx, g.cy) / Sqrt2;
    var dxSuggested := k.resolutionElementMin(g.wavelength, g.cx, g.cy) / Sqrt2;
    k.map3d(p, dxRequired, dxSuggested, dn)
  }

  /** The NFFT of the density map at the clamped, rescaled scattering vectors. */
  function MapPattern(k: Kernels, dm: DensityMap, qmap: QMap): seq<Complex> {
    k.nfft(dm.values, NfftCoordinates(qmap, dm.dx))
  }

  /** One pass of the particle loop: beam intensity and F0, then the dispatch
      on the particle's class. The uniform shapes and the map ask the cache for
      their scattering vectors; the molecule brings its own and leaves the
      cache alone; any other class ends the run. */
  function ScatterParticle(k: Kernels, phys: Physics, g: Geometry, cache: Cache, p: Particle): (r: Result<Step, ScatterError>)
    requires phys.Valid() && g.wavelength != 0.0
    ensures p.shape.Other? ==> r == Failure(UnknownShape)
    ensures (p.shape.Sphere? || p.shape.Spheroid?) ==>
      (r.Success? <==> DnOf(phys, g, p).Success?)
    ensures p.shape.Map? && r.Success? ==> DnOf(phys, g, p).Success?
    ensures r.Failure? && DnOf(phys, g, p).Failure? && !p.shape.Molecule? && !p.shape.Other? ==> r.error == DnOf(phys, g, p).error
    ensures p.shape.Molecule? ==> r.Success?
    ensures r.Success? ==> r.value.output.intensity == k.intensityAt(p.position)
    ensures r.Success? ==> r.value.output.f0 == PrimaryAmplitude(k.sqrt, k.intensityAt(p.position), g.solidAngle, g.wavelength)
    ensures r.Success? && !p.shape.Molecule? ==>
      var lookup := Request(cache, RequestKey(g, p), k.generate);
      r.value.output.qmap == lookup.qmap && r.value.state == lookup.cache
    ensures r.Success? && p.shape.Molecule? ==>
      r.value.output == Single(k.molecule(p).0, k.molecule(p).1, r.value.output.intensity, r.value.output.f0, None)
      && r.value.state == cache
    ensures r.Success? && p.shape.Sphere? ==>
      r.value.output.amplitude == k.sphere(
        IntensityFactor(r.value.output.f0, SphereVolume(p.diameter), DnOf(phys, g, p).value),
        RadialQ(k.sqrt, r.value.output.qmap), p.diameter / 2.0)
    ensures r.Success? && p.shape.Spheroid? ==>
      r.value.output.amplitude == k.spheroid(
        IntensityFactor(r.value.output.f0, SphereVolume(p.diameter), DnOf(phys, g, p).value),
        SpheroidQx(r.value.output.qmap), SpheroidQy(r.value.output.qmap),
        k.semiDiameterA(p.diameter, p.flattening), k.semiDiameterC(p.diameter, p.flattening),
        k.spheroidTheta(p.euler0, p.euler1, p.euler2), k.spheroidPhi(p.euler0, p.euler1, p.euler2))
    ensures r.Success? && p.shape.Map? ==>
      && r.value.output.density.Some?
      && MapBranch(k, g, p, DnOf(phys, g, p).value, r.value.output.f0, r.value.output.qmap)
           == Success(MapScatter(r.value.output.amplitude, r.value.output.density.value))
    ensures r.Success? && !p.shape.Map? ==> r.value.output.density.None?
  {
    var intensity := k.intensityAt(p.position);
    var f0 := PrimaryAmplitude(k.sqrt, intensity, g.solidAngle, g.wavelength);
    match p.shape
    case Sphere =>
      var dn :- DnOf(phys, g, p);
      var lookup := Request(cache, RequestKey(g, p), k.generate);
      var q := RadialQ(k.sqrt, lookup.qmap);
      var radius := p.diameter / 2.0;
      var factor := IntensityFactor(f0, SphereVolume(p.diameter), dn);
      Success(Stepped(Single(k.sphere(factor, q, radius), lookup.qmap, intensity, f0, None), lookup.cache))
    case Spheroid =>
      var dn :- DnOf(phys, g, p);
      var lookup := Request(cache, RequestKey(g, p), k.generate);
      var factor := IntensityFactor(f0, SphereVolume(p.diameter), dn);
      var a := k.semiDiameterA(p.diameter, p.flattening);
      var c := k.semiDiameterC(p.diameter, p.flattening);
      var theta := k.spheroidTheta(p.euler0, p.euler1, p.euler2);
      var phi := k.spheroidPhi(p.euler0, p.euler1, p.euler2);
      var amplitude := k.spheroid(factor, SpheroidQx(lookup.qmap), SpheroidQy(lookup.qmap), a, c, theta, phi);
      Success(Stepped(Single(amplitude, lookup.qmap, intensity, f0, None), lookup.cache))
    case Map =>
      var dn :- DnOf(phys, g, p);
      var lookup := Request(cache, RequestKey(g, p), k.generate);
      var result :- MapBranch(k, g, p, dn, f0, lookup.qmap);
      Success(Stepped(Single(result.amplitude, lookup.qmap, intensity, f0, Some(result.density)), lookup.cache))
    case Molecule =>
      var simulated := k.molecule(p);
      Success(Stepped(Single(simulated.0, simulated.1, intensity, f0, None), cache))
    case Other =>
      Failure(UnknownShape)
  }

  // ---------------------------------------------------------------------------
  // Superposition

  /** exp(-i (v . q)): the phase of a particle at position v for scattering vector q. */
  function Phase(expI: real -> Complex, v: Vec3, q: Vec3): Complex {
    expI(-v.Dot(q))
  }

  /** F * exp(-i (v . q)) pixel by pixel. */
  function Shifted(expI: real -> Complex, f: Field, v: Vec3, qmap: QMap): (r: Field)
    requires |f| == |qmap|
    ensures |r| == |f|
    ensures forall p :: 0 <= p < |f| ==> r[p] == MulAmp(f[p], Phase(expI, v, qmap[p]))
  {
    seq(|f|, p requires 0 <= p < |f| => MulAmp(f[p], Phase(expI, v, qmap[p])))
  }

  function AddFields(a: Field, b: Field): (r: Field)
    requires |a| == |b|
    ensures |r| == |a|
    ensures forall p :: 0 <= p < |a| ==> r[p] == AddAmp(a[p], b[p])
  {
    seq(|a|, p requires 0 <= p < |a| => AddAmp(a[p], b[p]))
  }

  /** numpy.zeros_like(F). */
  function ZeroField(n: nat): (r: Field)
    ensures |r| == n
    ensures forall p :: 0 <= p < n ==> r[p] == Finite(ComplexZero)
  {
    seq(n, p => Finite(ComplexZero))
  }

  /** Every amplitude has as many pixels as the scattering-vector map. */
  predicate Conformal(fs: seq<Field>, qmap: QMap) {
    forall i :: 0 <= i < |fs| ==> |fs[i]| == |qmap|
  }

  /** F_tot after the particles of fs, in list order, starting from zeros. */
  function Superpose(expI: real -> Complex, fs: seq<Field>, vs: seq<Vec3>, qmap: QMap): (r: Field)
    requires |fs| == |vs| && Conformal(fs, qmap)
    ensures |r| == |qmap|
    decreases |fs|
  {
    if fs == [] then ZeroField(|qmap|)
    else
      var n := |fs| - 1;
      AddFields(Superpose(expI, fs[..n], vs[..n], qmap), Shifted(expI, fs[n], vs[n], qmap))
  }

  /** Some particle's amplitude is NaN at pixel p. */
  predicate SomeNaN(fs: seq<Field>, p: nat) {
    exists i :: 0 <= i < |fs| && p < |fs[i]| && fs[i][p].NaN?
  }

  lemma SomeNaNPrefix(fs: seq<Field>, p: nat)
    requires fs != []
    ensures SomeNaN(fs, p) <==> SomeNaN(fs[..|fs| - 1], p) || (p < |fs[|fs| - 1]| && fs[|fs| - 1][p].NaN?)
  {
    var n := |fs| - 1;
    if SomeNaN(fs[..n], p) {
      var i :| 0 <= i < n && p < |fs[..n][i]| && fs[..n][i][p].NaN?;
      assert fs[i] == fs[..n][i];
    }
    if SomeNaN(fs, p) {
      var i :| 0 <= i < |fs| && p < |fs[i]| && fs[i][p].NaN?;
      if i < n {
        assert fs[..n][i] == fs[i];
      }
    }
  }

  /** A pixel of the total is NaN exactly when that pixel of some particle's amplitude is. */
  lemma {:induction false} SuperposeNaN(expI: real -> Complex, fs: seq<Field>, vs: seq<Vec3>, qmap: QMap, p: nat)
    requires |fs| == |vs| && Conformal(fs, qmap) && p < |qmap|
    ensures Superpose(expI, fs, vs, qmap)[p].NaN? <==> SomeNaN(fs, p)
    decreases |fs|
  {
    if fs != [] {
      var n := |fs| - 1;
      assert Conformal(fs[..n], qmap) by {
        forall i | 0 <= i < n ensures |fs[..n][i]| == |qmap| {
          assert fs[..n][i] == fs[i];
        }
      }
      var prev := Superpose(expI, fs[..n], vs[..n], qmap);
      var last := Shifted(expI, fs[n], vs[n], qmap);
      assert Superpose(expI, fs, vs, qmap) == AddFields(prev, last);
      assert Superpose(expI, fs, vs, qmap)[p] == AddAmp(prev[p], last[p]);
      SuperposeNaN(expI, fs[..n], vs[..n], qmap, p);
      SomeNaNPrefix(fs, p);
    }
  }

  lemma AddAmpAssociative(a: Amp, b: Amp, c: Amp)
    ensures AddAmp(AddAmp(a, b), c) == AddAmp(a, AddAmp(b, c))
  {
  }

  lemma AddFieldsAssociative(a: Field, b: Field, c: Field)
    requires |a| == |b| == |c|
    ensures AddFields(AddFields(a, b), c) == AddFields(a, AddFields(b, c))
  {
    forall p | 0 <= p < |a| ensures AddFields(AddFields(a, b), c)[p] == AddFields(a, AddFields(b, c))[p] {
      AddAmpAssociative(a[p], b[p], c[p]);
    }
  }

  lemma AddFieldsCommutative(a: Field, b: Field)
    requires |a| == |b|
    ensures AddFields(a, b) == AddFields(b, a)
  {
  }

  lemma AddZeroField(a: Field)
    ensures AddFields(ZeroField(|a|), a) == a
  {
  }

  /** Superposing two groups of particles one after the other gives the sum
      of the two groups' superpositions. */
  lemma {:induction false} SuperposeAppend(expI: real -> Complex, fs: seq<Field>, vs: seq<Vec3>, gs: seq<Field>, ws: seq<Vec3>, qmap: QMap)
    requires |fs| == |vs| && |gs| == |ws| && Conformal(fs, qmap) && Conformal(gs, qmap)
    ensures Conformal(fs + gs, qmap)
    ensures Superpose(expI, fs + gs, vs + ws, qmap) ==
      AddFields(Superpose(expI, fs, vs, qmap), Superpose(expI, gs, ws, qmap))
    decreases |gs|
  {
    var all := fs + gs;
    assert Conformal(all, qmap) by {
      forall i | 0 <= i < |all| ensures |all[i]| == |qmap| {
        if i >= |fs| {
          assert all[i] == gs[i - |fs|];
        }
      }
    }
    if gs == [] {
      assert fs + gs == fs && vs + ws == vs;
      AddFieldsCommutative(Superpose(expI, fs, vs, qmap), ZeroField(|qmap|));
      AddZeroField(Superpose(expI, fs, vs, qmap));
    } else {
      var m := |gs| - 1;
      assert (fs + gs)[..|fs| + m] == fs + gs[..m];
      assert (vs + ws)[..|vs| + m] == vs + ws[..m];
      assert (fs + gs)[|fs| + m] == gs[m];
      assert (vs + ws)[|vs| + m] == ws[m];
      SuperposeAppend(expI, fs, vs, gs[..m], ws[..m], qmap);
      AddFieldsAssociative(Superpose(expI, fs, vs, qmap), Superpose(expI, gs[..m], ws[..m], qmap),
                           Shifted(expI, gs[m], ws[m], qmap));
    }
  }

  /** The total does not depend on the order the particles are illuminated in:
      swapping two groups of particles gives the same amplitude. */
  lemma SuperposeOrderIndependent(expI: real -> Complex, fs: seq<Field>, vs: seq<Vec3>, gs: seq<Field>, ws: seq<Vec3>, qmap: QMap)
    requires |fs| == |vs| && |gs| == |ws| && Conformal(fs, qmap) && Conformal(gs, qmap)
    ensures Conformal(fs + gs, qmap) && Conformal(gs + fs, qmap)
    ensures Superpose(expI, fs + gs, vs + ws, qmap) == Superpose(expI, gs + fs, ws + vs, qmap)
  {
    SuperposeAppend(expI, fs, vs, gs, ws, qmap);
    SuperposeAppend(expI, gs, ws, fs, vs, qmap);
    AddFieldsCommutative(Superpose(expI, fs, vs, qmap), Superpose(expI, gs, ws, qmap));
  }

  /** A single particle contributes its amplitude times its phase. */
  lemma SuperposeSingle(expI: real -> Complex, f: Field, v: Vec3, qmap: QMap)
    requires |f| == |qmap|
    ensures Conformal([f], qmap)
    ensures Superpose(expI, [f], [v], qmap) == Shifted(expI, f, v, qmap)
  {
    assert [f][..0] == [];
    assert [v][..0] == [];
    AddZeroField(Shifted(expI, f, v, qmap));
  }

  /** The superposition loop of _propagate_single: F_tot starts as zeros shaped
      like the last particle's amplitude and every particle's amplitude, times
      its phase on the last particle's scattering vectors, is added in order.
      Amplitudes whose size differs from that map cannot be combined. */
  method Superimpose(expI: real -> Complex, fs: seq<Field>, vs: seq<Vec3>, qmap: QMap) returns (r: Result<Field, ScatterError>)
    requires |fs| == |vs|
    ensures fs == [] ==> r == Failure(NoParticles)
    ensures fs != [] ==> (r.Success? <==> Conformal(fs, qmap))
    ensures r.Success? ==> Conformal(fs, qmap) && r.value == Superpose(expI, fs, vs, qmap)
  {
    if fs == [] {
      return Failure(NoParticles);
    }
    var n := |qmap|;
    if |fs[|fs| - 1]| != n {
      return Failure(ShapeMismatch);
    }
    var total := ZeroField(n);
    var i := 0;
    while i < |fs|
      invariant 0 <= i <= |fs|
      invariant Conformal(fs[..i], qmap)
      invariant total == Superpose(expI, fs[..i], vs[..i], qmap)
    {
      if |fs[i]| != n {
        return Failure(ShapeMismatch);
      }
      assert fs[..i + 1][..i] == fs[..i];
      assert vs[..i + 1][..i] == vs[..i];
      total := AddFields(total, Shifted(expI, fs[i], vs[i], qmap));
      i := i + 1;
    }
    assert fs[..i] == fs && vs[..i] == vs;
    return Success(total);
  }
}
