# Condor propagation core in Dafny

This project models the propagation core of Condor, a simulator of diffractive
single-particle imaging with X-ray lasers. It also models the `Material` class that
supplies the refractive index to that core.

- **One exposure** (`Propagator._propagate_single`):
  - Each particle of the sample is scattered in turn:
    - the beam intensity at the particle and the primary amplitude F0 are computed;
    - the particle class decides what follows (uniform sphere, uniform spheroid, density map, molecule, or anything else, which is fatal).
  - Spheres, spheroids and maps take their scattering vectors from a single-slot cache (`get_qmap`). Spheres and spheroids use the unrotated map; maps use the map rotated by their own Euler angles.
  - The particle amplitudes are superimposed with their position phases on the last particle's scattering vectors.
  - The intensity |F|² is handed to the detector, and the exposure's output dictionaries are assembled.
- **The whole run** (`Propagator.propagate`):
  - Exposures run in order, and the cache carries over from one to the next.
  - Every channel that an exposure reports is collected into a list indexed by exposure.
  - Every per-particle channel becomes a zero-padded array of shape `[N, N_particles_max] + item shape`.
- **The material** (`particle/material.py`):
  - validation of the constructor arguments;
  - the normalised atomic composition;
  - the average scattering factor;
  - atom and electron densities;
  - the Henke refractive index n, its decrement dn = 1 - n, and delta and beta.

Modules:

- `Wrappers`: `Option` and `Result`. A Python exception, or a `sys.exit`, is a `Failure` that ends the run.
- `Numbers`: complex numbers, amplitudes that may be NaN (`Float`), 3-vectors, and small arithmetic lemmas.
- `Threading`: a generic left-to-right loop that threads a state (here the qmap cache) through its steps and stops at the first failure. It comes with lemmas about each output, failure, extension and transparency of the state.
- `Material`: the material class.
- `QMapCache`: `get_qmap` and its cache slot.
- `Scattering`: the per-particle dispatch, the map-branch input and masking of the NFFT (the non-uniform FFT applied to the density map), and the superposition.
- `Aggregation`: the collecting and padding part of `propagate`, generic in the value type.
- `Propagator`: a concrete array value type, one exposure and the whole run.

The collaborators are fields of the `Kernels`, `DetectorModel` and `Setup` datatypes, passed in as function values:

- the diffraction kernels, NFFT and `generate_qmap`;
- the particle map generator and the molecule simulation;
- the beam profile and `detect_photons`;
- `downsample`, `numpy.sqrt` and `exp(i x)`;
- the element tables and the physical constants.

Detector fields are flat sequences, one detector row after another. Real numbers are unbounded reals. NaN is modelled only where the code produces it: the masking of the map branch.

## Model

| member | source | states |
|---|---|---|
| Material.RawCompositionSelectsAttributes | src/particle/material.py:156-163 | An attribute is picked up as element e's amount exactly when its name is "c" followed by a known element symbol e. The amount read is the attribute's value (both directions). |
| Material.Normalize | src/particle/material.py:165-167 | An empty composition stays empty. A non-empty one fails (division by zero) exactly when its amounts sum to zero. Otherwise the element set is kept, and each fraction times the total gives back the original amount. |
| Material.NormalizedFractions | src/particle/material.py:165-167 | The normalised fractions sum to one, and any two elements keep the ratio of their original amounts. |
| Material.NormalizeScaleInvariant | src/particle/material.py:156-169 | Scaling every amount by a non-zero factor leaves the normalised composition unchanged. |
| Material.CompositionScaleInvariant | src/particle/material.py:156-169 | A material whose c<Element> attributes are all scaled by a non-zero factor has the same atomic composition. |
| Material.ScaleTwice | src/particle/material.py:165-167 | Scaling a composition by k and then by j equals scaling it once by j·k. |
| Material.WeightedSumScale | src/particle/material.py:114-117 | An element-weighted sum over a composition scaled by k is k times the original sum. This is the linearity that the f, mass and charge sums rely on. |
| Material.WeightedSumCombine | src/particle/material.py:114-117 | The element-weighted sum over the union of two compositions (amounts added) is the sum of their weighted sums. |
| Material.GetF | src/particle/material.py:103-119 | get_f is defined exactly when the composition is and the wavelength is non-zero. Its value is the composition-weighted sum of the element scattering factors at photon energy h c / (lambda e). |
| Material.FactorSumAdditive | src/particle/material.py:114-117 | The scattering factor of a mixture is the sum of its parts' factors. |
| Material.FactorSumHomogeneous | src/particle/material.py:114-117 | Scaling the amounts scales the summed scattering factor by the same factor. |
| Material.FactorSumPureElement | src/particle/material.py:114-117 | A composition of one element with fraction 1 has exactly that element's tabulated scattering factor. |
| Material.AtomDensity | src/particle/material.py:122-135 | The atom density is defined exactly when the composition is and the molar mass sum_e c_e m_e u is non-zero. Multiplied by that molar mass, it gives back the mass density. |
| Material.AtomDensityDefined | src/particle/material.py:122-135 | With non-negative amounts summing to a positive total, the atom density is defined, and it is positive when the mass density is. |
| Material.ElectronDensity | src/particle/material.py:138-153 | The electron density is defined exactly when the atom density is, and it equals the atom density times the mean charge sum_e c_e Z_e. |
| Material.GetN | src/particle/material.py:56-72 | The refractive index is defined exactly when both the scattering factor and the atom density are, and n + r0/(2 pi) lambda^2 rho f = 1 (Henke), componentwise. |
| Material.GetDn | src/particle/material.py:74-75 | 1 - n is defined exactly when n is, and it equals f scaled by r0/(2 pi) lambda^2 rho (the Henke relation). |
| Material.GetDelta | src/particle/material.py:79-80 | delta = 1 - Re n is the real part of dn, and it is defined exactly when n is. |
| Material.GetBeta | src/particle/material.py:81-82 | beta = -Im n is the imaginary part of dn, and it is defined exactly when n is. |
| Material.IndexFromDeltaBeta | src/particle/material.py:77-82 | n = 1 - delta - i beta, the convention noted beside get_delta. |
| Material.DnProportionalToMassDensity | src/particle/material.py:56-75 | Scaling the mass density by a scales dn by a. |
| Material.ValidElementCount | src/particle/material.py:41-45 | The constructor's check rejects a mass-density call exactly when it has no keyword amounts or has a keyword that is not "c" plus a known element (both directions). |
| Material.NewMaterial | src/particle/material.py:39-54 | The corrected constructor, in the mass-density form, succeeds exactly when the check passes, and the material stores that mass density and the given amounts. With neither argument it reports the missing arguments. |
| Material.NewMaterialCompositionRoundTrip | src/particle/material.py:39-54 | A constructed material reads back, through get_atomic_composition_dict, exactly the amounts it was built from: the keyword amounts, or the known elements of the tabulated material type. |
| Material.NewMaterialAsWritten | src/particle/material.py:39-54 | The constructor as written fails on every mass-density call. With neither argument it fails on the material-type lookup. With a material type it agrees with the corrected constructor. |
| Material.AsWrittenRejectsValidCompositions | src/particle/material.py:46-47 | Every mass-density call that the corrected constructor accepts raises NameError as written. |
| Material.AsWrittenHydrogenExample | src/particle/material.py:46-47 | Material(massdensity=1000, cH=2) raises NameError as written, while the corrected constructor builds the material. |
| Material.AsWrittenMissingArguments | src/particle/material.py:48-54 | A call with neither argument fails on the table lookup as written, instead of reaching the "No valid arguments" branch. |
| QMapCache.ComponentsDetermineKey | src/propagator.py:338-343 | Two requests agree on all ten compared parameters exactly when they are the same request. |
| QMapCache.MustRecompute | src/propagator.py:337-343 | The parameter-by-parameter loop decides to recompute exactly when the slot is empty or the key differs. |
| QMapCache.Request | src/propagator.py:336-350 | A map is recomputed exactly when the slot is empty or some parameter differs. A recomputed map is the generator's. A hit returns the slot's map and leaves the slot unchanged. Afterwards the slot holds the requested key with the returned map. |
| QMapCache.RequestTransparent | src/propagator.py:336-350 | From a slot that holds what the generator computes for its key, every request returns the generator's map for the requested key, and the slot stays coherent. |
| QMapCache.RepeatedRequestHits | src/propagator.py:339-350 | A second request with the same key is a hit and returns the same map. |
| Scattering.PrimaryAmplitude | src/propagator.py:146-147 | F0 times lambda^2 equals sqrt(I_0 Omega_p) 2 pi. |
| Scattering.PrimaryAmplitudeSquared | src/propagator.py:146-147 | With a square root that squares back, F0^2 lambda^4 = 4 pi^2 I_0 Omega_p. |
| Scattering.SphereVolume | src/propagator.py:163-164 | The volume 4/3 pi (d/2)^3 is non-negative for a non-negative diameter and positive for a positive one. |
| Scattering.SphereVolumeDoubling | src/propagator.py:163-164 | Doubling the diameter multiplies the volume by eight. |
| Scattering.IntensityFactor | src/propagator.py:165 | K = (F0 V \|dn\|)^2 is never negative. |
| Scattering.IntensityFactorVanishes | src/propagator.py:165 | K is zero exactly when F0, V or dn is. |
| Scattering.IntensityFactorDoubling | src/propagator.py:163-165 | Doubling the diameter multiplies K by 64. |
| Scattering.IntensityFactorQuadraticInDn | src/propagator.py:165 | Scaling dn by s scales K by s^2. |
| Scattering.RequestKeyGeometry | src/propagator.py:159-196 | The cache key is the exposure's geometry. Its Euler angles are zero for spheres and spheroids, and are the particle's own for maps. |
| Scattering.UnrotatedShapesShareQMap | src/propagator.py:159-175 | After one sphere or spheroid in an exposure, the next sphere or spheroid is served from the cache whatever its orientation. |
| Scattering.RotatedMapsRecompute | src/propagator.py:195-196 | A map particle whose orientation differs from the previous map particle's forces a recomputation. |
| Scattering.RadialQ | src/propagator.py:161 | Per pixel, q is sqrt(q_y^2 + q_z^2) of that pixel's scattering vector. |
| Scattering.SpheroidQx | src/propagator.py:176 | Per pixel, qx is the third component of the scattering vector. |
| Scattering.SpheroidQy | src/propagator.py:177 | Per pixel, qy is the second component of the scattering vector. |
| Scattering.ScaledRoundTrip | src/propagator.py:209 | Rescaling by dx/(2 pi) is undone by 2 pi/dx for any non-zero dx. |
| Scattering.Clamp | src/propagator.py:213-215 | The clamped component is always in [-0.5, 0.5]. It is unchanged exactly when it was in range, and zero otherwise. |
| Scattering.ClampVec | src/propagator.py:213-215 | A clamped vector is valid, and equals the input exactly when the input was valid. |
| Scattering.NfftCoordinates | src/propagator.py:209-215 | The NFFT input has one coordinate per pixel: the clamped, rescaled scattering vector. |
| Scattering.NfftCoordinatesInRange | src/propagator.py:213-215 | Every NFFT coordinate is in range, and a pixel keeps its rescaled vector exactly when that vector was in range. |
| Scattering.InvalidPixels | src/propagator.py:213 | A pixel is flagged exactly when a component of its rescaled vector exceeds 0.5 in magnitude. |
| Scattering.MaskPatternAsWritten | src/propagator.py:226-227 | As written, one invalid pixel turns every pixel NaN. With no invalid pixel every value is kept. |
| Scattering.MaskPattern | src/propagator.py:226-227 | Corrected masking: a pixel is NaN exactly when it is invalid, and every other pixel keeps its NFFT value. |
| Scattering.MaskingAgreement | src/propagator.py:226-227 | The two maskings agree exactly when no pixel, or every pixel, is invalid. |
| Scattering.MaskingCounterexample | src/propagator.py:226-227 | With pixels [invalid, valid], the code as written loses the valid pixel's value and the corrected masking keeps it. |
| Scattering.MapAmplitude | src/propagator.py:231 | Every pixel of F is the masked NFFT value times F0 dx^3. |
| Scattering.MaskedAmplitude | src/propagator.py:224-231 | With the corrected masking of the Findings row, after masking and scaling a pixel is NaN exactly when its rescaled vector was out of range. Otherwise it is F0 dx^3 times its NFFT value. |
| Scattering.MapBranch | src/propagator.py:198-231 | Corrected map branch (see Findings): it succeeds exactly when the NFFT returns one value per pixel. It records the density map it used, and its NaN pixels are exactly the out-of-range ones. |
| Scattering.MapBranchAsWritten | src/propagator.py:198-231 | The map branch as written succeeds exactly when the NFFT returns one value per pixel and records the density map it used. If any pixel's rescaled vector is out of range, every pixel is NaN. If none is, each pixel is F0 dx^3 times its NFFT value. |
| Scattering.MapBranchAgreement | src/propagator.py:224-231 | The map branch as written and the corrected one succeed alike. They give the same result exactly when no pixel, or every pixel, is out of range. |
| Scattering.MapBranchPixels | src/propagator.py:224-231 | A successful corrected map branch holds F0 dx^3 times the NFFT value at every in-range pixel. |
| Scattering.DnOf | src/propagator.py:157 | The particle's dn is its material's get_dn at the exposure wavelength, failing exactly when that does. |
| Scattering.ScatterParticle | src/propagator.py:139-299 | An unknown class is fatal, and a molecule always succeeds. Spheres and spheroids succeed exactly when dn is defined, and a map only if it is. Every result carries the beam intensity at the particle and its F0. The qmap comes from the cache request of RequestKey (molecules bring their own and leave the cache alone). Sphere, spheroid and map amplitudes are their kernels applied to K, the q components and the shape parameters; the map amplitude is the corrected map branch's. |
| Scattering.Shifted | src/propagator.py:310 | Every pixel is multiplied by the phase exp(-i v·q) of the particle position v and that pixel's scattering vector. |
| Scattering.AddFields | src/propagator.py:310 | Pixelwise sum of two fields. |
| Scattering.ZeroField | src/propagator.py:306 | numpy.zeros_like: every pixel is zero. |
| Scattering.SuperposeNaN | src/propagator.py:306-310 | A pixel of the total is NaN exactly when that pixel of some particle's amplitude is. |
| Scattering.SuperposeAppend | src/propagator.py:306-310 | Superposing two groups of particles in sequence gives the sum of the two groups' superpositions. |
| Scattering.SuperposeOrderIndependent | src/propagator.py:306-310 | Swapping two groups of particles does not change the total amplitude. |
| Scattering.SuperposeSingle | src/propagator.py:306-310 | A single particle contributes its amplitude times its phase. |
| Scattering.Superimpose | src/propagator.py:306-310 | With no particles, F is unbound (error). Otherwise the loop succeeds exactly when every amplitude matches the last particle's scattering-vector map, and it returns the superposition. |
| Propagator.Zeros | src/propagator.py:99 | numpy.zeros(shape): as many cells as the product of the shape, all zero. |
| Propagator.BinaryMask | src/propagator.py:315 | A pixel is flagged usable exactly when its mask value is zero. |
| Propagator.BinaryMaskAgreesWithMask | src/propagator.py:315-326 | mask_binary is true at a pixel exactly when mask is zero there. |
| Propagator.ScatterAll | src/propagator.py:139-304 | The particle loop yields one result per particle. |
| Propagator.ScatterAllOutput | src/propagator.py:139-304 | Particle i's result is its dispatch with the cache that particles 0..i-1 left behind. |
| Propagator.ScatterAllRejectsUnknown | src/propagator.py:297-299 | A successful particle loop contains no particle of an unknown class. |
| Propagator.ScatterAllIntensities | src/propagator.py:142-148 | Every particle gets the beam intensity at its position and its F0. |
| Propagator.ScatterParticleTransparent | src/propagator.py:336-350 | From any two coherent cache slots, a particle's dispatch succeeds alike and yields the same result, and the slot stays coherent. |
| Propagator.ScatterAllTransparent | src/propagator.py:336-350 | From any two coherent slots, the particle loop of an exposure gives the same particles. |
| Propagator.Superposition | src/propagator.py:304-310 | No particles is an error. Otherwise superposition succeeds exactly when every amplitude matches the last particle's qmap, and yields the superposed field. |
| Propagator.SuperimposeAgrees | src/propagator.py:306-310 | The superposition loop computes the superposition step. |
| Propagator.IntensityField | src/propagator.py:311 | The detector receives \|F_tot\|^2 pixel by pixel. |
| Propagator.TopLevel | src/propagator.py:311-334 | An exposure reports fourier_pattern, intensity_pattern, mask and mask_binary. It reports the four downsampled entries exactly when the detector downsamples. fourier_pattern_xxx, mask_xxx and mask_xxx_binary come from the downsampled field and mask, and intensity_pattern_xxx is the downsampled intensity that detect_photons returns. |
| Propagator.ParticleRecord | src/propagator.py:143-302 | A particle record keeps every drawn key and gains exactly the keys the exposure writes. Those are intensity and F0 always, and dn, dx and dx^3 when save_map is set and the particle is a map. The molecule's atom positions (shape [atoms, 3]) and int32 atomic numbers (shape [atoms, 1]) are written when its atomic_position is None, and qmap when save_qmap is set. Every key not written keeps the drawn value. |
| Propagator.ParticleRecordEntries | src/propagator.py:143-302 | Each optional entry (qmap, dn, dx, dx3, atomic_position, atomic_number) is in the record exactly when the exposure wrote it or the sample had drawn it. |
| Propagator.Expose | src/propagator.py:304-334 | An exposure fails with no particles or with a mismatched amplitude. Otherwise its fourier_pattern is the superposition on the last particle's scattering vectors, its particle records are the updated records, and its source, sample and detector dictionaries are the drawn ones. |
| Propagator.PropagateSingle | src/propagator.py:118-334 | One exposure succeeds exactly when the particle loop and the exposure step do. It yields the exposure and the cache the particle loop left. |
| Propagator.UnknownShapeEndsExposure | src/propagator.py:297-299 | An exposure containing a particle of an unknown class fails. |
| Propagator.PropagateSingleTransparent | src/propagator.py:336-350 | An exposure's output does not depend on which coherent slot it starts from. |
| Propagator.Simulate | src/propagator.py:59-62 | A successful run of the exposure loop yields one exposure per draw. |
| Propagator.SimulateExposures | src/propagator.py:59-62 | Exposure i is _propagate_single of draw i with the cache that the earlier exposures left. |
| Propagator.SimulateTransparent | src/propagator.py:51-62 | The cache is transparent for the whole run: starting from any coherent slot gives the same exposures as starting from the empty one. |
| Propagator.Run | src/propagator.py:53-116 | propagate fails with the first failing exposure's error. Otherwise it is the aggregate of the simulated exposures, and fails only if that aggregation does. |
| Propagator.UnknownShapeEndsRun | src/propagator.py:297-299 | A particle of an unknown class in any exposure ends the run. |
| Propagator.ExposureHasFourierPattern | src/propagator.py:323 | Every successful exposure reports a fourier_pattern. |
| Propagator.SimulateFourierPatterns | src/propagator.py:323 | Every exposure of a successful simulation reports a fourier_pattern. |
| Propagator.RunFourierPatterns | src/propagator.py:67-70 | In a successful run, entry i of the aggregated fourier_pattern channel is exposure i's fourier_pattern. |
| Propagator.RunAggregates | src/propagator.py:53-116 | A successful run is the aggregate of its simulated exposures, one per draw. |
| Propagator.Propagate | src/propagator.py:53-116 | The exposure loop, with the cache carried along, followed by the aggregation computes the reference run. |
| Aggregation.KeysUpToSpec | src/propagator.py:67-91 | A name has a channel after i exposures exactly when one of the first i exposures reported it. |
| Aggregation.ChannelAdvance | src/propagator.py:67-91 | Exposure i's step writes entry i of a channel and nothing else. |
| Aggregation.AbsorbStep | src/propagator.py:67-91 | One pass of the collecting loop (a new name gets N Nones, slot i gets exposure i's value) turns the channels after i exposures into the channels after i+1. |
| Aggregation.ChannelOf | src/propagator.py:67-91 | A channel has one entry per exposure: exposure i's value, or None where exposure i did not report the name. |
| Aggregation.CarriedByAll | src/propagator.py:81-85 | When every particle record carries a name, slot j of the row is record j's value. |
| Aggregation.CarriedByNone | src/propagator.py:81-85 | A name that no record carries gives an empty row. |
| Aggregation.RecordKeysSpec | src/propagator.py:81-85 | A per-particle channel exists for exactly the names that some record carries. |
| Aggregation.AbsorbParticlesStep | src/propagator.py:81-85 | One pass of the particle loop turns the rows after i exposures into the rows after i+1. |
| Aggregation.MaxCount | src/propagator.py:86 | N_particles_max bounds every exposure's particle count and is attained by one of them (0 with no exposures). |
| Aggregation.RowsFitWidth | src/propagator.py:86-94 | No row of a particle channel is longer than N_particles_max. |
| Aggregation.PadRow | src/propagator.py:100-110 | A padded row has N_particles_max slots, and the slots past the values are zero. Values with at most three axes are copied, and values with four or more leave the row at zero. An empty row (an exposure without values for the name, assigned as `numpy.array([])`) succeeds exactly when the item shape is () or ends in a zero-length axis. A refused row is such an empty row or has some value whose shape differs from the item shape. A row whose values all have the item shape, and which is non-empty or fits, is never refused. |
| Aggregation.PadChannel | src/propagator.py:93-111 | The dense array has N rows of N_particles_max slots, and its item shape is that of exposure 0's first value. |
| Aggregation.PadChannelSlots | src/propagator.py:93-111 | Slot (i, j) holds exposure i's j-th value for the name, or zero past the values. |
| Aggregation.AggregateChannels | src/propagator.py:67-91 | Each top, source and detector channel exists exactly for the names some exposure reported, and equals the reference channel. |
| Aggregation.AggregateTopEntry | src/propagator.py:67-70 | A non-reserved top-level value of exposure i is entry i of its aggregated channel. |
| Aggregation.AggregateSampleChannels | src/propagator.py:77-111 | A sample entry exists exactly for the names that a particle record or the sample dictionary reported. Particle names become padded arrays (replacing a same-named sample entry), and the rest are per-exposure channels. |
| Aggregation.AggregateParticleChannel | src/propagator.py:93-111 | A particle channel has shape [N, N_particles_max] + item shape. Slot (i, j) holds the j-th value carried by exposure i's records, and every slot past them is zero. |
| Aggregation.AggregateRefusal | src/propagator.py:93-111 | When every particle value has its channel's item shape, and every exposure without values for a name is in a channel whose item shape takes an empty row, the aggregation succeeds. |
| Aggregation.EmptyRowRefused | src/propagator.py:93-111 | An exposure without values for a name whose item shape has a last axis of nonzero length ends the aggregation with an error. |
| Aggregation.Collect | src/propagator.py:59-91 | The collecting loop yields exactly the reference channels, particle rows and N_particles_max. |
| Aggregation.Propagate | src/propagator.py:53-116 | The collecting loop followed by the padding computes the reference aggregate. |

## Left out

- The particle models' internals are not part of this model and appear as function values:
  - the sphere and spheroid diffraction kernels;
  - the spheroid shape conversions;
  - `get_map3d`;
  - the NFFT;
  - `generate_qmap`;
  - the source's beam profile;
  - the detector's resolution elements, `detect_photons` and `downsample`.
- Scattering.ScatterParticle: the molecule branch is one opaque function that yields the amplitude and the scattering vectors. The spsim configuration, the temporary files and the PDB writing (lines 233-295) are not modelled.
- Scattering.MapBranch: the exposure pipeline uses the corrected per-pixel masking of the Findings row. The code as written turns every pixel NaN once any pixel is out of range; that behaviour is Scattering.MapBranchAsWritten, and Scattering.MapBranchAgreement says when the two differ.
- Scattering.MaskedAmplitude: states the corrected masking. As written, one out-of-range pixel makes every pixel NaN (Scattering.MaskPatternAsWritten, Scattering.MapBranchAsWritten).
- Scattering.MapBranchPixels: states the corrected masking. As written, the in-range pixels are NaN too as soon as one pixel is out of range (Scattering.MapBranchAsWritten).
- Scattering.ScatterParticle: a map particle's amplitude uses the corrected masking, so it differs from the code as written whenever some but not all pixels are out of range.
- Aggregation.PadRow: numpy broadcasting of non-empty values in the slice assignments (lines 103-110) is not modelled. A value whose shape differs from the item shape is refused, even where numpy would broadcast it into the slot. The one broadcast that is modelled is the empty row of `numpy.array([])` (Aggregation.EmptyRowFits).
- Propagator.ParticleRecord: the scattering-vector map it stores (Propagator.VectorsValue) has shape [pixels, 3], not the source's (ny, nx, 3).
- Propagator.AtomsWrittenBack: the molecule branch reads `pdb_filename` and `atomic_position` from the record, and a record without them raises KeyError in the source. The model treats a missing `atomic_position` as not None and writes nothing. Building the spsim molecule from given atoms (lines 236-246) is inside the opaque molecule function.
- Logging, the progress `print`, and the finiteness warnings on the map input (lines 216-222) have no effect on results and are left out.
- Propagator.DensityValue: the density map is kept as a flat sequence of complex values. Its three-axis shape is not modelled.
- Propagator.Zeros: the dtype of `numpy.zeros` (taken from the first value) is not modelled. Every cell is the real zero.
- The downsampled mask `MXxX_tot` returned by `detect_photons` is not modelled. When the detector downsamples, it is overwritten by the mask that `downsample` returns; when it does not, it is never stored.
- The final `numpy.array` conversion of the channel lists (lines 112-115) is not modelled. A channel stays a list of optional values, one per exposure.
- `propagate` interleaves simulating and collecting. The model simulates every exposure first and then aggregates. The only state shared between the two phases is the qmap cache, which the aggregation does not touch, so the outcome is the same. A failing exposure ends both forms before any result is returned.
- A wavelength of zero is excluded by a precondition on every exposure (`ValidDraw`). In the source, numpy makes F0 infinite there, and `get_dn` raises ZeroDivisionError for spheres, spheroids and maps. Infinities are not modelled. Material.GetF still models that ZeroDivisionError as `ZeroWavelength`.
- Material.NewMaterial: when the validation rejects the arguments, the source logs an error and returns an object with no attributes. The model reports this as the `NoValidArguments` error instead.
- `get_photoabsorption_cross_section` and `get_transmission` of `Material` are not used by the propagator and are not modelled.
- The `exec`-based attribute access in `get_atomic_composition_dict` and `get_qmap` is modelled as a map lookup.
- The commented-out code paths (the map3d cache, the temporary PDB file) are not modelled.
- Floating-point rounding is not modelled; reals are exact. `numpy.sqrt(2)` is the constant `Sqrt2`.

## Findings

| source | as written | input that shows it | evidently intended | confidence | as-written member | corrected member |
|---|---|---|---|---|---|---|
| src/particle/material.py:46-47 | The loop variable is `k`, but the `exec` string names `key`, which is undefined at that point, so it raises NameError. The mass density is also never stored. | `Material(massdensity=1000, cH=2)` with H a known element | Store each keyword amount under its own name, and store the mass density | high (not executed) | Material.NewMaterialAsWritten (shown by Material.AsWrittenHydrogenExample and Material.AsWrittenRejectsValidCompositions) | Material.NewMaterial (with Material.NewMaterialCompositionRoundTrip) |
| src/particle/material.py:48 | `elif "material_type" is not None` tests a string literal, so the branch is always taken. A call with neither argument fails on the table lookup, and the "No valid arguments" branch is unreachable. | `Material()` | `elif material_type is not None` | high (not executed) | Material.NewMaterialAsWritten (shown by Material.AsWrittenMissingArguments) | Material.NewMaterial |
| src/propagator.py:226-227 | `fourier_pattern[numpy.any(invalid_mask)] = numpy.nan` indexes with a single boolean, so one out-of-range pixel sets the whole pattern to NaN. | two pixels, only the first out of range | Set only the pixels whose scattering vector had an out-of-range component to NaN | medium (not executed) | Scattering.MaskPatternAsWritten and Scattering.MapBranchAsWritten (shown by Scattering.MaskingCounterexample) | Scattering.MaskPattern and Scattering.MapBranch (with Scattering.MaskingAgreement and Scattering.MapBranchAgreement) |
