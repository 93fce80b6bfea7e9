/** The material collaborator: a composition of chemical elements with a mass
    density, from which the atom density, the electron density and the complex
    refractive index n = 1 - r0/(2 pi) lambda^2 sum_q rho_q f_q(0) of Henke et al.
    are derived. Physical constants and per-element tables are opaque. */
module Material {
  import opened Wrappers
  import opened Numbers

  /** The scipy constants the material code reads: classical electron radius,
      atomic mass constant, Planck constant, speed of light, elementary charge. */
  datatype Constants = Constants(r0: real, u: real, h: real, c: real, e: real) {
    predicate Valid() {
      r0 > 0.0 && u > 0.0 && h > 0.0 && c > 0.0 && e > 0.0
    }
  }

  /** The program's static tables. `symbols` lists the keys of the atomic-number
      table (the known elements); `scatteringFactor(e, E)` is the tabulated
      forward-scattering factor f1 + i f2 of element e at photon energy E (eV). */
  datatype ElementTables = ElementTables(
    symbols: seq<string>,
    atomicNumber: map<string, nat>,
    atomicMass: map<string, real>,
    scatteringFactor: (string, real) -> Complex,
    massDensity: map<string, real>,
    composition: map<string, map<string, real>>)
  {
    /** The tables are a dictionary (distinct keys) and every known element has
        a positive atomic mass. */
    ghost predicate Valid() {
      && (forall i, j :: 0 <= i < j < |symbols| ==> symbols[i] != symbols[j])
      && (forall s :: s in atomicNumber ==> s in symbols)
      && (forall i :: 0 <= i < |symbols| ==> symbols[i] in atomicNumber)
      && (forall s :: s in atomicNumber ==> s in atomicMass && atomicMass[s] > 0.0)
    }

    predicate Known(e: string) {
      e in atomicNumber
    }

    function Mass(e: string): real {
      if e in atomicMass then atomicMass[e] else 0.0
    }

    function Charge(e: string): real {
      if e in atomicNumber then atomicNumber[e] as real else 0.0
    }
  }

  datatype MaterialError =
    | NoValidArguments      // the logged "No valid arguments" error and early return
    | UnknownMaterialType   // KeyError on the material-type tables
    | UndefinedName         // NameError
    | ZeroTotalAmount       // ZeroDivisionError while normalising the composition
    | ZeroMolarMass         // ZeroDivisionError in the density computations
    | ZeroWavelength        // ZeroDivisionError computing the photon energy

  /** A constructed material: its mass density and its instance attributes, of
      which those named c<Element> carry the relative amounts. */
  datatype Material = Material(massdensity: real, attributes: map<string, real>)

  // ---------------------------------------------------------------------------
  // Composition

  /** The filter of get_atomic_composition_dict: 'c' followed by a known symbol. */
  predicate IsCompositionAttribute(t: ElementTables, key: string) {
    |key| > 0 && key[0] == 'c' && t.Known(key[1..])
  }

  /** The composition before normalisation, keyed by element symbol. */
  function RawComposition(m: Material, t: ElementTables): (c: map<string, real>)
    ensures c.Keys <= t.atomicNumber.Keys
  {
    map e | e in t.atomicNumber && "c" + e in m.attributes :: m.attributes["c" + e]
  }

  lemma PrefixC(e: string)
    ensures ("c" + e)[0] == 'c' && ("c" + e)[1..] == e
  {
    assert ("c" + e)[1..] == e;
  }

  lemma AllPrefixC(c: map<string, real>)
    ensures forall e :: e in c ==> ("c" + e)[0] == 'c' && ("c" + e)[1..] == e
  {
    forall e | e in c ensures ("c" + e)[0] == 'c' && ("c" + e)[1..] == e {
      PrefixC(e);
    }
  }

  lemma SplitC(key: string)
    requires |key| > 0 && key[0] == 'c'
    ensures key == "c" + key[1..]
  {
    assert key == [key[0]] + key[1..];
  }

  /** The raw composition holds exactly the attributes the source's filter
      selects, keyed by the name without its leading 'c'. */
  lemma RawCompositionSelectsAttributes(m: Material, t: ElementTables)
    ensures forall key :: key in m.attributes && IsCompositionAttribute(t, key) ==>
      key[1..] in RawComposition(m, t) && RawComposition(m, t)[key[1..]] == m.attributes[key]
    ensures forall e :: e in RawComposition(m, t) ==>
      "c" + e in m.attributes && IsCompositionAttribute(t, "c" + e)
  {
    var c := RawComposition(m, t);
    forall key | key in m.attributes && IsCompositionAttribute(t, key)
      ensures key[1..] in c && c[key[1..]] == m.attributes[key]
    {
      SplitC(key);
    }
    forall e | e in c
      ensures "c" + e in m.attributes && IsCompositionAttribute(t, "c" + e)
    {
      PrefixC(e);
    }
  }

  function One(e: string): real {
    1.0
  }

  function Term(e: string, c: map<string, real>, w: string -> real): real {
    if e in c then c[e] * w(e) else 0.0
  }

  /** sum over the listed elements present in c of c[e] * w(e). */
  function WeightedSum(es: seq<string>, c: map<string, real>, w: string -> real): real
  {
    if es == [] then 0.0 else Term(es[0], c, w) + WeightedSum(es[1..], c, w)
  }

  /** float(sum(atomic_composition.values())) */
  function TotalAmount(t: ElementTables, c: map<string, real>): real {
    WeightedSum(t.symbols, c, One)
  }

  function ScaleComposition(c: map<string, real>, k: real): (r: map<string, real>)
    ensures r.Keys == c.Keys
    ensures forall e {:trigger r[e]} :: e in r ==> r[e] == k * c[e]
  {
    map e | e in c :: k * c[e]
  }

  /** Element-wise sum of two compositions; an element missing from one counts as 0. */
  function Combine(a: map<string, real>, b: map<string, real>): (r: map<string, real>)
    ensures r.Keys == a.Keys + b.Keys
  {
    map e | e in a.Keys + b.Keys ::
      (if e in a then a[e] else 0.0) + (if e in b then b[e] else 0.0)
  }

  lemma {:induction false} WeightedSumScale(es: seq<string>, c: map<string, real>, w: string -> real, k: real)
    ensures WeightedSum(es, ScaleComposition(c, k), w) == k * WeightedSum(es, c, w)
  {
    WeightedSumScaled(es, c, w, k);
  }

  lemma {:induction false} WeightedSumScaled(es: seq<string>, c: map<string, real>, w: string -> real, k: real)
    ensures Multiple(WeightedSum(es, ScaleComposition(c, k), w), k, WeightedSum(es, c, w))
    decreases |es|
  {
    if es != [] {
      WeightedSumScaled(es[1..], c, w, k);
      TermScale(es[0], c, w, k);
      ScaledSum(k, Term(es[0], c, w), WeightedSum(es[1..], c, w), WeightedSum(es, c, w),
        Term(es[0], ScaleComposition(c, k), w), WeightedSum(es[1..], ScaleComposition(c, k), w),
        WeightedSum(es, ScaleComposition(c, k), w));
    }
  }

  lemma TermScale(e: string, c: map<string, real>, w: string -> real, k: real)
    ensures Multiple(Term(e, ScaleComposition(c, k), w), k, Term(e, c, w))
  {
    if e in c {
      var s := ScaleComposition(c, k);
      assert s[e] == k * c[e];
      MulAssociates(k, c[e], w(e));
    }
  }

  lemma {:induction false} WeightedSumCombine(es: seq<string>, a: map<string, real>, b: map<string, real>, w: string -> real)
    ensures WeightedSum(es, Combine(a, b), w) == WeightedSum(es, a, w) + WeightedSum(es, b, w)
    decreases |es|
  {
    if es != [] {
      WeightedSumCombine(es[1..], a, b, w);
    }
  }

  lemma {:induction false} WeightedSumNonNegative(es: seq<string>, c: map<string, real>, w: string -> real)
    requires forall e :: e in c ==> c[e] >= 0.0 && w(e) >= 0.0
    ensures WeightedSum(es, c, w) >= 0.0
    decreases |es|
  {
    if es != [] {
      WeightedSumNonNegative(es[1..], c, w);
    }
  }

  /** With non-negative amounts, a positive total amount and positive weights
      the weighted sum is positive. */
  lemma {:induction false} WeightedSumPositive(es: seq<string>, c: map<string, real>, w: string -> real)
    requires forall e :: e in c ==> c[e] >= 0.0 && w(e) > 0.0
    requires WeightedSum(es, c, One) > 0.0
    ensures WeightedSum(es, c, w) > 0.0
    decreases |es|
  {
    var e := es[0];
    WeightedSumNonNegative(es[1..], c, w);
    if WeightedSum(es[1..], c, One) > 0.0 {
      WeightedSumPositive(es[1..], c, w);
    } else {
      WeightedSumNonNegative(es[1..], c, One);
      assert Term(e, c, One) > 0.0;
    }
  }

  /** Over a duplicate-free list, a composition holding one listed element e
      sums to c[e] * w(e). */
  lemma {:induction false} WeightedSumSingle(es: seq<string>, e: string, x: real, w: string -> real)
    requires forall i, j :: 0 <= i < j < |es| ==> es[i] != es[j]
    ensures WeightedSum(es, map[e := x], w) == if e in es then x * w(e) else 0.0
    decreases |es|
  {
    if es != [] {
      WeightedSumSingle(es[1..], e, x, w);
      if es[0] == e {
        assert e !in es[1..] by {
          forall j | 0 <= j < |es[1..]| ensures es[1..][j] != e {
            assert es[1..][j] == es[j + 1];
          }
        }
      } else {
        assert e in es[1..] <==> e in es by {
          assert es == [es[0]] + es[1..];
        }
      }
    }
  }

  lemma ScaleBack(c: map<string, real>, total: real)
    requires total != 0.0
    ensures forall e :: e in c ==> ScaleComposition(c, 1.0 / total)[e] * total == c[e]
  {
    forall e | e in c ensures ScaleComposition(c, 1.0 / total)[e] * total == c[e] {
      DivideBack(c[e], total);
    }
  }

  /** Division of every amount by the total amount. An empty composition stays
      empty; a non-empty one whose total is 0 raises ZeroDivisionError. */
  function Normalize(t: ElementTables, c: map<string, real>): (r: Result<map<string, real>, MaterialError>)
    ensures c == map[] ==> r == Success(map[])
    ensures c != map[] ==> (r.Failure? <==> TotalAmount(t, c) == 0.0)
    ensures r.Failure? ==> r.error == ZeroTotalAmount
    ensures r.Success? ==> r.value.Keys == c.Keys
    ensures r.Success? ==> forall e :: e in c ==> r.value[e] * TotalAmount(t, c) == c[e]
  {
    if c == map[] then Success(map[])
    else
      var total := TotalAmount(t, c);
      if total == 0.0 then Failure(ZeroTotalAmount)
      else
        ScaleBack(c, total);
        Success(ScaleComposition(c, 1.0 / total))
  }

  /** The normalised fractions sum to 1 and keep every pairwise ratio of the
      raw amounts. */
  lemma NormalizedFractions(t: ElementTables, c: map<string, real>)
    requires c != map[] && TotalAmount(t, c) != 0.0
    ensures Normalize(t, c).Success?
    ensures TotalAmount(t, Normalize(t, c).value) == 1.0
    ensures forall a, b :: a in c && b in c ==>
      Normalize(t, c).value[a] * c[b] == Normalize(t, c).value[b] * c[a]
  {
    NormalizedSumsToOne(t, c);
    ScaledRatios(c, 1.0 / TotalAmount(t, c));
  }

  lemma NormalizedSumsToOne(t: ElementTables, c: map<string, real>)
    requires c != map[] && TotalAmount(t, c) != 0.0
    ensures Normalize(t, c) == Success(ScaleComposition(c, 1.0 / TotalAmount(t, c)))
    ensures TotalAmount(t, Normalize(t, c).value) == 1.0
  {
    var total := TotalAmount(t, c);
    var n := ScaleComposition(c, 1.0 / total);
    assert Normalize(t, c) == Success(n);
    WeightedSumScale(t.symbols, c, One, 1.0 / total);
    UnitReciprocal(total, TotalAmount(t, n));
  }

  /** Scaling keeps every pairwise ratio. */
  lemma ScaledRatios(c: map<string, real>, j: real)
    ensures forall a, b :: a in c && b in c ==>
      ScaleComposition(c, j)[a] * c[b] == ScaleComposition(c, j)[b] * c[a]
  {
    var n := ScaleComposition(c, j);
    forall a, b | a in c && b in c ensures n[a] * c[b] == n[b] * c[a] {
      CrossRatio(j, c[a], c[b], n[a], n[b]);
    }
  }

  /** Multiplying every raw amount by the same non-zero factor does not change
      the normalised composition. */
  lemma NormalizeScaleInvariant(t: ElementTables, c: map<string, real>, k: real)
    requires k != 0.0
    ensures Normalize(t, ScaleComposition(c, k)) == Normalize(t, c)
  {
    var s := ScaleComposition(c, k);
    WeightedSumScale(t.symbols, c, One, k);
    if c != map[] && TotalAmount(t, c) != 0.0 {
      var total := TotalAmount(t, c);
      assert TotalAmount(t, s) == k * total;
      assert s != map[] by {
        var e :| e in c;
        assert e in s;
      }
      var j := 1.0 / (k * total);
      assert Normalize(t, s) == Success(ScaleComposition(s, j));
      ScaleTwice(c, k, j);
      InverseOfProduct(k, total);
      assert j * k == 1.0 / total;
      assert ScaleComposition(c, j * k) == ScaleComposition(c, 1.0 / total);
    }
  }

  lemma InverseOfProduct(k: real, total: real)
    requires k != 0.0 && total != 0.0
    ensures 1.0 / (k * total) * k == 1.0 / total
  {
    var j := 1.0 / (k * total);
    assert j * (k * total) == 1.0;
    assert (j * k) * total == 1.0;
  }

  lemma ScaleAt(c: map<string, real>, k: real, e: string)
    requires e in c
    ensures e in ScaleComposition(c, k) && ScaleComposition(c, k)[e] == k * c[e]
  {
  }

  lemma ScaleTwice(c: map<string, real>, k: real, j: real)
    ensures ScaleComposition(ScaleComposition(c, k), j) == ScaleComposition(c, j * k)
  {
    var jk := j * k;
    var a := ScaleComposition(ScaleComposition(c, k), j);
    var b := ScaleComposition(c, jk);
    forall e | e in a ensures a[e] == b[e] {
      ScaleTwiceAt(c, k, j, jk, e);
    }
  }

  lemma ScaleTwiceAt(c: map<string, real>, k: real, j: real, jk: real, e: string)
    requires jk == j * k && e in c
    ensures ScaleComposition(ScaleComposition(c, k), j)[e] == ScaleComposition(c, jk)[e]
  {
    var x := ScaleComposition(c, k);
    ScaleAt(c, k, e);
    ScaleAt(x, j, e);
    ScaleAt(c, jk, e);
    ProductChain(j, k, jk, c[e], x[e], ScaleComposition(x, j)[e], ScaleComposition(c, jk)[e]);
  }

  /** get_atomic_composition_dict */
  function Composition(m: Material, t: ElementTables): (r: Result<map<string, real>, MaterialError>)
    ensures r.Success? ==> r.value.Keys == RawComposition(m, t).Keys
  {
    Normalize(t, RawComposition(m, t))
  }

  /** Every attribute multiplied by k. */
  function ScaleMaterial(m: Material, k: real): Material {
    Material(m.massdensity, map key | key in m.attributes :: k * m.attributes[key])
  }

  /** Only relative amounts matter: scaling every amount leaves the composition
      dictionary, hence every quantity derived from it, unchanged. */
  lemma CompositionScaleInvariant(m: Material, t: ElementTables, k: real)
    requires k != 0.0
    ensures Composition(ScaleMaterial(m, k), t) == Composition(m, t)
  {
    var m' := ScaleMaterial(m, k);
    var raw := RawComposition(m, t);
    var scaled := ScaleComposition(raw, k);
    assert RawComposition(m', t).Keys == scaled.Keys;
    forall e | e in scaled ensures RawComposition(m', t)[e] == scaled[e] {
    }
    assert RawComposition(m', t) == scaled;
    NormalizeScaleInvariant(t, RawComposition(m, t), k);
  }

  // ---------------------------------------------------------------------------
  // Scattering factor and densities

  /** The real and imaginary parts of the tabulated factors at one energy. */
  function FactorRe(t: ElementTables, energy: real): string -> real {
    (e: string) => t.scatteringFactor(e, energy).re
  }

  function FactorIm(t: ElementTables, energy: real): string -> real {
    (e: string) => t.scatteringFactor(e, energy).im
  }

  /** The composition-weighted forward-scattering factor sum_e c_e f_e(E). */
  function FactorSum(t: ElementTables, c: map<string, real>, energy: real): Complex {
    Complex(WeightedSum(t.symbols, c, FactorRe(t, energy)), WeightedSum(t.symbols, c, FactorIm(t, energy)))
  }

  /** The factor sum is additive in the fractions ... */
  lemma FactorSumAdditive(t: ElementTables, a: map<string, real>, b: map<string, real>, energy: real)
    ensures FactorSum(t, Combine(a, b), energy) == FactorSum(t, a, energy).Plus(FactorSum(t, b, energy))
  {
    WeightedSumCombine(t.symbols, a, b, FactorRe(t, energy));
    WeightedSumCombine(t.symbols, a, b, FactorIm(t, energy));
  }

  /** ... and homogeneous: it is linear in the fractions. */
  lemma FactorSumHomogeneous(t: ElementTables, a: map<string, real>, k: real, energy: real)
    ensures FactorSum(t, ScaleComposition(a, k), energy) == FactorSum(t, a, energy).Scale(k)
  {
    var re := FactorRe(t, energy);
    var im := FactorIm(t, energy);
    var s := ScaleComposition(a, k);
    var sr, si := WeightedSum(t.symbols, s, re), WeightedSum(t.symbols, s, im);
    var ar, ai := WeightedSum(t.symbols, a, re), WeightedSum(t.symbols, a, im);
    WeightedSumScale(t.symbols, a, re, k);
    WeightedSumScale(t.symbols, a, im, k);
    assert FactorSum(t, s, energy) == Complex(sr, si);
    assert FactorSum(t, a, energy) == Complex(ar, ai);
    ScaledComplex(Complex(ar, ai), k, sr, si);
  }

  /** A material made of a single known element has that element's factor. */
  lemma FactorSumPureElement(t: ElementTables, e: string, energy: real)
    requires t.Valid() && t.Known(e)
    ensures FactorSum(t, map[e := 1.0], energy) == t.scatteringFactor(e, energy)
  {
    WeightedSumSingle(t.symbols, e, 1.0, FactorRe(t, energy));
    WeightedSumSingle(t.symbols, e, 1.0, FactorIm(t, energy));
  }

  /** h c / lambda / e */
  function PhotonEnergyEv(k: Constants, wavelength: real): real
    requires k.Valid() && wavelength != 0.0
  {
    k.h * k.c / wavelength / k.e
  }

  /** get_f: the average scattering factor at the given wavelength. */
  function GetF(m: Material, t: ElementTables, k: Constants, wavelength: real): (r: Result<Complex, MaterialError>)
    requires k.Valid()
    ensures r.Success? <==> Composition(m, t).Success? && wavelength != 0.0
    ensures r.Success? ==> r.value == FactorSum(t, Composition(m, t).value, PhotonEnergyEv(k, wavelength))
  {
    var c :- Composition(m, t);
    if wavelength == 0.0 then Failure(ZeroWavelength)
    else Success(FactorSum(t, c, PhotonEnergyEv(k, wavelength)))
  }

  function MolarMass(t: ElementTables, k: Constants, c: map<string, real>): real {
    WeightedSum(t.symbols, c, (e: string) => t.Mass(e) * k.u)
  }

  function MeanCharge(t: ElementTables, c: map<string, real>): real {
    WeightedSum(t.symbols, c, (e: string) => t.Charge(e))
  }

  /** get_atom_density: massdensity / sum_e c_e m_e u. */
  function AtomDensity(m: Material, t: ElementTables, k: Constants): (r: Result<real, MaterialError>)
    requires t.Valid()
    ensures r.Success? <==> Composition(m, t).Success? && MolarMass(t, k, Composition(m, t).value) != 0.0
    ensures r.Success? ==> r.value * MolarMass(t, k, Composition(m, t).value) == m.massdensity
  {
    var c :- Composition(m, t);
    var molar := MolarMass(t, k, c);
    if molar == 0.0 then Failure(ZeroMolarMass) else Success(m.massdensity / molar)
  }

  /** get_electron_density: Q massdensity / M with Q = sum_e c_e Z_e. */
  function ElectronDensity(m: Material, t: ElementTables, k: Constants): (r: Result<real, MaterialError>)
    requires t.Valid()
    ensures r.Success? <==> AtomDensity(m, t, k).Success?
    ensures r.Success? ==> r.value == AtomDensity(m, t, k).value * MeanCharge(t, Composition(m, t).value)
  {
    var c :- Composition(m, t);
    var molar := MolarMass(t, k, c);
    var charge := MeanCharge(t, c);
    if molar == 0.0 then Failure(ZeroMolarMass) else Success(charge * m.massdensity / molar)
  }

  /** A material with non-negative amounts of which some is positive has a
      well-defined positive atom density whenever its mass density is positive. */
  lemma AtomDensityDefined(m: Material, t: ElementTables, k: Constants)
    requires t.Valid() && k.Valid()
    requires forall e :: e in RawComposition(m, t) ==> RawComposition(m, t)[e] >= 0.0
    requires RawComposition(m, t) != map[] && TotalAmount(t, RawComposition(m, t)) > 0.0
    ensures AtomDensity(m, t, k).Success?
    ensures m.massdensity > 0.0 ==> AtomDensity(m, t, k).value > 0.0
  {
    var raw := RawComposition(m, t);
    NormalizedSumsToOne(t, raw);
    var c := Composition(m, t).value;
    forall e | e in c ensures c[e] >= 0.0 && t.Mass(e) * k.u > 0.0 {
      NonNegativeFactor(c[e], TotalAmount(t, raw));
      PositiveProduct(t.Mass(e), k.u);
    }
    WeightedSumPositive(t.symbols, c, (e: string) => t.Mass(e) * k.u);
  }

  /** r0/(2 pi) lambda^2 rho: the factor multiplying f in the Henke relation. */
  function HenkeFactor(k: Constants, wavelength: real, atomDensity: real): real {
    k.r0 / 2.0 / Pi * wavelength * wavelength * atomDensity
  }

  /** get_n: the complex refractive index. */
  function GetN(m: Material, t: ElementTables, k: Constants, wavelength: real): (r: Result<Complex, MaterialError>)
    requires t.Valid() && k.Valid()
    ensures r.Success? <==> GetF(m, t, k, wavelength).Success? && AtomDensity(m, t, k).Success?
    ensures r.Success? ==>
      var dn := GetF(m, t, k, wavelength).value.Scale(HenkeFactor(k, wavelength, AtomDensity(m, t, k).value));
      r.value.re + dn.re == 1.0 && r.value.im + dn.im == 0.0
  {
    var f :- GetF(m, t, k, wavelength);
    var rho :- AtomDensity(m, t, k);
    var dn := f.Scale(HenkeFactor(k, wavelength, rho));
    Success(Complex(1.0 - dn.re, 0.0 - dn.im))
  }

  /** get_dn: 1 - n, which by the Henke relation is r0/(2 pi) lambda^2 rho f. */
  function GetDn(m: Material, t: ElementTables, k: Constants, wavelength: real): (r: Result<Complex, MaterialError>)
    requires t.Valid() && k.Valid()
    ensures r.Success? <==> GetN(m, t, k, wavelength).Success?
    ensures r.Success? ==>
      r.value == GetF(m, t, k, wavelength).value.Scale(HenkeFactor(k, wavelength, AtomDensity(m, t, k).value))
  {
    var n :- GetN(m, t, k, wavelength);
    Success(Complex(1.0 - n.re, 0.0 - n.im))
  }

  /** get_delta: 1 - Re n. */
  function GetDelta(m: Material, t: ElementTables, k: Constants, wavelength: real): (r: Result<real, MaterialError>)
    requires t.Valid() && k.Valid()
    ensures r.Success? <==> GetN(m, t, k, wavelength).Success?
    ensures r.Success? ==> r.value == GetDn(m, t, k, wavelength).value.re
  {
    var n :- GetN(m, t, k, wavelength);
    Success(1.0 - n.re)
  }

  /** get_beta: -Im n. */
  function GetBeta(m: Material, t: ElementTables, k: Constants, wavelength: real): (r: Result<real, MaterialError>)
    requires t.Valid() && k.Valid()
    ensures r.Success? <==> GetN(m, t, k, wavelength).Success?
    ensures r.Success? ==> r.value == GetDn(m, t, k, wavelength).value.im
  {
    var n :- GetN(m, t, k, wavelength);
    Success(0.0 - n.im)
  }

  /** n = 1 - delta - i beta, the convention stated next to get_delta. */
  lemma IndexFromDeltaBeta(m: Material, t: ElementTables, k: Constants, wavelength: real)
    requires t.Valid() && k.Valid()
    requires GetN(m, t, k, wavelength).Success?
    ensures GetN(m, t, k, wavelength).value ==
      Complex(1.0 - GetDelta(m, t, k, wavelength).value, 0.0 - GetBeta(m, t, k, wavelength).value)
  {
  }

  lemma ScaleAssociates(f: Complex, a: real, s: real)
    ensures f.Scale(a * s) == f.Scale(s).Scale(a)
  {
    assert (a * s) * f.re == a * (s * f.re) && (a * s) * f.im == a * (s * f.im);
  }

  /** The index deficit is proportional to the mass density. */
  lemma DnProportionalToMassDensity(m: Material, t: ElementTables, k: Constants, wavelength: real, a: real)
    requires t.Valid() && k.Valid()
    requires GetDn(m, t, k, wavelength).Success?
    ensures GetDn(Material(a * m.massdensity, m.attributes), t, k, wavelength) ==
            Success(GetDn(m, t, k, wavelength).value.Scale(a))
  {
    var m' := Material(a * m.massdensity, m.attributes);
    assert RawComposition(m', t) == RawComposition(m, t);
    var rho := AtomDensity(m, t, k).value;
    var molar := MolarMass(t, k, Composition(m, t).value);
    assert AtomDensity(m', t, k).value == a * rho by {
      QuotientScale(a, m.massdensity, molar);
    }
    var f := GetF(m, t, k, wavelength).value;
    var s := HenkeFactor(k, wavelength, rho);
    assert HenkeFactor(k, wavelength, a * rho) == a * s by {
      MulSwap(k.r0 / 2.0 / Pi * wavelength * wavelength, a, rho);
    }
    ScaleAssociates(f, a, s);
  }

  // ---------------------------------------------------------------------------
  // Construction

  /** How Material is called: an explicit mass density with c<Element> keyword
      amounts, or the name of a tabulated material type. */
  datatype Arguments = Arguments(massdensity: Option<real>, materialType: Option<string>, composition: map<string, real>)

  /** cel_keys: "c" followed by each known element symbol. */
  function ElementKeys(t: ElementTables): set<string> {
    set e | e in t.atomicNumber :: "c" + e
  }

  lemma ElementKeysAreCompositionAttributes(t: ElementTables, key: string)
    ensures key in ElementKeys(t) <==> IsCompositionAttribute(t, key)
  {
    if key in ElementKeys(t) {
      var e :| e in t.atomicNumber && key == "c" + e;
      PrefixC(e);
    }
    if IsCompositionAttribute(t, key) {
      SplitC(key);
      assert key[1..] in t.atomicNumber;
    }
  }

  /** The validation of Material.__init__ (no valid key, or a count of valid
      keys below the number of keywords) rejects exactly the empty compositions
      and those with a key that is not a composition attribute. */
  lemma ValidElementCount(comp: map<string, real>, t: ElementTables)
    ensures var elements := set key | key in comp && key in ElementKeys(t);
      (|elements| == 0 || |elements| != |comp.Keys|) <==>
      (comp == map[] || exists key :: key in comp && !IsCompositionAttribute(t, key))
  {
    var elements := set key | key in comp && key in ElementKeys(t);
    forall key ensures key in ElementKeys(t) <==> IsCompositionAttribute(t, key) {
      ElementKeysAreCompositionAttributes(t, key);
    }
    if exists key :: key in comp && !IsCompositionAttribute(t, key) {
      var key :| key in comp && !IsCompositionAttribute(t, key);
      assert elements <= comp.Keys - {key};
      SubsetCardinality(elements, comp.Keys - {key});
    } else {
      assert elements == comp.Keys;
      if comp != map[] {
        var key :| key in comp;
        assert key in elements;
      }
    }
  }

  lemma SubsetCardinality<T>(a: set<T>, b: set<T>)
    requires a <= b
    ensures |a| <= |b|
  {
    if a != {} {
      var x :| x in a;
      SubsetCardinality(a - {x}, b - {x});
    }
  }

  /** c<Element> attributes from a tabulated composition keyed by symbol. */
  function AttributesOf(c: map<string, real>): (a: map<string, real>)
    ensures forall e :: e in c ==> "c" + e in a && a["c" + e] == c[e]
    ensures forall key :: key in a ==> |key| > 0 && key[0] == 'c' && key[1..] in c
  {
    AllPrefixC(c);
    map e | e in c :: "c" + e := c[e]
  }

  /** Material.__init__ with its two defects corrected: the keyword amounts are
      stored under their own names together with the mass density, and the
      missing-arguments error is reachable. */
  function NewMaterial(args: Arguments, t: ElementTables): (r: Result<Material, MaterialError>)
    ensures args.massdensity.Some? ==>
      (r.Failure? <==> args.composition == map[] || exists key :: key in args.composition && !IsCompositionAttribute(t, key))
    ensures args.massdensity.Some? && r.Success? ==>
      r.value == Material(args.massdensity.value, args.composition)
    ensures args.massdensity.None? && args.materialType.None? ==> r == Failure(NoValidArguments)
  {
    match args.massdensity
    case Some(md) =>
      var elements := set key | key in args.composition && key in ElementKeys(t);
      ValidElementCount(args.composition, t);
      if |elements| == 0 || |elements| != |args.composition.Keys| then
        Failure(NoValidArguments)
      else
        Success(Material(md, args.composition))
    case None =>
      match args.materialType
      case Some(mt) =>
        if mt !in t.massDensity || mt !in t.composition then Failure(UnknownMaterialType)
        else Success(Material(t.massDensity[mt], AttributesOf(t.composition[mt])))
      case None => Failure(NoValidArguments)
  }
  /** A constructed material reads back, through get_atomic_composition_dict,
      exactly the amounts it was given: the keyword amounts in the mass-density
      form, the known elements of the tabulated composition in the other. */
  lemma NewMaterialCompositionRoundTrip(args: Arguments, t: ElementTables)
    requires NewMaterial(args, t).Success?
    ensures args.massdensity.Some? ==>
      forall e :: (e in RawComposition(NewMaterial(args, t).value, t) <==> "c" + e in args.composition)
    ensures args.massdensity.Some? ==>
      forall e :: e in RawComposition(NewMaterial(args, t).value, t) ==>
        RawComposition(NewMaterial(args, t).value, t)[e] == args.composition["c" + e]
    ensures args.massdensity.None? ==>
      forall e :: (e in RawComposition(NewMaterial(args, t).value, t) <==>
        t.Known(e) && e in t.composition[args.materialType.value])
    ensures args.massdensity.None? ==>
      forall e :: e in RawComposition(NewMaterial(args, t).value, t) ==>
        RawComposition(NewMaterial(args, t).value, t)[e] == t.composition[args.materialType.value][e]
  {
    var m := NewMaterial(args, t).value;
    if args.massdensity.Some? {
      forall e ensures e in RawComposition(m, t) <==> "c" + e in args.composition {
        if "c" + e in args.composition {
          assert IsCompositionAttribute(t, "c" + e);
          PrefixC(e);
        }
      }
    } else {
      var c := t.composition[args.materialType.value];
      forall e ensures e in RawComposition(m, t) <==> t.Known(e) && e in c {
        if "c" + e in m.attributes {
          PrefixC(e);
        }
      }
    }
  }

  /** Material.__init__ as written. In the mass-density branch the loop body
      names `key`, which is not defined, so every composition that passes the
      validation raises NameError (and the mass density is never stored); the
      second branch tests a string literal against None, so it is always taken
      and a call with neither argument fails on the table lookup. */
  function NewMaterialAsWritten(args: Arguments, t: ElementTables): (r: Result<Material, MaterialError>)
    ensures args.massdensity.Some? ==> r.Failure?
    ensures args.massdensity.None? && args.materialType.None? ==> r == Failure(UnknownMaterialType)
    ensures args.massdensity.None? && args.materialType.Some? ==> r == NewMaterial(args, t)
  {
    match args.massdensity
    case Some(md) =>
      var elements := set key | key in args.composition && key in ElementKeys(t);
      if |elements| == 0 || |elements| != |args.composition.Keys| then Failure(NoValidArguments)
      else Failure(UndefinedName)
    case None =>
      match args.materialType
      case Some(mt) =>
        if mt !in t.massDensity || mt !in t.composition then Failure(UnknownMaterialType)
        else Success(Material(t.massDensity[mt], AttributesOf(t.composition[mt])))
      case None => Failure(UnknownMaterialType)
  }

  /** Wherever the corrected constructor accepts a mass-density material, the
      code as written raises NameError instead. */
  lemma AsWrittenRejectsValidCompositions(args: Arguments, t: ElementTables)
    requires args.massdensity.Some? && NewMaterial(args, t).Success?
    ensures NewMaterialAsWritten(args, t) == Failure(UndefinedName)
  {
    ValidElementCount(args.composition, t);
  }

  /** The concrete call Material(massdensity=1000, cH=2) with H a known element. */
  lemma AsWrittenHydrogenExample()
    ensures var t := ElementTables(["H"], map["H" := 1], map["H" := 1.008], (e: string, energy: real) => ComplexZero, map[], map[]);
      var args := Arguments(Some(1000.0), None, map["cH" := 2.0]);
      NewMaterialAsWritten(args, t) == Failure(UndefinedName) &&
      NewMaterial(args, t) == Success(Material(1000.0, map["cH" := 2.0]))
  {
    var t := ElementTables(["H"], map["H" := 1], map["H" := 1.008], (e: string, energy: real) => ComplexZero, map[], map[]);
    var args := Arguments(Some(1000.0), None, map["cH" := 2.0]);
    assert "cH" == "c" + "H";
    assert IsCompositionAttribute(t, "cH");
    forall key | key in args.composition ensures IsCompositionAttribute(t, key) {
    }
    assert "cH" in args.composition;
    assert NewMaterial(args, t).Success?;
    AsWrittenRejectsValidCompositions(args, t);
  }

  /** Material() with neither argument: the code as written fails on the
      material-type table lookup instead of reporting the missing arguments. */
  lemma AsWrittenMissingArguments(t: ElementTables, comp: map<string, real>)
    ensures NewMaterialAsWritten(Arguments(None, None, comp), t) == Failure(UnknownMaterialType)
    ensures NewMaterial(Arguments(None, None, comp), t) == Failure(NoValidArguments)
  {
  }
}
