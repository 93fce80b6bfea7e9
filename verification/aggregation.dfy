/** The exposure aggregator of Propagator.propagate: every channel each exposure
    reports is collected into a list indexed by exposure, and every channel of
    the particle records into a zero-padded dense array of shape
    [N, N_particles_max] + item shape. Generic in the value type V; `shapeOf`
    gives a value's array shape and `zeroOf(s)` the zero array of shape s. */
module Aggregation {
  import opened Wrappers

  /** What one exposure hands back: the top-level dictionary, the source,
      sample and detector dictionaries, and the sample's particle records in
      illumination order. */
  datatype Exposure<V> = Exposure(
    top: map<string, V>,
    source: map<string, V>,
    sample: map<string, V>,
    particles: seq<map<string, V>>,
    detector: map<string, V>)

  /** The four dictionaries whose entries are collected per exposure. */
  datatype Part = Top | Source | Sample | Detector

  /** The names propagate reserves at the top level. */
  const Reserved: set<string> := {"source", "sample", "detector"}

  /** The entries of one exposure's dictionary that propagate collects: the
      top level without the three reserved names, the sample without its
      particle list. */
  function Dict<V>(e: Exposure<V>, part: Part): map<string, V> {
    match part
    case Top => e.top - Reserved
    case Source => e.source
    case Sample => e.sample - {"particles"}
    case Detector => e.detector
  }

  /** A per-exposure channel: entry i is exposure i's value, None where
      exposure i did not report the name. */
  type Channel<V> = seq<Option<V>>

  /** A dense per-particle array: `slots[i][j]` is particle slot j of exposure i,
      each slot an array of shape `itemShape`. */
  datatype ParticleChannel<V> = ParticleChannel(itemShape: seq<nat>, slots: seq<seq<V>>)

  /** An entry of the aggregated sample dictionary. */
  datatype SampleChannel<V> = PerExposure(values: Channel<V>) | PerParticle(dense: ParticleChannel<V>)

  datatype Aggregate<V> = Aggregate(
    top: map<string, Channel<V>>,
    source: map<string, Channel<V>>,
    sample: map<string, SampleChannel<V>>,
    detector: map<string, Channel<V>>)

  /** numpy refuses to store a particle value whose shape does not fit the array. */
  datatype AggregationError = ItemShapeMismatch

  // ---------------------------------------------------------------------------
  // Per-exposure channels

  /** The names reported by the first i exposures. */
  function KeysUpTo<V>(es: seq<Exposure<V>>, part: Part, i: nat): set<string>
    requires i <= |es|
  {
    if i == 0 then {} else KeysUpTo(es, part, i - 1) + Dict(es[i - 1], part).Keys
  }

  lemma {:induction false} KeysUpToSpec<V>(es: seq<Exposure<V>>, part: Part, i: nat, k: string)
    requires i <= |es|
    ensures k in KeysUpTo(es, part, i) <==> exists j :: 0 <= j < i && k in Dict(es[j], part)
  {
    if i > 0 {
      KeysUpToSpec(es, part, i - 1, k);
      if k in Dict(es[i - 1], part) {
        assert exists j :: 0 <= j < i && k in Dict(es[j], part);
      }
    }
  }

  /** The channel k after the first i exposures: entries of later exposures are
      still None. */
  function ChannelUpTo<V>(es: seq<Exposure<V>>, part: Part, k: string, i: nat): (c: Channel<V>)
    ensures |c| == |es|
  {
    seq(|es|, j requires 0 <= j < |es| =>
      if j < i && k in Dict(es[j], part) then Some(Dict(es[j], part)[k]) else None)
  }

  function ChannelsUpTo<V>(es: seq<Exposure<V>>, part: Part, i: nat): map<string, Channel<V>>
    requires i <= |es|
  {
    map k | k in KeysUpTo(es, part, i) :: ChannelUpTo(es, part, k, i)
  }

  function Nones<V>(n: nat): (c: Channel<V>)
    ensures |c| == n
    ensures forall j :: 0 <= j < n ==> c[j] == None
  {
    seq(n, j => None)
  }

  /** One exposure's share of the collecting loop: a name seen for the first
      time gets a list of n Nones, and slot i receives exposure i's value. */
  function Absorb<V>(acc: map<string, Channel<V>>, d: map<string, V>, i: nat, n: nat): map<string, Channel<V>>
    requires i < n
    requires forall k :: k in acc ==> |acc[k]| == n
  {
    map k | k in acc.Keys + d.Keys ::
      if k in d then (if k in acc then acc[k] else Nones(n))[i := Some(d[k])] else acc[k]
  }

  /** A name none of the first i exposures reported has an all-None channel. */
  lemma ChannelBeforeFirst<V>(es: seq<Exposure<V>>, part: Part, i: nat, k: string)
    requires i <= |es| && k !in KeysUpTo(es, part, i)
    ensures ChannelUpTo(es, part, k, i) == Nones(|es|)
  {
    KeysUpToSpec(es, part, i, k);
  }

  /** Exposure i's step changes at most entry i of a channel. */
  lemma ChannelAdvance<V>(es: seq<Exposure<V>>, part: Part, i: nat, k: string)
    requires i < |es|
    ensures k in Dict(es[i], part) ==>
      ChannelUpTo(es, part, k, i + 1) == ChannelUpTo(es, part, k, i)[i := Some(Dict(es[i], part)[k])]
    ensures k !in Dict(es[i], part) ==> ChannelUpTo(es, part, k, i + 1) == ChannelUpTo(es, part, k, i)
  {
  }

  lemma AbsorbStep<V>(es: seq<Exposure<V>>, part: Part, i: nat)
    requires i < |es|
    ensures forall k :: k in ChannelsUpTo(es, part, i) ==> |ChannelsUpTo(es, part, i)[k]| == |es|
    ensures Absorb(ChannelsUpTo(es, part, i), Dict(es[i], part), i, |es|) == ChannelsUpTo(es, part, i + 1)
  {
    ChannelsUpToLength(es, part, i);
    var next := Absorb(ChannelsUpTo(es, part, i), Dict(es[i], part), i, |es|);
    var want := ChannelsUpTo(es, part, i + 1);
    assert next.Keys == want.Keys;
    forall k | k in next ensures next[k] == want[k] {
      AbsorbStepAt(es, part, i, k);
    }
  }

  lemma ChannelsUpToLength<V>(es: seq<Exposure<V>>, part: Part, i: nat)
    requires i <= |es|
    ensures forall k :: k in ChannelsUpTo(es, part, i) ==> |ChannelsUpTo(es, part, i)[k]| == |es|
  {
  }

  /** The step for one name. */
  lemma AbsorbStepAt<V>(es: seq<Exposure<V>>, part: Part, i: nat, k: string)
    requires i < |es|
    requires k in ChannelsUpTo(es, part, i).Keys + Dict(es[i], part).Keys
    ensures forall key :: key in ChannelsUpTo(es, part, i) ==> |ChannelsUpTo(es, part, i)[key]| == |es|
    ensures Absorb(ChannelsUpTo(es, part, i), Dict(es[i], part), i, |es|)[k] == ChannelUpTo(es, part, k, i + 1)
  {
    var acc := ChannelsUpTo(es, part, i);
    ChannelsUpToLength(es, part, i);
    ChannelAdvance(es, part, i, k);
    if k !in acc {
      ChannelBeforeFirst(es, part, i, k);
    }
  }

  /** The reference for a per-exposure channel over the whole run. */
  function ChannelOf<V>(es: seq<Exposure<V>>, part: Part, k: string): (c: Channel<V>)
    ensures |c| == |es|
    ensures forall i :: 0 <= i < |es| ==>
      c[i] == if k in Dict(es[i], part) then Some(Dict(es[i], part)[k]) else None
  {
    ChannelUpTo(es, part, k, |es|)
  }

  // ---------------------------------------------------------------------------
  // Per-particle channels

  /** The values of k in the records that carry it, in record order: what
      `O_particles[k][i].append(v)` builds for exposure i. */
  function Carried<V>(ps: seq<map<string, V>>, k: string): (r: seq<V>)
    ensures |r| <= |ps|
  {
    if ps == [] then [] else (if k in ps[0] then [ps[0][k]] else []) + Carried(ps[1..], k)
  }

  /** When every record carries k, slot j holds record j's value. */
  lemma {:induction false} CarriedByAll<V>(ps: seq<map<string, V>>, k: string)
    requires forall j :: 0 <= j < |ps| ==> k in ps[j]
    ensures |Carried(ps, k)| == |ps|
    ensures forall j :: 0 <= j < |ps| ==> Carried(ps, k)[j] == ps[j][k]
  {
    if ps != [] {
      CarriedByAll(ps[1..], k);
    }
  }

  /** A name no record carries yields an empty row. */
  lemma {:induction false} CarriedByNone<V>(ps: seq<map<string, V>>, k: string)
    requires forall j :: 0 <= j < |ps| ==> k !in ps[j]
    ensures Carried(ps, k) == []
  {
    if ps != [] {
      CarriedByNone(ps[1..], k);
    }
  }

  /** The names carried by some record. */
  function RecordKeys<V>(ps: seq<map<string, V>>): set<string> {
    if ps == [] then {} else ps[0].Keys + RecordKeys(ps[1..])
  }

  lemma {:induction false} RecordKeysSpec<V>(ps: seq<map<string, V>>, k: string)
    ensures k in RecordKeys(ps) <==> exists j :: 0 <= j < |ps| && k in ps[j]
  {
    if ps != [] {
      RecordKeysSpec(ps[1..], k);
      if exists j :: 0 <= j < |ps| && k in ps[j] {
        var j :| 0 <= j < |ps| && k in ps[j];
        if j > 0 {
          assert k in ps[1..][j - 1];
        }
      }
      if exists j :: 0 <= j < |ps[1..]| && k in ps[1..][j] {
        var j :| 0 <= j < |ps[1..]| && k in ps[1..][j];
        assert k in ps[j + 1];
      }
    }
  }

  function ParticleKeysUpTo<V>(es: seq<Exposure<V>>, i: nat): set<string>
    requires i <= |es|
  {
    if i == 0 then {} else ParticleKeysUpTo(es, i - 1) + RecordKeys(es[i - 1].particles)
  }

  lemma {:induction false} ParticleKeysUpToSpec<V>(es: seq<Exposure<V>>, i: nat, k: string)
    requires i <= |es|
    ensures k in ParticleKeysUpTo(es, i) <==> exists j :: 0 <= j < i && k in RecordKeys(es[j].particles)
  {
    if i > 0 {
      ParticleKeysUpToSpec(es, i - 1, k);
      if k in RecordKeys(es[i - 1].particles) {
        assert exists j :: 0 <= j < i && k in RecordKeys(es[j].particles);
      }
    }
  }

  /** The rows of particle channel k after the first i exposures. */
  function RowsUpTo<V>(es: seq<Exposure<V>>, k: string, i: nat): (rows: seq<seq<V>>)
    ensures |rows| == |es|
  {
    seq(|es|, j requires 0 <= j < |es| => if j < i then Carried(es[j].particles, k) else [])
  }

  function ParticleRowsUpTo<V>(es: seq<Exposure<V>>, i: nat): map<string, seq<seq<V>>>
    requires i <= |es|
  {
    map k | k in ParticleKeysUpTo(es, i) :: RowsUpTo(es, k, i)
  }

  function Empties<V>(n: nat): (rows: seq<seq<V>>)
    ensures |rows| == n
    ensures forall j :: 0 <= j < n ==> rows[j] == []
  {
    seq(n, j => [])
  }

  /** One exposure's share of the particle loop: a name seen for the first
      time gets n empty rows; row i collects the exposure's values in order. */
  function AbsorbParticles<V>(acc: map<string, seq<seq<V>>>, ps: seq<map<string, V>>, i: nat, n: nat): map<string, seq<seq<V>>>
    requires i < n
    requires forall k :: k in acc ==> |acc[k]| == n
  {
    map k | k in acc.Keys + RecordKeys(ps) ::
      (if k in acc then acc[k] else Empties(n))[i := Carried(ps, k)]
  }

  lemma AbsorbParticlesStep<V>(es: seq<Exposure<V>>, i: nat)
    requires i < |es|
    ensures forall k :: k in ParticleRowsUpTo(es, i) ==> |ParticleRowsUpTo(es, i)[k]| == |es|
    ensures AbsorbParticles(ParticleRowsUpTo(es, i), es[i].particles, i, |es|) == ParticleRowsUpTo(es, i + 1)
  {
    var acc := ParticleRowsUpTo(es, i);
    var ps := es[i].particles;
    var next := AbsorbParticles(acc, ps, i, |es|);
    var want := ParticleRowsUpTo(es, i + 1);
    assert next.Keys == want.Keys;
    forall k | k in next ensures next[k] == want[k] {
      var base := if k in acc then acc[k] else Empties(|es|);
      if k !in acc {
        ParticleKeysUpToSpec(es, i, k);
        forall j | 0 <= j < i ensures Carried(es[j].particles, k) == [] {
          RecordKeysSpec(es[j].particles, k);
          CarriedByNone(es[j].particles, k);
        }
      }
      assert base == RowsUpTo(es, k, i);
      assert base[i := Carried(ps, k)] == RowsUpTo(es, k, i + 1);
    }
  }

  function Max(a: nat, b: nat): nat {
    if a < b then b else a
  }

  /** N_particles_max after the first i exposures: the largest particle count. */
  function MaxCount<V>(es: seq<Exposure<V>>, i: nat): (m: nat)
    requires i <= |es|
    ensures forall j :: 0 <= j < i ==> |es[j].particles| <= m
    ensures (i == 0 && m == 0) || exists j :: 0 <= j < i && m == |es[j].particles|
  {
    if i == 0 then 0 else Max(MaxCount(es, i - 1), |es[i - 1].particles|)
  }

  // ---------------------------------------------------------------------------
  // Padding

  function Fill<V>(v: V, n: nat): (r: seq<V>)
    ensures |r| == n
    ensures forall j :: 0 <= j < n ==> r[j] == v
  {
    seq(n, j => v)
  }

  /** numpy.array(v[0]).shape with its leading axis removed: the shape of
      exposure 0's first value, or () when exposure 0 has none. */
  function ItemShape<V>(rows: seq<seq<V>>, shapeOf: V -> seq<nat>): seq<nat> {
    if rows == [] || rows[0] == [] then [] else shapeOf(rows[0][0])
  }

  /** An exposure without values for a name gives `numpy.array([])`, of
      shape (0,), which is assigned to `A[i, :0]` of shape (0,) + item shape.
      numpy broadcasts it there exactly when the item shape is () or its last
      axis has length zero. */
  predicate EmptyRowFits(itemShape: seq<nat>) {
    itemShape == [] || itemShape[|itemShape| - 1] == 0
  }

  /** The assignment `A[i, :len(row), ...] = row` into a zero-filled row of
      `width` slots. A row whose values have four or more axes matches none of
      the four assignment branches and is left at zero; a row whose values
      disagree in shape, or do not have the array's item shape, is refused,
      and so is an empty row the item shape does not take. */
  function PadRow<V>(row: seq<V>, itemShape: seq<nat>, width: nat, shapeOf: V -> seq<nat>, zeroOf: seq<nat> -> V): (r: Result<seq<V>, AggregationError>)
    requires |row| <= width
    ensures r.Success? ==> |r.value| == width
    ensures r.Success? ==> forall j :: |row| <= j < width ==> r.value[j] == zeroOf(itemShape)
    ensures r.Success? && row != [] && |shapeOf(row[0])| < 4 ==>
      forall j :: 0 <= j < |row| ==> r.value[j] == row[j]
    ensures r.Success? && row != [] && |shapeOf(row[0])| >= 4 ==>
      forall j :: 0 <= j < width ==> r.value[j] == zeroOf(itemShape)
    ensures row == [] ==> (r.Success? <==> EmptyRowFits(itemShape))
    ensures r.Failure? ==>
      (exists j :: 0 <= j < |row| && shapeOf(row[j]) != itemShape) || (row == [] && !EmptyRowFits(itemShape))
    ensures (row == [] ==> EmptyRowFits(itemShape)) && (forall j :: 0 <= j < |row| ==> shapeOf(row[j]) == itemShape) ==>
      r.Success?
  {
    if row == [] then
      if EmptyRowFits(itemShape) then Success(Fill(zeroOf(itemShape), width)) else Failure(ItemShapeMismatch)
    else if exists j :: 0 <= j < |row| && shapeOf(row[j]) != shapeOf(row[0]) then Failure(ItemShapeMismatch)
    else if |shapeOf(row[0])| + 1 > 4 then Success(Fill(zeroOf(itemShape), width))
    else if shapeOf(row[0]) != itemShape then Failure(ItemShapeMismatch)
    else Success(row + Fill(zeroOf(itemShape), width - |row|))
  }

  predicate RowsFit<V>(rows: seq<seq<V>>, width: nat) {
    forall i :: 0 <= i < |rows| ==> |rows[i]| <= width
  }

  function PadRows<V>(rows: seq<seq<V>>, itemShape: seq<nat>, width: nat, shapeOf: V -> seq<nat>, zeroOf: seq<nat> -> V): (r: Result<seq<seq<V>>, AggregationError>)
    requires RowsFit(rows, width)
    ensures r.Success? <==> forall i :: 0 <= i < |rows| ==> PadRow(rows[i], itemShape, width, shapeOf, zeroOf).Success?
    ensures r.Success? ==> |r.value| == |rows|
    ensures r.Success? ==> forall i :: 0 <= i < |rows| ==> r.value[i] == PadRow(rows[i], itemShape, width, shapeOf, zeroOf).value
  {
    if rows == [] then Success([])
    else
      var first := PadRow(rows[0], itemShape, width, shapeOf, zeroOf);
      var rest := PadRows(rows[1..], itemShape, width, shapeOf, zeroOf);
      if first.Failure? then Failure(first.error)
      else if rest.Failure? then Failure(rest.error)
      else Success([first.value] + rest.value)
  }

  /** The dense array `numpy.zeros([N, width] + item shape)` filled row by row. */
  function PadChannel<V>(rows: seq<seq<V>>, width: nat, shapeOf: V -> seq<nat>, zeroOf: seq<nat> -> V): (r: Result<ParticleChannel<V>, AggregationError>)
    requires RowsFit(rows, width)
    ensures r.Success? ==> r.value.itemShape == ItemShape(rows, shapeOf)
    ensures r.Success? ==> |r.value.slots| == |rows|
    ensures r.Success? ==> forall i :: 0 <= i < |rows| ==> |r.value.slots[i]| == width
  {
    var itemShape := ItemShape(rows, shapeOf);
    var padded :- PadRows(rows, itemShape, width, shapeOf, zeroOf);
    Success(ParticleChannel(itemShape, padded))
  }

  function PadAll<V>(rows: map<string, seq<seq<V>>>, width: nat, shapeOf: V -> seq<nat>, zeroOf: seq<nat> -> V): (r: Result<map<string, ParticleChannel<V>>, AggregationError>)
    requires forall k :: k in rows ==> RowsFit(rows[k], width)
    ensures r.Success? <==> forall k :: k in rows ==> PadChannel(rows[k], width, shapeOf, zeroOf).Success?
    ensures r.Success? ==> r.value.Keys == rows.Keys
    ensures r.Success? ==> forall k :: k in rows ==> r.value[k] == PadChannel(rows[k], width, shapeOf, zeroOf).value
  {
    if exists k :: k in rows && PadChannel(rows[k], width, shapeOf, zeroOf).Failure? then Failure(ItemShapeMismatch)
    else Success(map k | k in rows :: PadChannel(rows[k], width, shapeOf, zeroOf).value)
  }

  /** The padded arrays are stored into the sample dictionary, replacing a
      per-exposure channel of the same name. */
  function Assemble<V>(
    top: map<string, Channel<V>>, source: map<string, Channel<V>>, sample: map<string, Channel<V>>,
    detector: map<string, Channel<V>>, particles: map<string, ParticleChannel<V>>): Aggregate<V>
  {
    Aggregate(
      top, source,
      map k | k in sample.Keys + particles.Keys ::
        if k in particles then PerParticle(particles[k]) else PerExposure(sample[k]),
      detector)
  }

  // ---------------------------------------------------------------------------
  // The whole run

  /** The channels of one part of the aggregate. */
  function ChannelsOf<V>(a: Aggregate<V>, part: Part): map<string, Channel<V>>
    requires part != Sample
  {
    match part
    case Top => a.top
    case Source => a.source
    case Detector => a.detector
  }

  /** Row i of particle channel k over the whole run. */
  function RowOf<V>(es: seq<Exposure<V>>, k: string, i: nat): seq<V>
    requires i < |es|
  {
    Carried(es[i].particles, k)
  }

  /** The reference definition of the aggregate. */
  function AggregateOf<V>(es: seq<Exposure<V>>, shapeOf: V -> seq<nat>, zeroOf: seq<nat> -> V): Result<Aggregate<V>, AggregationError>
  {
    var n := |es|;
    var rows := ParticleRowsUpTo(es, n);
    var width := MaxCount(es, n);
    RowsFitWidth(es);
    var padded :- PadAll(rows, width, shapeOf, zeroOf);
    Success(Assemble(ChannelsUpTo(es, Top, n), ChannelsUpTo(es, Source, n), ChannelsUpTo(es, Sample, n),
                     ChannelsUpTo(es, Detector, n), padded))
  }

  /** No exposure has more particle values for a name than particles. */
  lemma RowsFitWidth<V>(es: seq<Exposure<V>>)
    ensures forall k :: k in ParticleRowsUpTo(es, |es|) ==> RowsFit(ParticleRowsUpTo(es, |es|)[k], MaxCount(es, |es|))
  {
    var rows := ParticleRowsUpTo(es, |es|);
    var width := MaxCount(es, |es|);
    forall k | k in rows ensures RowsFit(rows[k], width) {
      forall i | 0 <= i < |rows[k]| ensures |rows[k][i]| <= width {
        assert rows[k][i] == Carried(es[i].particles, k);
      }
    }
  }

  /** Every per-exposure channel (top level, source, sample, detector) is a
      list with one entry per exposure, entry i being exposure i's value, and
      the names present are exactly those some exposure reported. */
  lemma {:induction false} AggregateChannels<V>(es: seq<Exposure<V>>, shapeOf: V -> seq<nat>, zeroOf: seq<nat> -> V, part: Part, k: string)
    requires AggregateOf(es, shapeOf, zeroOf).Success?
    requires part != Sample
    ensures k in ChannelsOf(AggregateOf(es, shapeOf, zeroOf).value, part) <==>
      exists i :: 0 <= i < |es| && k in Dict(es[i], part)
    ensures k in ChannelsOf(AggregateOf(es, shapeOf, zeroOf).value, part) ==>
      ChannelsOf(AggregateOf(es, shapeOf, zeroOf).value, part)[k] == ChannelOf(es, part, k)
  {
    KeysUpToSpec(es, part, |es|, k);
  }

  /** A top-level value an exposure reports is entry i of its aggregated channel. */
  lemma AggregateTopEntry<V>(es: seq<Exposure<V>>, shapeOf: V -> seq<nat>, zeroOf: seq<nat> -> V, k: string, i: nat)
    requires AggregateOf(es, shapeOf, zeroOf).Success?
    requires i < |es| && k in es[i].top && k !in Reserved
    ensures k in AggregateOf(es, shapeOf, zeroOf).value.top
    ensures AggregateOf(es, shapeOf, zeroOf).value.top[k] == ChannelOf(es, Top, k)
    ensures AggregateOf(es, shapeOf, zeroOf).value.top[k][i] == Some(es[i].top[k])
  {
    assert Dict(es[i], Top) == es[i].top - Reserved;
    assert k in Dict(es[i], Top);
    AggregateChannels(es, shapeOf, zeroOf, Top, k);
  }

  /** The sample dictionary: every name a particle record carries becomes a
      padded array (replacing a per-exposure channel of the same name); every
      other name is a per-exposure channel. */
  lemma {:induction false} AggregateSampleChannels<V>(es: seq<Exposure<V>>, shapeOf: V -> seq<nat>, zeroOf: seq<nat> -> V, k: string)
    requires AggregateOf(es, shapeOf, zeroOf).Success?
    ensures k in AggregateOf(es, shapeOf, zeroOf).value.sample <==>
      (exists i :: 0 <= i < |es| && k in RecordKeys(es[i].particles)) ||
      (exists i :: 0 <= i < |es| && k in Dict(es[i], Sample))
    ensures (exists i :: 0 <= i < |es| && k in RecordKeys(es[i].particles)) ==>
      AggregateOf(es, shapeOf, zeroOf).value.sample[k].PerParticle?
    ensures (k in AggregateOf(es, shapeOf, zeroOf).value.sample &&
             forall i :: 0 <= i < |es| ==> k !in RecordKeys(es[i].particles)) ==>
      AggregateOf(es, shapeOf, zeroOf).value.sample[k] == PerExposure(ChannelOf(es, Sample, k))
  {
    KeysUpToSpec(es, Sample, |es|, k);
    ParticleKeysUpToSpec(es, |es|, k);
  }

  /** The rows of particle channel k over the whole run, one per exposure. */
  function ParticleRows<V>(es: seq<Exposure<V>>, k: string): (rows: seq<seq<V>>)
    ensures |rows| == |es|
    ensures forall i :: 0 <= i < |es| ==> rows[i] == RowOf(es, k, i)
  {
    RowsUpTo(es, k, |es|)
  }

  /** Where each value of a padded channel lands. */
  lemma PadChannelSlots<V>(rows: seq<seq<V>>, width: nat, shapeOf: V -> seq<nat>, zeroOf: seq<nat> -> V)
    requires RowsFit(rows, width)
    requires PadChannel(rows, width, shapeOf, zeroOf).Success?
    ensures var a := PadChannel(rows, width, shapeOf, zeroOf).value;
      forall i, j :: 0 <= i < |rows| && |rows[i]| <= j < width ==> a.slots[i][j] == zeroOf(a.itemShape)
    ensures var a := PadChannel(rows, width, shapeOf, zeroOf).value;
      forall i, j :: 0 <= i < |rows| && 0 <= j < |rows[i]| && |shapeOf(rows[i][0])| < 4 ==> a.slots[i][j] == rows[i][j]
  {
    var a := PadChannel(rows, width, shapeOf, zeroOf).value;
    forall i | 0 <= i < |rows|
      ensures a.slots[i] == PadRow(rows[i], a.itemShape, width, shapeOf, zeroOf).value
    {
    }
  }

  /** A particle channel is an array of shape [N, N_particles_max] + item shape,
      the item shape taken from exposure 0's first value. Slot (i, j) holds the
      j-th value exposure i's records carry for the name, in illumination order,
      and every slot past them holds the zero fill. */
  lemma {:induction false} AggregateParticleChannel<V>(es: seq<Exposure<V>>, shapeOf: V -> seq<nat>, zeroOf: seq<nat> -> V, k: string)
    requires AggregateOf(es, shapeOf, zeroOf).Success?
    requires exists i :: 0 <= i < |es| && k in RecordKeys(es[i].particles)
    ensures k in AggregateOf(es, shapeOf, zeroOf).value.sample
    ensures AggregateOf(es, shapeOf, zeroOf).value.sample[k].PerParticle?
    ensures var a := AggregateOf(es, shapeOf, zeroOf).value.sample[k].dense;
      && a.itemShape == ItemShape(ParticleRows(es, k), shapeOf)
      && |a.slots| == |es|
      && (forall i :: 0 <= i < |es| ==> |a.slots[i]| == MaxCount(es, |es|))
      && (forall i, j :: 0 <= i < |es| && |RowOf(es, k, i)| <= j < MaxCount(es, |es|) ==>
            a.slots[i][j] == zeroOf(a.itemShape))
      && (forall i, j :: 0 <= i < |es| && 0 <= j < |RowOf(es, k, i)| && |shapeOf(RowOf(es, k, i)[0])| < 4 ==>
            a.slots[i][j] == RowOf(es, k, i)[j])
  {
    ParticleKeysUpToSpec(es, |es|, k);
    var all := ParticleRowsUpTo(es, |es|);
    var width := MaxCount(es, |es|);
    RowsFitWidth(es);
    assert k in all;
    var rows := all[k];
    assert rows == ParticleRows(es, k);
    var padded := PadAll(all, width, shapeOf, zeroOf);
    assert AggregateOf(es, shapeOf, zeroOf).value.sample[k] == PerParticle(padded.value[k]);
    assert padded.value[k] == PadChannel(rows, width, shapeOf, zeroOf).value;
    PadChannelSlots(rows, width, shapeOf, zeroOf);
  }

  /** A run is refused only for a particle value whose shape differs from the
      item shape of its channel, or for an exposure without values in a
      channel whose item shape does not take an empty row. */
  lemma {:induction false} AggregateRefusal<V>(es: seq<Exposure<V>>, shapeOf: V -> seq<nat>, zeroOf: seq<nat> -> V)
    requires forall k, i, j :: 0 <= i < |es| && 0 <= j < |RowOf(es, k, i)| ==>
      shapeOf(RowOf(es, k, i)[j]) == ItemShape(ParticleRows(es, k), shapeOf)
    requires forall k, i :: 0 <= i < |es| && RowOf(es, k, i) == [] ==>
      EmptyRowFits(ItemShape(ParticleRows(es, k), shapeOf))
    ensures AggregateOf(es, shapeOf, zeroOf).Success?
  {
    var rows := ParticleRowsUpTo(es, |es|);
    RowsFitWidth(es);
    forall k | k in rows ensures PadChannel(rows[k], MaxCount(es, |es|), shapeOf, zeroOf).Success? {
      assert rows[k] == ParticleRows(es, k);
    }
  }

  /** An exposure without values for a name whose item shape (taken from
      exposure 0) does not take an empty row ends the run: numpy refuses the
      assignment of `numpy.array([])`. */
  lemma {:induction false} EmptyRowRefused<V>(es: seq<Exposure<V>>, shapeOf: V -> seq<nat>, zeroOf: seq<nat> -> V, k: string, i: nat)
    requires i < |es| && RowOf(es, k, i) == []
    requires !EmptyRowFits(ItemShape(ParticleRows(es, k), shapeOf))
    ensures AggregateOf(es, shapeOf, zeroOf).Failure?
  {
    var rows := ParticleRowsUpTo(es, |es|);
    var width := MaxCount(es, |es|);
    var channel := ParticleRows(es, k);
    assert channel[0] != [];
    if forall j :: 0 <= j < |es[0].particles| ==> k !in es[0].particles[j] {
      CarriedByNone(es[0].particles, k);
      assert false;
    }
    var j :| 0 <= j < |es[0].particles| && k in es[0].particles[j];
    RecordKeysSpec(es[0].particles, k);
    ParticleKeysUpToSpec(es, |es|, k);
    assert k in rows && rows[k] == channel;
    RowsFitWidth(es);
    assert PadRow(channel[i], ItemShape(channel, shapeOf), width, shapeOf, zeroOf).Failure?;
    assert PadChannel(channel, width, shapeOf, zeroOf).Failure?;
  }

  /** The collecting loop of propagate: one pass over the exposures filling the
      four per-exposure channel maps, the particle rows and N_particles_max. */
  method Collect<V>(es: seq<Exposure<V>>)
    returns (top: map<string, Channel<V>>, source: map<string, Channel<V>>, sample: map<string, Channel<V>>,
             detector: map<string, Channel<V>>, particles: map<string, seq<seq<V>>>, maxCount: nat)
    ensures top == ChannelsUpTo(es, Top, |es|)
    ensures source == ChannelsUpTo(es, Source, |es|)
    ensures sample == ChannelsUpTo(es, Sample, |es|)
    ensures detector == ChannelsUpTo(es, Detector, |es|)
    ensures particles == ParticleRowsUpTo(es, |es|)
    ensures maxCount == MaxCount(es, |es|)
  {
    var n := |es|;
    top, source, sample, detector, particles, maxCount := map[], map[], map[], map[], map[], 0;
    var i := 0;
    while i < n
      invariant 0 <= i <= n
      invariant top == ChannelsUpTo(es, Top, i)
      invariant source == ChannelsUpTo(es, Source, i)
      invariant sample == ChannelsUpTo(es, Sample, i)
      invariant detector == ChannelsUpTo(es, Detector, i)
      invariant particles == ParticleRowsUpTo(es, i)
      invariant maxCount == MaxCount(es, i)
    {
      AbsorbStep(es, Top, i);
      top := Absorb(top, Dict(es[i], Top), i, n);
      AbsorbStep(es, Source, i);
      source := Absorb(source, Dict(es[i], Source), i, n);
      AbsorbStep(es, Sample, i);
      sample := Absorb(sample, Dict(es[i], Sample), i, n);
      AbsorbParticlesStep(es, i);
      particles := AbsorbParticles(particles, es[i].particles, i, n);
      maxCount := Max(maxCount, |es[i].particles|);
      AbsorbStep(es, Detector, i);
      detector := Absorb(detector, Dict(es[i], Detector), i, n);
      i := i + 1;
    }
  }

  /** Propagator.propagate over already simulated exposures: the collecting
      loop followed by the padding of the particle channels. */
  method Propagate<V>(es: seq<Exposure<V>>, shapeOf: V -> seq<nat>, zeroOf: seq<nat> -> V) returns (r: Result<Aggregate<V>, AggregationError>)
    ensures r == AggregateOf(es, shapeOf, zeroOf)
  {
    var top, source, sample, detector, particles, maxCount := Collect(es);
    RowsFitWidth(es);
    var padded := PadAll(particles, maxCount, shapeOf, zeroOf);
    if padded.Failure? {
      return Failure(padded.error);
    }
    r := Success(Assemble(top, source, sample, detector, padded.value));
  }
}
