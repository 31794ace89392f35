/**
 * Failure-injection settings (widesim/failure/FailureParameters.java): the
 * monitor mode, the failure mode, the distribution family and the table of
 * failure sample generators indexed by VM and task depth. The Java class keeps
 * them in static fields; the model keeps them in one configuration object.
 */
module FailureConfig {
  import opened Wrappers

  datatype FTCMonitor = MonitorNone | MonitorAll | MonitorVm
  datatype FTCFailure = FailureNone | FailureAll | FailureVm
  datatype DistributionFamily = LogNormal | Weibull | Gamma | Normal

  /** `INVALID`, returned by the index queries on an uninitialised table. */
  const Invalid := -1

  /**
   * A failure sample generator: ascending cumulative failure instants and a
   * cursor into them that advances each time a failure is drawn.
   */
  class DistributionGenerator {
    const family: DistributionFamily
    var samples: seq<real>
    var cursor: nat

    constructor(family: DistributionFamily, samples: seq<real>)
      ensures this.family == family && this.samples == samples && cursor == 0
    {
      this.family := family;
      this.samples := samples;
      cursor := 0;
    }

    method GetNextSample()
      modifies this`cursor
      ensures cursor == old(cursor) + 1
    {
      cursor := cursor + 1;
    }
  }

  /** A row of the table: a Java array that may be null, of generators that may be null. */
  type Row = Option<seq<DistributionGenerator?>>
  /** The whole table: null until `init` supplies one. */
  type Table = Option<seq<Row>>

  /** `generators[vmIndex][taskDepth]`; None where Java throws (null array, index out of bounds). */
  function Lookup(g: Table, vmIndex: int, taskDepth: int): (r: Option<DistributionGenerator?>)
    ensures r.Some? <==>
      g.Some? && 0 <= vmIndex < |g.value| && g.value[vmIndex].Some?
      && 0 <= taskDepth < |g.value[vmIndex].value|
    ensures r.Some? ==> r.value == g.value[vmIndex].value[taskDepth]
  {
    if g.Some? && 0 <= vmIndex < |g.value| then
      match g.value[vmIndex]
      case None => None
      case Some(row) =>
        if 0 <= taskDepth < |row| then Some(row[taskDepth]) else None
    else None
  }

  /** The number of rows, or Invalid when the table is null or empty. */
  function MaxFirstIndexOf(g: Table): (r: int)
    ensures r == Invalid <==> g.None? || |g.value| == 0
    ensures r != Invalid ==> r == |g.value| && r > 0
  {
    if g.None? || |g.value| == 0 then Invalid else |g.value|
  }

  /**
   * `getFailureGeneratorsMaxSecondIndex` as written: the validity test's
   * result is discarded and `generators[0]` is read anyway, so a null or empty
   * table throws (None) instead of giving Invalid.
   */
  function MaxSecondIndexAsWrittenOf(g: Table): (r: Option<int>)
    ensures r.None? <==> g.None? || |g.value| == 0
    ensures r.Some? ==> (r.value == Invalid <==> g.value[0].None? || |g.value[0].value| == 0)
    ensures r.Some? && r.value != Invalid ==> r.value == |g.value[0].value|
  {
    if g.None? || |g.value| == 0 then None
    else if g.value[0].None? || |g.value[0].value| == 0 then Some(Invalid)
    else Some(|g.value[0].value|)
  }

  /** The evidently intended query: Invalid whenever the first dimension is invalid. */
  function MaxSecondIndexOf(g: Table): (r: int)
    ensures r == Invalid <==> (MaxFirstIndexOf(g) == Invalid || g.value[0].None? || |g.value[0].value| == 0)
    ensures r != Invalid ==> r == |g.value[0].value| && r > 0
  {
    if MaxFirstIndexOf(g) == Invalid then Invalid
    else if g.value[0].None? || |g.value[0].value| == 0 then Invalid
    else |g.value[0].value|
  }

  /** The two versions agree on every table except those the validity test rejects. */
  lemma MaxSecondIndexMatchesAsWrittenOnValidTables(g: Table)
    ensures MaxSecondIndexAsWrittenOf(g).Some? <==> MaxFirstIndexOf(g) != Invalid
    ensures MaxSecondIndexAsWrittenOf(g).Some? ==> MaxSecondIndexAsWrittenOf(g).value == MaxSecondIndexOf(g)
  {
  }

  /** The null table: the as-written query throws where Invalid was meant. */
  lemma MaxSecondIndexThrowsOnNullTable()
    ensures MaxSecondIndexAsWrittenOf(None).None?
    ensures MaxSecondIndexOf(None) == Invalid
  {
  }

  /** The parameters of the distribution `getDistribution` builds. */
  datatype RealDistribution =
    | LogNormalDistribution(scale: real, shape: real)
    | WeibullDistribution(alpha: real, beta: real)
    | GammaDistribution(shape: real, scale: real)
    | NormalDistribution(mean: real, sd: real)
  {
    function Family(): DistributionFamily
    {
      match this
      case LogNormalDistribution(_, _) => LogNormal
      case WeibullDistribution(_, _) => Weibull
      case GammaDistribution(_, _) => Gamma
      case NormalDistribution(_, _) => Normal
    }

    /** The parameter set from the rate: the scale, or the mean of the normal. */
    function RateParameter(): real
    {
      match this
      case LogNormalDistribution(scale, _) => scale
      case WeibullDistribution(_, beta) => beta
      case GammaDistribution(_, scale) => scale
      case NormalDistribution(mean, _) => mean
    }

    /** The other parameter: the shape, or the standard deviation of the normal. */
    function SpreadParameter(): real
    {
      match this
      case LogNormalDistribution(_, shape) => shape
      case WeibullDistribution(alpha, _) => alpha
      case GammaDistribution(shape, _) => shape
      case NormalDistribution(_, sd) => sd
    }
  }

  /**
   * `FailureGenerator.getDistribution(alpha, beta)`: a distribution of the
   * configured family whose scale (mean, for the normal) is 1/alpha and whose
   * shape (deviation, for the normal) is beta.
   */
  function GetDistribution(family: DistributionFamily, alpha: real, beta: real): (r: RealDistribution)
    requires alpha != 0.0
    ensures r.Family() == family
    ensures r.RateParameter() * alpha == 1.0
    ensures r.SpreadParameter() == beta
  {
    match family
    case LogNormal => LogNormalDistribution(1.0 / alpha, beta)
    case Weibull => WeibullDistribution(beta, 1.0 / alpha)
    case Gamma => GammaDistribution(beta, 1.0 / alpha)
    case Normal => NormalDistribution(1.0 / alpha, beta)
  }

  class FailureParameters {
    var monitorMode: FTCMonitor
    var failureMode: FTCFailure
    var distribution: DistributionFamily
    var generators: Table

    /** The static initialisers: no monitoring, no failures, Weibull, no table. */
    constructor()
      ensures monitorMode == MonitorNone && failureMode == FailureNone
      ensures distribution == Weibull && generators == None
    {
      monitorMode := MonitorNone;
      failureMode := FailureNone;
      distribution := Weibull;
      generators := None;
    }

    method Init(monitor: FTCMonitor, failure: FTCFailure, failureGenerators: Table)
      modifies this
      ensures monitorMode == monitor && failureMode == failure && generators == failureGenerators
      ensures distribution == old(distribution)
    {
      monitorMode := monitor;
      failureMode := failure;
      generators := failureGenerators;
    }

    method InitWithDistribution(monitor: FTCMonitor, failure: FTCFailure, failureGenerators: Table,
                                dist: DistributionFamily)
      modifies this
      ensures monitorMode == monitor && failureMode == failure && generators == failureGenerators
      ensures distribution == dist
    {
      distribution := dist;
      Init(monitor, failure, failureGenerators);
    }

    function GetGenerator(vmIndex: int, taskDepth: int): (r: Option<DistributionGenerator?>)
      reads this
      ensures r == Lookup(generators, vmIndex, taskDepth)
    {
      Lookup(generators, vmIndex, taskDepth)
    }

    function GetFailureGeneratorsMaxFirstIndex(): (r: int)
      reads this
      ensures r == Invalid <==> generators.None? || |generators.value| == 0
    {
      MaxFirstIndexOf(generators)
    }

    function GetFailureGeneratorsMaxSecondIndex(): (r: int)
      reads this
      ensures r == Invalid <==>
        (GetFailureGeneratorsMaxFirstIndex() == Invalid
         || generators.value[0].None? || |generators.value[0].value| == 0)
    {
      MaxSecondIndexOf(generators)
    }

    /**
     * The generator `checkFailureStatus` reads for a VM index, when reading it
     * neither throws nor yields null.
     */
    function SelectedGenerator(vmIndex: int): (r: Option<DistributionGenerator>)
      reads this`generators
      ensures r.Some? <==> Lookup(generators, vmIndex, 0).Some? && Lookup(generators, vmIndex, 0).value != null
      ensures r.Some? ==> r.value == Lookup(generators, vmIndex, 0).value
    {
      match Lookup(generators, vmIndex, 0)
      case None => None
      case Some(gen) => if gen == null then None else Some(gen as DistributionGenerator)
    }
  }
}
