/**
 * The solver around the finite-element solve: the parameter study that
 * re-solves the plate for a range of slot depths b or loads q, and the two
 * reshapings of the solve's results that the exported files use.
 *
 * The solve itself (mesh generation, stiffness, assembly, stress recovery)
 * is a call into foreign libraries. It is a parameter here: a function
 * `fem` from the input record to the nodal displacement vector and the mesh
 * topology that the solve produces for it.
 */
module Solvers {
  import opened Wrappers
  import opened DataTypes

  // ---------------------------------------------------------------------
  // The result reshapings
  // ---------------------------------------------------------------------

  /** A nodal displacement vector: an x and a y component for every node. */
  type DisplacementVector = a: seq<real> | |a| % 2 == 0 witness []

  /** What the foreign solve yields for one input record. */
  datatype FemSolution = FemSolution(a: DisplacementVector, topo: seq<seq<int>>)

  /** The displacement vector as one (x, y, 0) triple per node, in node order. */
  function Displacements(a: DisplacementVector): (r: seq<Vec3>)
    ensures |r| == |a| / 2
    ensures forall k :: 0 <= k < |r| ==> r[k].z == 0.0
  {
    seq(|a| / 2, k requires 0 <= k < |a| / 2 => Vec3(a[2 * k], a[2 * k + 1], 0.0))
  }

  /** The x and y components of each triple, one after the other. */
  function Flatten(vs: seq<Vec3>): (r: seq<real>)
    ensures |r| == 2 * |vs|
  {
    if vs == [] then [] else Flatten(vs[..|vs| - 1]) + [vs[|vs| - 1].x, vs[|vs| - 1].y]
  }

  /** Entry 2k of Flatten(vs) is the x of triple k and entry 2k+1 its y. */
  lemma {:induction false} FlattenAt(vs: seq<Vec3>, k: nat)
    requires k < |vs|
    ensures Flatten(vs)[2 * k] == vs[k].x && Flatten(vs)[2 * k + 1] == vs[k].y
    decreases |vs|
  {
    if k < |vs| - 1 {
      FlattenAt(vs[..|vs| - 1], k);
      assert vs[..|vs| - 1][k] == vs[k];
    }
  }

  /** Flattening the triples gives back the displacement vector they came from. */
  lemma {:induction false} FlattenDisplacements(a: DisplacementVector)
    ensures Flatten(Displacements(a)) == a
  {
    var vs := Displacements(a);
    forall i | 0 <= i < |a|
      ensures Flatten(vs)[i] == a[i]
    {
      FlattenAt(vs, i / 2);
    }
  }

  /** Triples with a zero z component are the displacements of their flattening. */
  lemma {:induction false} DisplacementsFlatten(vs: seq<Vec3>)
    requires forall k :: 0 <= k < |vs| ==> vs[k].z == 0.0
    ensures Displacements(Flatten(vs)) == vs
  {
    var f := Flatten(vs);
    assert |f| / 2 == |vs|;
    forall k | 0 <= k < |vs|
      ensures Displacements(f)[k] == vs[k]
    {
      FlattenAt(vs, k);
      assert Displacements(f)[k] == Vec3(f[2 * k], f[2 * k + 1], 0.0);
    }
  }

  /** Every node number of the topology lowered by one, polygon by polygon. */
  function ZeroBased(topo: seq<seq<int>>): (r: seq<seq<int>>)
    ensures |r| == |topo|
    ensures forall i :: 0 <= i < |topo| ==> |r[i]| == |topo[i]|
  {
    seq(|topo|, i requires 0 <= i < |topo| =>
      seq(|topo[i]|, j requires 0 <= j < |topo[i]| => topo[i][j] - 1))
  }

  /** Every node number of the topology raised by one. */
  function OneBased(polygons: seq<seq<int>>): seq<seq<int>>
  {
    seq(|polygons|, i requires 0 <= i < |polygons| =>
      seq(|polygons[i]|, j requires 0 <= j < |polygons[i]| => polygons[i][j] + 1))
  }

  /** Lowering the node numbers loses nothing: raising them again gives the topology back. */
  lemma ZeroBasedRoundTrip(topo: seq<seq<int>>)
    ensures OneBased(ZeroBased(topo)) == topo
  {
    var r := OneBased(ZeroBased(topo));
    forall i | 0 <= i < |topo|
      ensures r[i] == topo[i]
    {
      assert |r[i]| == |topo[i]|;
    }
  }

  /**
   * A topology numbering the nodes 1..n becomes one whose polygons index a
   * list of n points from 0: every node number is then in 0..n-1.
   */
  lemma ZeroBasedIndexesPoints(topo: seq<seq<int>>, n: nat)
    requires forall i, j :: 0 <= i < |topo| && 0 <= j < |topo[i]| ==> 1 <= topo[i][j] <= n
    ensures forall i, j :: 0 <= i < |topo| && 0 <= j < |topo[i]| ==> 0 <= ZeroBased(topo)[i][j] < n
  {
  }

  // ---------------------------------------------------------------------
  // The evenly spaced range
  // ---------------------------------------------------------------------

  /**
   * num values from start to stop, both included, evenly spaced: value i is
   * start plus i steps of (stop - start) / (num - 1), and the last value is
   * exactly stop. With one value it is start; with none the range is empty.
   */
  function Linspace(start: real, stop: real, num: nat): (r: seq<real>)
    ensures |r| == num
  {
    if num <= 1 then seq(num, _ => start)
    else
      var step := Spacing(start, stop, num);
      seq(num, i requires 0 <= i < num => if i == num - 1 then stop else start + (i as real) * step)
  }

  /** The distance between neighbouring values of Linspace(start, stop, num). */
  function Spacing(start: real, stop: real, num: nat): real
    requires num >= 2
  {
    (stop - start) / ((num - 1) as real)
  }

  /**
   * The range starts at start, ends at stop, and neighbouring values are
   * one spacing apart; every value is start plus a whole number of spacings.
   */
  lemma LinspaceEvenlySpaced(start: real, stop: real, num: nat)
    requires num >= 2
    ensures Linspace(start, stop, num)[0] == start
    ensures Linspace(start, stop, num)[num - 1] == stop
    ensures forall i :: 0 <= i < num ==>
      Linspace(start, stop, num)[i] == start + (i as real) * Spacing(start, stop, num)
    ensures forall i :: 0 <= i < num - 1 ==>
      Linspace(start, stop, num)[i + 1] - Linspace(start, stop, num)[i] == Spacing(start, stop, num)
  {
    var step := Spacing(start, stop, num);
    assert ((num - 1) as real) * step == stop - start;
  }

  /** Every value of the range lies between its two ends. */
  lemma LinspaceBetweenEnds(start: real, stop: real, num: nat, i: nat)
    requires i < num
    ensures start <= stop ==> start <= Linspace(start, stop, num)[i] <= stop
    ensures stop <= start ==> stop <= Linspace(start, stop, num)[i] <= start
  {
    if num >= 2 {
      LinspaceEvenlySpaced(start, stop, num);
      var step := Spacing(start, stop, num);
      var m := (num - 1) as real;
      SpacingSpansRange(start, stop, m);
      BetweenEnds(start, stop, i as real, m, step);
    }
  }

  /** m spacings of (stop - start) / m make up the whole range. */
  lemma SpacingSpansRange(start: real, stop: real, m: real)
    requires m > 0.0
    ensures m * ((stop - start) / m) == stop - start
  {
  }

  /** k of m steps that together span start to stop end up between the two. */
  lemma BetweenEnds(start: real, stop: real, k: real, m: real, step: real)
    requires 0.0 <= k <= m && m > 0.0 && m * step == stop - start
    ensures start <= stop ==> start <= start + k * step <= stop
    ensures stop <= start ==> stop <= start + k * step <= start
  {
    if start <= stop {
      assert step >= 0.0;
      MulMonotone(k, m, step);
    } else {
      assert step <= 0.0;
      MulMonotone(k, m, -step);
      assert k * -step == -(k * step) && m * -step == -(m * step);
    }
  }

  /** Between 0 and m, multiplying by a non-negative factor keeps the order. */
  lemma MulMonotone(k: real, m: real, c: real)
    requires 0.0 <= k <= m && 0.0 <= c
    ensures 0.0 <= k * c <= m * c
  {
  }

  /** A range from a lower start to a higher stop increases strictly. */
  lemma LinspaceIncreasing(start: real, stop: real, num: nat, i: nat, j: nat)
    requires start < stop && i < j < num
    ensures Linspace(start, stop, num)[i] < Linspace(start, stop, num)[j]
  {
    LinspaceEvenlySpaced(start, stop, num);
    var step := Spacing(start, stop, num);
    assert step > 0.0;
    var x, y := i as real, j as real;
    MulPositive(y - x, step);
    var gap := (y - x) * step;
    assert gap > 0.0;
    assert Linspace(start, stop, num)[j] == Linspace(start, stop, num)[i] + gap;
  }

  /** A range from a higher start to a lower stop decreases strictly. */
  lemma LinspaceDecreasing(start: real, stop: real, num: nat, i: nat, j: nat)
    requires stop < start && i < j < num
    ensures Linspace(start, stop, num)[j] < Linspace(start, stop, num)[i]
  {
    LinspaceEvenlySpaced(start, stop, num);
    var step := Spacing(start, stop, num);
    assert step < 0.0;
    var x, y := i as real, j as real;
    MulPositive(y - x, -step);
    var gap := (y - x) * -step;
    assert gap > 0.0;
    assert Linspace(start, stop, num)[j] == Linspace(start, stop, num)[i] - gap;
  }

  lemma MulPositive(x: real, y: real)
    requires x > 0.0 && y > 0.0
    ensures x * y > 0.0
  {
  }

  // ---------------------------------------------------------------------
  // The step file names
  // ---------------------------------------------------------------------

  /** The decimal digit of d. */
  function Digit(d: nat): char
    requires d < 10
  {
    "0123456789"[d]
  }

  /** The value of decimal digit c, or 0 for any other character. */
  function DigitValue(c: char): nat
  {
    if '0' <= c <= '9' then (c - '0') as nat else 0
  }

  /** The decimal representation of n, without leading zeros. */
  function Decimal(n: nat): (r: string)
    ensures |r| >= 1
    decreases n
  {
    if n < 10 then [Digit(n)] else Decimal(n / 10) + [Digit(n % 10)]
  }

  /** The number a string of decimal digits denotes. */
  function DecimalValue(s: string): nat
    decreases |s|
  {
    if s == [] then 0 else 10 * DecimalValue(s[..|s| - 1]) + DigitValue(s[|s| - 1])
  }

  /** Reading back the decimal representation of n gives n. */
  lemma {:induction false} DecimalRoundTrip(n: nat)
    ensures DecimalValue(Decimal(n)) == n
    decreases n
  {
    if n >= 10 {
      DecimalRoundTrip(n / 10);
      var s := Decimal(n);
      assert s[..|s| - 1] == Decimal(n / 10);
    }
  }

  /** A number has one decimal digit exactly when it is below ten, and a positive one has no leading zero. */
  lemma {:induction false} DecimalShape(n: nat)
    ensures |Decimal(n)| == 1 <==> n < 10
    ensures n >= 1 ==> Decimal(n)[0] != '0'
    decreases n
  {
    if n >= 10 {
      DecimalShape(n / 10);
    }
  }

  /** The step tag of the counter-th step (from 0): its number from 1, padded to two digits. */
  function StepTag(counter: nat): string
  {
    if counter < 9 then "0" + Decimal(counter + 1) else Decimal(counter + 1)
  }

  /** Different numbers have different decimal representations. */
  lemma DecimalInjective(m: nat, n: nat)
    requires Decimal(m) == Decimal(n)
    ensures m == n
  {
    DecimalRoundTrip(m);
    DecimalRoundTrip(n);
  }

  /** Steps 1 to 99 get a two-digit tag. */
  lemma StepTagTwoDigits(c: nat)
    requires c < 99
    ensures |StepTag(c)| == 2
  {
    DecimalShape(c + 1);
    if c >= 9 {
      DecimalShape((c + 1) / 10);
      assert |Decimal(c + 1)| == |Decimal((c + 1) / 10)| + 1;
    }
  }

  /** Different steps get different tags. */
  lemma StepTagsDistinct(c1: nat, c2: nat)
    requires StepTag(c1) == StepTag(c2)
    ensures c1 == c2
  {
    if c1 < 9 && c2 < 9 {
      assert Decimal(c1 + 1) == StepTag(c1)[1..];
      assert Decimal(c2 + 1) == StepTag(c2)[1..];
      DecimalInjective(c1 + 1, c2 + 1);
    } else if c1 < 9 {
      DecimalShape(c2 + 1);
      assert false;
    } else if c2 < 9 {
      DecimalShape(c1 + 1);
      assert false;
    } else {
      DecimalInjective(c1 + 1, c2 + 1);
    }
  }

  /** The two studies: over the slot depth b, or over the load q. */
  datatype Study = BStudy | QStudy

  /** The directory and file-name stem each study writes to. */
  function StudyPrefix(study: Study): string
  {
    match study
    case BStudy => "vtks/bParam/paramStudy_01_"
    case QStudy => "vtks/qParam/paramStudy_02_"
  }

  /** The file the counter-th step (from 0) of a study is exported to. */
  function StepFileName(study: Study, counter: nat): string
  {
    StudyPrefix(study) + StepTag(counter) + ".vtk"
  }

  /** Two steps are exported to the same file only when they are the same step of the same study. */
  lemma StepFileNamesDistinct(s1: Study, c1: nat, s2: Study, c2: nat)
    requires StepFileName(s1, c1) == StepFileName(s2, c2)
    ensures s1 == s2 && c1 == c2
  {
    var n1, n2 := StepFileName(s1, c1), StepFileName(s2, c2);
    assert n1[5] == StudyPrefix(s1)[5] && n2[5] == StudyPrefix(s2)[5];
    var p := |StudyPrefix(s1)|;
    assert StepTag(c1) == n1[p..|n1| - 4] && StepTag(c2) == n2[p..|n2| - 4];
    StepTagsDistinct(c1, c2);
  }

  /** Step 3 of the b-study and step 12 of the q-study, as the program names them. */
  lemma StepFileNameExamples()
    ensures StepFileName(BStudy, 2) == "vtks/bParam/paramStudy_01_03.vtk"
    ensures StepFileName(QStudy, 11) == "vtks/qParam/paramStudy_02_12.vtk"
  {
    assert Decimal(3) == "3";
    assert Decimal(12) == Decimal(1) + [Digit(2)];
  }

  // ---------------------------------------------------------------------
  // The parameter study, as a specification
  // ---------------------------------------------------------------------

  /** What the solver did, in order: a solve for an input, or an export to a file. */
  datatype Event =
    | Solved(input: Params)
    | Exported(fileName: string, displ: seq<Vec3>, polygons: seq<seq<int>>)

  /** The study the input asks for; a b-study wins when both are asked for. */
  function ChosenStudy(s: Params): Option<Study>
  {
    if s.paramb then Some(BStudy) else if s.paramq then Some(QStudy) else None
  }

  /** The values a study sweeps: paramSteps values from its start to its end. */
  function StudyRange(s: Params, study: Study): seq<real>
    requires s.paramSteps >= 0
  {
    match study
    case BStudy => Linspace(s.bstart, s.bend, s.paramSteps)
    case QStudy => Linspace(s.qstart, s.qend, s.paramSteps)
  }

  /** The input of the study's step with value x: b or q set to x. */
  function StudyPoint(s: Params, study: Study, x: real): Params
  {
    match study
    case BStudy => s.(b := x)
    case QStudy => s.(q := x)
  }

  /** The two events of one step: solving for the step's input, then exporting its results. */
  function StepEvents(fem: Params -> FemSolution, s: Params, study: Study, counter: nat, x: real): seq<Event>
  {
    var p := StudyPoint(s, study, x);
    [Solved(p), Exported(StepFileName(study, counter), Displacements(fem(p).a), ZeroBased(fem(p).topo))]
  }

  /** The events of a study over values: step k's two events are events 2k and 2k + 1. */
  function SweepTrace(fem: Params -> FemSolution, s: Params, study: Study, values: seq<real>): (r: seq<Event>)
    ensures |r| == 2 * |values|
  {
    seq(2 * |values|, i requires 0 <= i < 2 * |values| => StepEvents(fem, s, study, i / 2, values[i / 2])[i % 2])
  }

  /**
   * A study over values makes exactly one solve and one export per value, in
   * the order of the values: event 2k solves for the input with b (or q) set
   * to value k, event 2k+1 exports that solve's results to step k's file.
   */
  lemma SweepTraceAt(fem: Params -> FemSolution, s: Params, study: Study, values: seq<real>, k: nat)
    requires k < |values|
    ensures var p := StudyPoint(s, study, values[k]);
      && SweepTrace(fem, s, study, values)[2 * k] == Solved(p)
      && SweepTrace(fem, s, study, values)[2 * k + 1] ==
           Exported(StepFileName(study, k), Displacements(fem(p).a), ZeroBased(fem(p).topo))
  {
    assert (2 * k) / 2 == k && (2 * k) % 2 == 0;
    assert (2 * k + 1) / 2 == k && (2 * k + 1) % 2 == 1;
  }

  /** One more step appends that step's two events. */
  lemma SweepTraceStep(fem: Params -> FemSolution, s: Params, study: Study, values: seq<real>, counter: nat)
    requires counter < |values|
    ensures SweepTrace(fem, s, study, values[..counter + 1]) ==
      SweepTrace(fem, s, study, values[..counter]) + StepEvents(fem, s, study, counter, values[counter])
  {
    var longer := SweepTrace(fem, s, study, values[..counter + 1]);
    var shorter := SweepTrace(fem, s, study, values[..counter]);
    var last := StepEvents(fem, s, study, counter, values[counter]);
    forall i | 0 <= i < |longer| ensures longer[i] == (shorter + last)[i] {
      if i < 2 * counter {
        assert values[..counter + 1][i / 2] == values[..counter][i / 2];
      } else {
        assert i / 2 == counter && i % 2 == i - 2 * counter;
      }
    }
  }

  /** A b-study never solves for a changed q, and a q-study never for a changed b. */
  lemma SweepTouchesOnlyItsParameter(fem: Params -> FemSolution, s: Params, study: Study, values: seq<real>, k: nat)
    requires k < |values|
    ensures var e := SweepTrace(fem, s, study, values)[2 * k];
      && e.Solved?
      && e.input.(b := s.b, q := s.q) == s
      && (study == BStudy ==> e.input.q == s.q && e.input.b == values[k])
      && (study == QStudy ==> e.input.b == s.b && e.input.q == values[k])
  {
    SweepTraceAt(fem, s, study, values, k);
  }

  /** Why a study could not run. */
  datatype StudyError = NegativeSteps(steps: int)

  /** What a study over the input s does: nothing, fail before starting, or sweep a range. */
  datatype Plan = NoStudy | Rejected(error: StudyError) | Sweep(study: Study, values: seq<real>)

  function PlanOf(s: Params): (r: Plan)
    ensures r.NoStudy? <==> !s.paramb && !s.paramq
    ensures r.Rejected? <==> (s.paramb || s.paramq) && s.paramSteps < 0
    ensures r.Sweep? ==> r.study == (if s.paramb then BStudy else QStudy) && |r.values| == s.paramSteps
  {
    match ChosenStudy(s)
    case None => NoStudy
    case Some(study) =>
      if s.paramSteps < 0 then Rejected(NegativeSteps(s.paramSteps)) else Sweep(study, StudyRange(s, study))
  }

  // ---------------------------------------------------------------------
  // The solver
  // ---------------------------------------------------------------------

  lemma AppendAssoc<T>(a: seq<T>, b: seq<T>, c: seq<T>)
    ensures (a + b) + c == a + (b + c)
  {
  }

  /** The output record holds the results of solving for p. */
  predicate HoldsResultsFor(output: OutputData, fem: Params -> FemSolution, p: Params)
    reads output
  {
    && output.solvedFor == Some(p)
    && output.displ == Some(Displacements(fem(p).a))
    && output.topo == Some(fem(p).topo)
  }

  class Solver {
    const input: InputData
    const output: OutputData
    /** The foreign solve: what it yields for each input record. */
    const fem: Params -> FemSolution
    /** The solves and exports performed so far, oldest first. */
    var trace: seq<Event>

    constructor (input: InputData, output: OutputData, fem: Params -> FemSolution)
      ensures this.input == input && this.output == output && this.fem == fem
      ensures trace == []
    {
      this.input := input;
      this.output := output;
      this.fem := fem;
      trace := [];
    }

    /**
     * Solves for the current input and stores the results; the nodal
     * displacements are stored as (x, y, 0) triples.
     */
    method Execute()
      modifies this, output
      ensures HoldsResultsFor(output, fem, input.params)
      ensures trace == old(trace) + [Solved(input.params)]
    {
      var solution := fem(input.params);
      output.solvedFor := Some(input.params);
      output.topo := Some(solution.topo);
      output.displ := Some(Displacements(solution.a));
      trace := trace + [Solved(input.params)];
    }

    /**
     * Exports the stored results to fileName: the displacements as they are
     * and the polygons of the mesh with node numbers counted from 0.
     */
    method ExportVtk(fileName: string)
      requires output.displ.Some? && output.topo.Some?
      modifies this
      ensures trace == old(trace) + [Exported(fileName, output.displ.value, ZeroBased(output.topo.value))]
    {
      var polygons := ZeroBased(output.topo.value);
      trace := trace + [Exported(fileName, output.displ.value, polygons)];
    }

    /**
     * Runs the study the input asks for, then restores b and q. A b-study
     * solves and exports once per value of the range from bstart to bend,
     * with b set to that value; a q-study does the same for q. A negative
     * step count fails before anything is changed.
     */
    method ExecuteParamStudy() returns (r: Outcome<StudyError>)
      modifies this, input, output
      ensures input.params == old(input.params)
      ensures match PlanOf(old(input.params))
        case NoStudy => r == Pass && trace == old(trace) && unchanged(output)
        case Rejected(e) => r == Fail(e) && trace == old(trace) && unchanged(output)
        case Sweep(study, values) =>
          && r == Pass
          && trace == old(trace) + SweepTrace(fem, old(input.params), study, values)
          && (values == [] ==> unchanged(output))
          && (values != [] ==> HoldsResultsFor(output, fem, StudyPoint(old(input.params), study, values[|values| - 1])))
    {
      var oldB, oldQ := input.params.b, input.params.q;
      var plan := PlanOf(input.params);
      if plan.Rejected? {
        return Fail(plan.error);
      }
      if plan.Sweep? {
        Sweep(plan.study, plan.values);
      }
      input.params := input.params.(b := oldB, q := oldQ);
      r := Pass;
    }

    /**
     * The loop of a study: for each value in order, sets b (or q) to it,
     * solves, and exports to the step's file.
     */
    method Sweep(study: Study, values: seq<real>)
      modifies this, input, output
      ensures trace == old(trace) + SweepTrace(fem, old(input.params), study, values)
      ensures values == [] ==> input.params == old(input.params) && unchanged(output)
      ensures values != [] ==>
        && input.params == StudyPoint(old(input.params), study, values[|values| - 1])
        && HoldsResultsFor(output, fem, input.params)
    {
      ghost var s := input.params;
      for counter := 0 to |values|
        invariant trace == old(trace) + SweepTrace(fem, s, study, values[..counter])
        invariant counter == 0 ==> input.params == s && unchanged(output)
        invariant counter > 0 ==>
          && input.params == StudyPoint(s, study, values[counter - 1])
          && HoldsResultsFor(output, fem, input.params)
      {
        var x := values[counter];
        assert StudyPoint(input.params, study, x) == StudyPoint(s, study, x);
        RunStep(study, counter, x);
        SweepTraceStep(fem, s, study, values, counter);
        AppendAssoc(old(trace), SweepTrace(fem, s, study, values[..counter]), StepEvents(fem, s, study, counter, x));
      }
      assert values[..|values|] == values;
    }

    /** One step of a study: sets b (or q) to x, solves, and exports to the step's file. */
    method RunStep(study: Study, counter: nat, x: real)
      modifies this, input, output
      ensures input.params == StudyPoint(old(input.params), study, x)
      ensures HoldsResultsFor(output, fem, input.params)
      ensures trace == old(trace) + StepEvents(fem, old(input.params), study, counter, x)
    {
      match study {
        case BStudy => input.params := input.params.(b := x);
        case QStudy => input.params := input.params.(q := x);
      }
      Execute();
      ExportVtk(StepFileName(study, counter));
    }
  }
}
