/**
 * The main window's part in a run: reading the edit boxes into the input
 * record, checking the input against the rules of the model, and the three
 * fatal-error flags that decide whether a solve, a save or a parameter
 * study may go ahead. The window's widgets are not modelled; what the user
 * typed reaches each handler as a Form.
 */
module UserInterface {
  import opened Wrappers
  import opened DataTypes
  import opened Solvers

  // ---------------------------------------------------------------------
  // The controls
  // ---------------------------------------------------------------------

  /** The edit boxes the form update reads. */
  datatype TextField =
    | WText | HText | AText | BText | TText | EText | VText | QText
    | ElSizeText | BendText | QendText

  /** The order in which the form update reads the edit boxes. */
  const FormOrder: seq<TextField> :=
    [WText, HText, AText, BText, TText, EText, VText, QText, ElSizeText, BendText, QendText]

  /**
   * What the window's controls hold. An edit box holds the number its text
   * denotes, or None when the text is not a number. The step count comes
   * from a spin box, which always holds an integer. bChecked and qChecked
   * are the radio buttons that choose the study.
   */
  datatype Form = Form(
    w: Option<real>, h: Option<real>, a: Option<real>, b: Option<real>,
    t: Option<real>, E: Option<real>, v: Option<real>, q: Option<real>,
    elSize: Option<real>, bend: Option<real>, qend: Option<real>,
    steps: int,
    bChecked: bool, qChecked: bool)

  /** The number in edit box f, if its text is one. */
  function Entry(form: Form, f: TextField): Option<real>
  {
    match f
    case WText => form.w
    case HText => form.h
    case AText => form.a
    case BText => form.b
    case TText => form.t
    case EText => form.E
    case VText => form.v
    case QText => form.q
    case ElSizeText => form.elSize
    case BendText => form.bend
    case QendText => form.qend
  }

  /** Every edit box holds a number. */
  predicate AllNumbers(form: Form)
  {
    forall f: TextField :: Entry(form, f).Some?
  }

  /** Where box f comes in FormOrder. */
  function Index(f: TextField): (i: nat)
    ensures i < |FormOrder| && FormOrder[i] == f
  {
    match f
    case WText => 0
    case HText => 1
    case AText => 2
    case BText => 3
    case TText => 4
    case EText => 5
    case VText => 6
    case QText => 7
    case ElSizeText => 8
    case BendText => 9
    case QendText => 10
  }

  /**
   * The attribute the form update writes from box f, as it stands in s.
   * Box ElSizeText is written to elSize, which is None until the first
   * update; the mesher's elSizeFactor is never written from the form.
   */
  function Current(s: Params, f: TextField): Option<real>
  {
    match f
    case WText => Some(s.w)
    case HText => Some(s.h)
    case AText => Some(s.a)
    case BText => Some(s.b)
    case TText => Some(s.t)
    case EText => Some(s.E)
    case VText => Some(s.v)
    case QText => Some(s.q)
    case ElSizeText => s.elSize
    case BendText => Some(s.bend)
    case QendText => Some(s.qend)
  }

  /** Record s after the attribute of box f is assigned x. */
  function Assign(s: Params, f: TextField, x: real): Params
  {
    match f
    case WText => s.(w := x)
    case HText => s.(h := x)
    case AText => s.(a := x)
    case BText => s.(b := x)
    case TText => s.(t := x)
    case EText => s.(E := x)
    case VText => s.(v := x)
    case QText => s.(q := x)
    case ElSizeText => s.(elSize := Some(x))
    case BendText => s.(bend := x)
    case QendText => s.(qend := x)
  }

  /** The attributes the form update never writes. */
  function Unwritten(s: Params): (int, real, bool, bool, real, real, string, int)
  {
    (s.version, s.elSizeFactor, s.paramb, s.paramq, s.bstart, s.qstart, s.paramFileName, s.elType)
  }

  /** Assigning box f's attribute changes that attribute and no other. */
  lemma AssignSetsOneField(s: Params, f: TextField, x: real, f': TextField)
    ensures Current(Assign(s, f, x), f') == if f' == f then Some(x) else Current(s, f')
    ensures Unwritten(Assign(s, f, x)) == Unwritten(s)
    ensures Assign(s, f, x).paramSteps == s.paramSteps
  {
  }

  // ---------------------------------------------------------------------
  // The form update
  // ---------------------------------------------------------------------

  /** How many of fields, from the first, hold numbers before one does not. */
  function ParsedCount(form: Form, fields: seq<TextField>): (n: nat)
    ensures n <= |fields|
    ensures forall i :: 0 <= i < n ==> Entry(form, fields[i]).Some?
    ensures n < |fields| ==> Entry(form, fields[n]).None?
    decreases |fields|
  {
    if fields == [] || Entry(form, fields[0]).None? then 0 else 1 + ParsedCount(form, fields[1..])
  }

  /** Record s after fields are assigned in order, up to the first that does not hold a number. */
  function AssignFields(s: Params, form: Form, fields: seq<TextField>): Params
    decreases |fields|
  {
    if fields == [] || Entry(form, fields[0]).None? then s
    else AssignFields(Assign(s, fields[0], Entry(form, fields[0]).value), form, fields[1..])
  }

  /**
   * Record s after the form update: the boxes are read in FormOrder, up to
   * the first that does not hold a number; the step count is assigned last,
   * so only when every box held a number.
   */
  function Updated(s: Params, form: Form): Params
  {
    var p := AssignFields(s, form, FormOrder);
    if ParsedCount(form, FormOrder) == |FormOrder| then p.(paramSteps := form.steps) else p
  }

  /** A box that is not among those read keeps its attribute. */
  lemma {:induction false} AssignFieldsLeavesOthers(s: Params, form: Form, fields: seq<TextField>, f: TextField)
    requires f !in fields
    ensures Current(AssignFields(s, form, fields), f) == Current(s, f)
    decreases |fields|
  {
    if fields != [] && Entry(form, fields[0]).Some? {
      AssignSetsOneField(s, fields[0], Entry(form, fields[0]).value, f);
      AssignFieldsLeavesOthers(Assign(s, fields[0], Entry(form, fields[0]).value), form, fields[1..], f);
    }
  }

  /** Assigning boxes never changes the attributes the form update does not write. */
  lemma {:induction false} UnwrittenKept(s: Params, form: Form, fields: seq<TextField>)
    ensures Unwritten(AssignFields(s, form, fields)) == Unwritten(s)
    ensures AssignFields(s, form, fields).paramSteps == s.paramSteps
    decreases |fields|
  {
    if fields != [] && Entry(form, fields[0]).Some? {
      AssignSetsOneField(s, fields[0], Entry(form, fields[0]).value, fields[0]);
      UnwrittenKept(Assign(s, fields[0], Entry(form, fields[0]).value), form, fields[1..]);
    }
  }

  /**
   * Assigning distinct boxes in order: the i-th box's attribute holds the
   * box's number when it comes before the first box without one, and keeps
   * its old value otherwise.
   */
  lemma {:induction false} AssignFieldsAt(s: Params, form: Form, fields: seq<TextField>, i: nat)
    requires forall p, q :: 0 <= p < q < |fields| ==> fields[p] != fields[q]
    requires i < |fields|
    ensures i < ParsedCount(form, fields) ==>
      Current(AssignFields(s, form, fields), fields[i]) == Entry(form, fields[i])
    ensures ParsedCount(form, fields) <= i ==>
      Current(AssignFields(s, form, fields), fields[i]) == Current(s, fields[i])
    decreases |fields|
  {
    if Entry(form, fields[0]).Some? {
      var s' := Assign(s, fields[0], Entry(form, fields[0]).value);
      AssignSetsOneField(s, fields[0], Entry(form, fields[0]).value, fields[i]);
      if i == 0 {
        assert fields[0] !in fields[1..] by {
          forall j | 0 <= j < |fields[1..]| ensures fields[1..][j] != fields[0] {
            assert fields[1..][j] == fields[j + 1];
          }
        }
        AssignFieldsLeavesOthers(s', form, fields[1..], fields[0]);
      } else {
        AssignFieldsAt(s', form, fields[1..], i - 1);
        assert fields[1..][i - 1] == fields[i];
      }
    }
  }

  /** FormOrder lists eleven different boxes. */
  lemma FormOrderDistinct()
    ensures forall p, q :: 0 <= p < q < |FormOrder| ==> FormOrder[p] != FormOrder[q]
  {
  }

  /** The update reads every box exactly when every box holds a number. */
  lemma WholeFormRead(form: Form)
    ensures ParsedCount(form, FormOrder) == |FormOrder| <==> AllNumbers(form)
  {
    var n := ParsedCount(form, FormOrder);
    if n == |FormOrder| {
      forall f: TextField ensures Entry(form, f).Some? {
        assert FormOrder[Index(f)] == f;
      }
    }
  }

  /**
   * The form update is a partial update: the attributes of the boxes before
   * the first box without a number get the boxes' numbers, and those of the
   * later boxes keep their old values.
   */
  lemma UpdateStopsAtFirstNonNumber(s: Params, form: Form, i: nat)
    requires i < |FormOrder|
    ensures var n, u := ParsedCount(form, FormOrder), Updated(s, form);
      && (i < n ==> Current(u, FormOrder[i]) == Entry(form, FormOrder[i]))
      && (n <= i ==> Current(u, FormOrder[i]) == Current(s, FormOrder[i]))
  {
    FormOrderDistinct();
    AssignFieldsAt(s, form, FormOrder, i);
    StepsKeepCurrent(AssignFields(s, form, FormOrder), form.steps, FormOrder[i]);
  }

  /** Setting the step count changes no attribute that a box writes. */
  lemma StepsKeepCurrent(s: Params, k: int, f: TextField)
    ensures Current(s.(paramSteps := k), f) == Current(s, f)
  {
  }

  /**
   * The form update changes the step count only when every box held a
   * number, and never touches the attributes the form does not hold (among
   * them the mesher's elSizeFactor).
   */
  lemma UpdateLeavesUnwritten(s: Params, form: Form)
    ensures Unwritten(Updated(s, form)) == Unwritten(s)
    ensures Updated(s, form).paramSteps == if AllNumbers(form) then form.steps else s.paramSteps
  {
    UnwrittenKept(s, form, FormOrder);
    WholeFormRead(form);
  }

  /** When every box holds a number, each attribute the form writes ends up holding its box's number. */
  lemma FullUpdateFields(s: Params, form: Form, f: TextField)
    requires AllNumbers(form)
    ensures Current(Updated(s, form), f) == Entry(form, f)
  {
    WholeFormRead(form);
    UpdateStopsAtFirstNonNumber(s, form, Index(f));
  }

  /** A record is determined by the attributes the form writes and those it does not. */
  lemma CurrentDeterminesRecord(s: Params, s': Params)
    requires forall f: TextField :: Current(s, f) == Current(s', f)
    requires Unwritten(s) == Unwritten(s') && s.paramSteps == s'.paramSteps
    ensures s == s'
  {
    assert Current(s, WText) == Current(s', WText);
    assert Current(s, HText) == Current(s', HText);
    assert Current(s, AText) == Current(s', AText);
    assert Current(s, BText) == Current(s', BText);
    assert Current(s, TText) == Current(s', TText);
    assert Current(s, EText) == Current(s', EText);
    assert Current(s, VText) == Current(s', VText);
    assert Current(s, QText) == Current(s', QText);
    assert Current(s, ElSizeText) == Current(s', ElSizeText);
    assert Current(s, BendText) == Current(s', BendText);
    assert Current(s, QendText) == Current(s', QendText);
  }

  /** Updating twice from a form of numbers gives what updating once gives. */
  lemma UpdateIdempotent(s: Params, form: Form)
    requires AllNumbers(form)
    ensures Updated(Updated(s, form), form) == Updated(s, form)
  {
    var u := Updated(s, form);
    forall f: TextField ensures Current(Updated(u, form), f) == Current(u, f) {
      FullUpdateFields(s, form, f);
      FullUpdateFields(u, form, f);
    }
    UpdateLeavesUnwritten(s, form);
    UpdateLeavesUnwritten(u, form);
    CurrentDeterminesRecord(Updated(u, form), u);
  }

  /**
   * The boxes as the window fills them from record s: each box shows its
   * attribute, except the element size box, which shows elSizeFactor.
   */
  function Controls(s: Params, form: Form): Form
  {
    form.(w := Some(s.w), h := Some(s.h), a := Some(s.a), b := Some(s.b),
          t := Some(s.t), E := Some(s.E), v := Some(s.v), q := Some(s.q),
          elSize := Some(s.elSizeFactor), bend := Some(s.bend), qend := Some(s.qend),
          steps := s.paramSteps)
  }

  /**
   * Updating from controls filled from s and left alone changes nothing but
   * elSize, which gets a copy of elSizeFactor.
   */
  lemma UpdateFromControls(s: Params, form: Form)
    ensures Updated(s, Controls(s, form)) == s.(elSize := Some(s.elSizeFactor))
  {
    var c := Controls(s, form);
    var e := s.(elSize := Some(s.elSizeFactor));
    var u := Updated(s, c);
    forall f: TextField ensures Current(u, f) == Current(e, f) {
      ControlsFieldRead(s, form, f);
    }
    ControlsHoldNumbers(s, form);
    UpdateLeavesUnwritten(s, c);
    CurrentDeterminesRecord(u, e);
  }

  /**
   * Updating from controls filled from s gives box f's attribute the value
   * it had, except that elSize gets elSizeFactor.
   */
  lemma ControlsFieldRead(s: Params, form: Form, f: TextField)
    ensures Current(Updated(s, Controls(s, form)), f) == Current(s.(elSize := Some(s.elSizeFactor)), f)
  {
    ControlsHoldNumbers(s, form);
    FullUpdateFields(s, Controls(s, form), f);
  }

  /** Every box filled from a record holds a number. */
  lemma ControlsHoldNumbers(s: Params, form: Form)
    ensures AllNumbers(Controls(s, form))
  {
    forall f: TextField ensures Entry(Controls(s, form), f).Some? {
    }
  }

  // ---------------------------------------------------------------------
  // The input check
  // ---------------------------------------------------------------------

  /**
   * The input is not fit to compute with: a length (w, h, a, b, t or the end
   * of the b range) is zero or negative, Poisson's ratio lies outside
   * [-1, 0.5], or the slot depth b reaches half the height.
   */
  predicate CalcInputsRejected(s: Params)
  {
    || s.w <= 0.0 || s.h <= 0.0 || s.a <= 0.0 || s.b <= 0.0 || s.t <= 0.0 || s.bend <= 0.0
    || s.v < -1.0 || s.v > 0.5
    || s.b >= s.h / 2.0
  }

  /** The end of the b range is zero or negative, or reaches half the height. */
  predicate BendRejected(s: Params)
  {
    s.bend <= 0.0 || s.bend >= s.h / 2.0
  }

  /** The lengths the check requires to be positive, the end of the b range last. */
  function Lengths(s: Params): (r: seq<real>)
    ensures |r| == 6 && r[BendIndex] == s.bend
  {
    [s.w, s.h, s.a, s.b, s.t, s.bend]
  }

  const BendIndex := 5

  /** The fatal-error flags of the window. */
  datatype Flags = Flags(calcInputs: bool, bendInput: bool, textInput: bool)
  {
    /** Some flag is raised. */
    predicate AnyFatal()
    {
      calcInputs || bendInput || textInput
    }
  }

  /** The flags after the input check of s: the text flag stays as it was. */
  function Validated(s: Params, f: Flags): Flags
  {
    f.(calcInputs := CalcInputsRejected(s), bendInput := BendRejected(s))
  }

  /** The flags after the form update over s and the input check that follows it. */
  function AfterUpdate(s: Params, form: Form, f: Flags): Flags
  {
    Validated(Updated(s, form), f.(textInput := !AllNumbers(form)))
  }

  /** An input the model can compute with, stated as the ranges each attribute must lie in. */
  predicate Computable(s: Params)
  {
    && 0.0 < s.w && 0.0 < s.h && 0.0 < s.a && 0.0 < s.t
    && 0.0 < s.b < s.h / 2.0
    && 0.0 < s.bend < s.h / 2.0
    && -1.0 <= s.v <= 0.5
  }

  /**
   * After a form update, no flag is raised exactly when every box held a
   * number and the updated input is computable.
   */
  lemma UpdateGate(s: Params, form: Form, f: Flags)
    ensures !AfterUpdate(s, form, f).AnyFatal() <==> AllNumbers(form) && Computable(Updated(s, form))
  {
  }

  /** The defaults pass the check. */
  lemma DefaultsPass()
    ensures !CalcInputsRejected(Defaults()) && !BendRejected(Defaults())
  {
  }

  /**
   * The check's edges: a slot depth of exactly half the height is rejected,
   * while a Poisson's ratio of exactly -1 or 0.5 is accepted.
   */
  lemma CheckBoundaries(s: Params)
    ensures s.b == s.h / 2.0 ==> CalcInputsRejected(s)
    ensures s.v == -1.0 || s.v == 0.5 ==> CalcInputsRejected(s) == CalcInputsRejected(s.(v := 0.0))
  {
  }

  /**
   * An end of the b range that reaches half the height raises only the bend
   * flag: it does not make an otherwise good input unfit to compute with.
   */
  lemma LargeBendOnlyFlagsBend(s: Params, x: real)
    requires !CalcInputsRejected(s) && x >= s.h / 2.0
    ensures BendRejected(s.(bend := x)) && !CalcInputsRejected(s.(bend := x))
  {
  }

  /**
   * The check never compares the slot width a with the width w: it accepts a
   * slot wider than the plate, whose outline then leaves the box [0, w] x [0, h].
   */
  lemma WideSlotAccepted()
    ensures var s := Defaults().(a := 0.5);
      && !CalcInputsRejected(s) && !BendRejected(s)
      && PlatePoints(s.h, s.w, s.a, s.b)[1].x < 0.0
  {
  }

  /**
   * When the check passes and the b range starts at b, every value of a
   * b-study lies strictly between 0 and half the height.
   */
  lemma StudyValuesInsidePlate(s: Params, i: nat)
    requires !CalcInputsRejected(s) && !BendRejected(s)
    requires s.bstart == s.b && 0 <= s.paramSteps && i < s.paramSteps
    ensures 0.0 < StudyRange(s, BStudy)[i] < s.h / 2.0
  {
    LinspaceBetweenEnds(s.bstart, s.bend, s.paramSteps, i);
  }

  // ---------------------------------------------------------------------
  // The parameter-study request
  // ---------------------------------------------------------------------

  /** The input and the flags once a study request has been read. */
  datatype StudySetup = StudySetup(params: Params, flags: Flags)

  /**
   * Reading a study request over record s and flags f: the radio buttons set
   * paramb and paramq. A b-study reads the range's start from the b box and
   * its end from the end box, then checks the input; a q-study reads the q
   * range from its two boxes and is not checked. A box without a number
   * raises the bend flag; a q-study whose boxes held numbers lowers it.
   */
  function StudyRequest(s: Params, f: Flags, form: Form): StudySetup
  {
    var s1 := s.(paramb := form.bChecked, paramq := form.qChecked);
    var (read, typeError) :=
      if form.bChecked then
        match (form.b, form.bend)
        case (None, _) => (StudySetup(s1, f.(bendInput := true)), true)
        case (Some(x), None) => (StudySetup(s1.(bstart := x), f.(bendInput := true)), true)
        case (Some(x), Some(y)) =>
          var s2 := s1.(bstart := x, bend := y);
          (StudySetup(s2, Validated(s2, f)), false)
      else if form.qChecked then
        match (form.q, form.qend)
        case (None, _) => (StudySetup(s1, f.(bendInput := true)), true)
        case (Some(x), None) => (StudySetup(s1.(qstart := x), f.(bendInput := true)), true)
        case (Some(x), Some(y)) => (StudySetup(s1.(qstart := x, qend := y), f), false)
      else (StudySetup(s1, f), false);
    if form.qChecked && !typeError then read.(flags := read.flags.(bendInput := false)) else read
  }

  /** The events a study over p adds after the solve that precedes it. */
  function StudyEvents(fem: Params -> FemSolution, p: Params): seq<Event>
  {
    match PlanOf(p)
    case Sweep(study, values) => SweepTrace(fem, p, study, values)
    case _ => []
  }

  /**
   * The input of the last solve of a study request over p: the last value of
   * the range when the study sweeps one, and p itself (the solve that
   * precedes the study) otherwise.
   */
  function LastSolved(p: Params): Params
  {
    match PlanOf(p)
    case Sweep(study, values) => if values == [] then p else StudyPoint(p, study, values[|values| - 1])
    case _ => p
  }

  /** What a study over p returns. */
  function StudyOutcome(p: Params): Outcome<StudyError>
  {
    match PlanOf(p)
    case Rejected(e) => Fail(e)
    case _ => Pass
  }

  /**
   * A b-study whose boxes hold numbers y and z goes ahead exactly when the
   * end z lies strictly between 0 and half the height; the check's other
   * findings are recorded but do not stop it.
   */
  lemma BStudyGate(s: Params, f: Flags, form: Form)
    requires form.bChecked && !form.qChecked && form.b.Some? && form.bend.Some?
    ensures var r := StudyRequest(s, f, form);
      && r.params == s.(paramb := true, paramq := false, bstart := form.b.value, bend := form.bend.value)
      && (!r.flags.bendInput <==> 0.0 < form.bend.value < s.h / 2.0)
      && r.flags.calcInputs == CalcInputsRejected(r.params)
      && r.flags.textInput == f.textInput
  {
  }

  /** A q-study whose boxes hold numbers always goes ahead, whatever the flags were. */
  lemma QStudyGate(s: Params, f: Flags, form: Form)
    requires !form.bChecked && form.qChecked && form.q.Some? && form.qend.Some?
    ensures var r := StudyRequest(s, f, form);
      && r.params == s.(paramb := false, paramq := true, qstart := form.q.value, qend := form.qend.value)
      && !r.flags.bendInput
      && r.flags.calcInputs == f.calcInputs && r.flags.textInput == f.textInput
  {
  }

  /** A study box of the chosen study that does not hold a number stops the study. */
  lemma NonNumberStopsStudy(s: Params, f: Flags, form: Form)
    requires form.bChecked ==> form.b.None? || form.bend.None?
    requires !form.bChecked ==> form.qChecked && (form.q.None? || form.qend.None?)
    ensures StudyRequest(s, f, form).flags.bendInput
  {
  }

  /**
   * The b-study checks the attribute b, not the start of the range it has
   * just read: a range starting at or beyond half the height goes ahead.
   */
  lemma StudyStartUnchecked()
    ensures var form := Form(None, None, None, Some(0.06), None, None, None, None, None, Some(0.0001), None, 10, true, false);
      var r := StudyRequest(Defaults(), Flags(false, false, false), form);
      && !r.flags.AnyFatal()
      && r.params.bstart >= r.params.h / 2.0
  {
  }

  // ---------------------------------------------------------------------
  // The window
  // ---------------------------------------------------------------------

  class MainWindow {
    const input: InputData
    const output: OutputData
    const solver: Solver
    /** The file the model was last opened from or saved to; empty when there is none. */
    var filename: string
    var flags: Flags

    /** The solver works on this window's input and output records. */
    predicate Wired()
    {
      solver.input == input && solver.output == output
    }

    /** A window over the default model; fem is the solve the solver stands for. */
    constructor (fem: Params -> FemSolution)
      ensures Wired() && fresh(input) && fresh(output) && fresh(solver)
      ensures input.params == Defaults() && solver.fem == fem && solver.trace == []
      ensures output.solvedFor == None && output.displ == None && output.topo == None
      ensures filename == "" && flags == Flags(false, false, false)
    {
      var i := new InputData();
      var o := new OutputData();
      input := i;
      output := o;
      solver := new Solver(i, o, fem);
      filename := "";
      flags := Flags(false, false, false);
    }

    /**
     * Sets the calc and bend flags from the input: each is raised by the
     * rules that concern it and lowered when none of them holds.
     */
    method CheckValidInput()
      modifies this
      ensures flags == Validated(input.params, old(flags))
      ensures filename == old(filename)
    {
      var s := input.params;
      var lengths := Lengths(s);
      var bendPassed, lengthsPassed := true, true;
      for i := 0 to |lengths|
        invariant lengthsPassed <==> forall j :: 0 <= j < i ==> lengths[j] > 0.0
        invariant bendPassed <==> (i <= BendIndex || lengths[BendIndex] > 0.0)
        invariant !lengthsPassed ==> flags.calcInputs
        invariant !bendPassed ==> flags.bendInput
        invariant flags.textInput == old(flags.textInput) && filename == old(filename)
      {
        if lengths[i] < 0.0 {
          flags := flags.(calcInputs := true);
          lengthsPassed := false;
          if i == BendIndex {
            flags := flags.(bendInput := true);
            bendPassed := false;
          }
        }
        if lengths[i] == 0.0 {
          flags := flags.(calcInputs := true);
          lengthsPassed := false;
          if i == BendIndex {
            flags := flags.(bendInput := true);
            bendPassed := false;
          }
        }
      }
      assert lengthsPassed <==> s.w > 0.0 && s.h > 0.0 && s.a > 0.0 && s.b > 0.0 && s.t > 0.0 && s.bend > 0.0 by {
        assert lengths[0] == s.w && lengths[1] == s.h && lengths[2] == s.a;
        assert lengths[3] == s.b && lengths[4] == s.t && lengths[5] == s.bend;
      }
      if s.v < -1.0 || s.v > 0.5 {
        flags := flags.(calcInputs := true);
        lengthsPassed := false;
      }
      if s.b >= s.h / 2.0 {
        flags := flags.(calcInputs := true);
        lengthsPassed := false;
      }
      if s.bend >= s.h / 2.0 {
        flags := flags.(bendInput := true);
        bendPassed := false;
      }
      if bendPassed {
        flags := flags.(bendInput := false);
      }
      if lengthsPassed {
        flags := flags.(calcInputs := false);
      }
    }

    /**
     * Assigns the boxes' numbers to their attributes in FormOrder, stopping
     * at the first box that does not hold a number; reports whether every
     * box did.
     */
    method ReadBoxes(form: Form) returns (ok: bool)
      modifies input
      ensures input.params == AssignFields(old(input.params), form, FormOrder)
      ensures ok == AllNumbers(form)
    {
      ok := AssignEach(form, FormOrder);
      WholeFormRead(form);
    }

    /** Assigns the numbers of fields in order, stopping at the first that does not hold one. */
    method AssignEach(form: Form, fields: seq<TextField>) returns (ok: bool)
      modifies input
      ensures input.params == AssignFields(old(input.params), form, fields)
      ensures ok == (ParsedCount(form, fields) == |fields|)
    {
      ghost var goal := AssignFields(input.params, form, fields);
      var n := 0;
      while n < |fields|
        invariant n <= |fields|
        invariant AssignFields(input.params, form, fields[n..]) == goal
        invariant ParsedCount(form, fields) == n + ParsedCount(form, fields[n..])
      {
        var f := fields[n];
        if Entry(form, f).None? {
          return false;
        }
        assert fields[n..][1..] == fields[n + 1..];
        input.params := Assign(input.params, f, Entry(form, f).value);
        n := n + 1;
      }
      return true;
    }

    /**
     * Updates the input from the boxes, raises the text flag when a box did
     * not hold a number and lowers it otherwise, then checks the input.
     */
    method UpdateModel(form: Form)
      modifies this, input
      ensures input.params == Updated(old(input.params), form)
      ensures flags == AfterUpdate(old(input.params), form, old(flags))
      ensures filename == old(filename)
    {
      var ok := ReadBoxes(form);
      WholeFormRead(form);
      if ok {
        input.params := input.params.(paramSteps := form.steps);
        flags := flags.(textInput := false);
      } else {
        flags := flags.(textInput := true);
      }
      CheckValidInput();
    }

    /** Updates the input from the boxes and solves when no flag is raised. */
    method OnActionExecute(form: Form)
      requires Wired()
      modifies this, input, output, solver
      ensures input.params == Updated(old(input.params), form)
      ensures flags == AfterUpdate(old(input.params), form, old(flags))
      ensures !flags.AnyFatal() ==>
        && solver.trace == old(solver.trace) + [Solved(input.params)]
        && HoldsResultsFor(output, solver.fem, input.params)
      ensures flags.AnyFatal() ==> solver.trace == old(solver.trace) && unchanged(output)
      ensures filename == old(filename)
    {
      UpdateModel(form);
      if !flags.AnyFatal() {
        solver.Execute();
      }
    }

    /**
     * Updates the input from the boxes and, when no flag is raised, saves it
     * to the current file, or to the file the user chose when there is no
     * current file; nothing is saved when neither names a file.
     */
    method OnActionSave(form: Form, chosen: string) returns (written: Option<(string, Json)>)
      modifies this, input
      ensures input.params == Updated(old(input.params), form)
      ensures flags == AfterUpdate(old(input.params), form, old(flags))
      ensures flags.AnyFatal() ==> filename == old(filename) && written == None
      ensures !flags.AnyFatal() ==> filename == (if old(filename) == "" then chosen else old(filename))
      ensures written.Some? <==> !flags.AnyFatal() && filename != ""
      ensures written.Some? ==> written.value == (filename, SaveMap(input.params))
    {
      UpdateModel(form);
      written := None;
      if !flags.AnyFatal() {
        if filename == "" {
          filename := chosen;
        }
        if filename != "" {
          ghost var before := input.params;
          UpdateModel(form);
          UpdateIdempotent(old(input.params), form);
          assert input.params == before;
          var d := input.Save();
          written := Some((filename, d));
        }
      }
    }

    /**
     * Reads the study request and, unless the bend flag is raised, sets the
     * step count from the spin box, solves once, and runs the study.
     */
    method OnExecuteParamStudy(form: Form) returns (ran: Option<Outcome<StudyError>>)
      requires Wired()
      modifies this, input, output, solver
      ensures var r := StudyRequest(old(input.params), old(flags), form);
        && flags == r.flags
        && (r.flags.bendInput ==> input.params == r.params && solver.trace == old(solver.trace) && ran == None)
        && (!r.flags.bendInput ==>
              var p := r.params.(paramSteps := form.steps);
              && input.params == p
              && solver.trace == old(solver.trace) + [Solved(p)] + StudyEvents(solver.fem, p)
              && ran == Some(StudyOutcome(p)))
      ensures StudyRequest(old(input.params), old(flags), form).flags.bendInput ==> unchanged(output)
      ensures var r := StudyRequest(old(input.params), old(flags), form);
        !r.flags.bendInput ==>
          var p := r.params.(paramSteps := form.steps);
          HoldsResultsFor(output, solver.fem, LastSolved(p))
      ensures filename == old(filename)
    {
      ghost var s, f := input.params, flags;
      input.params := input.params.(paramb := form.bChecked, paramq := form.qChecked);
      var typeError := false;
      if input.params.paramb {
        if form.b.None? {
          flags := flags.(bendInput := true);
          typeError := true;
        } else {
          input.params := input.params.(bstart := form.b.value);
          if form.bend.None? {
            flags := flags.(bendInput := true);
            typeError := true;
          } else {
            input.params := input.params.(bend := form.bend.value);
            CheckValidInput();
          }
        }
      } else if input.params.paramq {
        if form.q.None? {
          flags := flags.(bendInput := true);
          typeError := true;
        } else {
          input.params := input.params.(qstart := form.q.value);
          if form.qend.None? {
            flags := flags.(bendInput := true);
            typeError := true;
          } else {
            input.params := input.params.(qend := form.qend.value);
          }
        }
      }
      if input.params.paramq && !typeError {
        flags := flags.(bendInput := false);
      }
      assert flags == StudyRequest(s, f, form).flags && input.params == StudyRequest(s, f, form).params;
      ran := None;
      if !flags.bendInput {
        input.params := input.params.(paramSteps := form.steps);
        solver.Execute();
        var r := solver.ExecuteParamStudy();
        ran := Some(r);
      }
    }

    /** Chooses triangle elements. */
    method OnEltype2()
      modifies input
      ensures input.params == old(input.params).(elType := 2)
    {
      input.params := input.params.(elType := 2);
    }

    /** Chooses quadrilateral elements. */
    method OnEltype3()
      modifies input
      ensures input.params == old(input.params).(elType := 3)
    {
      input.params := input.params.(elType := 3);
    }
  }

  /** The element type chosen is what a save writes under el_type, and no other saved value changes. */
  lemma ElementTypeIsSaved(s: Params, k: int)
    ensures SaveMap(s.(elType := k))[ElTypeKey] == Int(k)
    ensures forall key :: key != ElTypeKey ==> Field(s.(elType := k), key) == Field(s, key)
  {
    SaveMapAt(s.(elType := k), ElTypeKey);
  }
}
