/**
 * The model's input record, the plate outline handed to the mesher, and the
 * key-value form in which the input record is saved and loaded.
 */
module DataTypes {
  import opened Wrappers

  // ---------------------------------------------------------------------
  // The input record as a value
  // ---------------------------------------------------------------------

  /**
   * Every attribute an InputData object can carry. `elSize` is the attribute
   * that the window's form update writes (it is absent until then, and nothing
   * reads it); the mesher reads `elSizeFactor`.
   */
  datatype Params = Params(
    version: int,
    h: real, w: real, a: real, b: real,
    elSizeFactor: real,
    E: real, v: real, q: real, t: real,
    paramb: bool, paramq: bool,
    bstart: real, bend: real, qstart: real, qend: real,
    paramFileName: string,
    paramSteps: int,
    elType: int,
    elSize: Option<real>)

  /** The attributes of a freshly constructed InputData. */
  function Defaults(): Params
  {
    Params(
      version := 1,
      h := 0.1, w := 0.3, a := 0.05, b := 0.025,
      elSizeFactor := 0.5,
      E := 20800000000.0, v := 0.2, q := 100000.0, t := 0.15,
      paramb := false, paramq := false,
      bstart := 0.025, bend := 0.0001, qstart := 100000.0, qend := -100000.0,
      paramFileName := "paramStudy",
      paramSteps := 10,
      elType := 2,
      elSize := None)
  }

  /**
   * The default study ranges: b is swept from its own value down to 0.0001
   * and q from its own value to its negation, in ten steps; neither study is
   * asked for, and the elements are triangles.
   */
  lemma DefaultStudyRanges()
    ensures var s := Defaults();
      && s.bstart == s.b && s.qstart == s.q && s.qend == -s.q
      && !s.paramb && !s.paramq && s.paramSteps == 10 && s.elType == 2
  {
  }

  // ---------------------------------------------------------------------
  // Plate outline
  // ---------------------------------------------------------------------

  datatype Point = Point(x: real, y: real)

  /** A boundary curve between two point indices, with its boundary marker. */
  datatype Curve = Curve(start: nat, stop: nat, marker: int)

  /** The marker of a curve that belongs to no tagged boundary. */
  const NoMarker := 0
  /** The marker of the right-hand edge, where the load q is applied. */
  const LoadMarker := 6
  /** The marker of the left-hand edge, which is held by the wall. */
  const WallMarker := 12

  /**
   * The twelve outline points of a plate of height h and width w with a slot
   * of width a cut b deep into the bottom edge and b deep into the top edge.
   */
  function PlatePoints(h: real, w: real, a: real, b: real): seq<Point>
  {
    [ Point(0.0, 0.0),
      Point((w - a) / 2.0, 0.0),
      Point((w - a) / 2.0, b),
      Point((w + a) / 2.0, b),
      Point((w + a) / 2.0, 0.0),
      Point(w, 0.0),
      Point(w, h),
      Point((w + a) / 2.0, h),
      Point((w + a) / 2.0, h - b),
      Point((w - a) / 2.0, h - b),
      Point((w - a) / 2.0, h),
      Point(0.0, h) ]
  }

  predicate Touches(c: Curve, p: nat)
  {
    c.start == p || c.stop == p
  }

  /**
   * The twelve boundary curves: eleven joining consecutive points and one
   * closing the outline from point 0 to point 11.
   */
  function PlateCurves(): seq<Curve>
  {
    seq(12, i requires 0 <= i < 12 =>
      if i < 11 then Curve(i, i + 1, if i == 5 then LoadMarker else NoMarker)
      else Curve(0, 11, WallMarker))
  }

  /** The curve list of the one surface bounded by the outline. */
  function PlateSurface(): seq<nat>
  {
    [0, 1, 2, 3, 4, 5, 6, 7, 8, 9, 10, 11]
  }

  /**
   * The outline is the mirror image of itself about the horizontal centre
   * line y = h/2 and about the vertical centre line x = w/2; its corners are
   * (0, 0), (w, 0), (w, h) and (0, h).
   */
  lemma PlatePointsSymmetric(h: real, w: real, a: real, b: real)
    ensures var ps := PlatePoints(h, w, a, b);
      && |ps| == 12
      && ps[0] == Point(0.0, 0.0) && ps[5] == Point(w, 0.0)
      && ps[6] == Point(w, h) && ps[11] == Point(0.0, h)
      && (forall k :: 0 <= k < 12 ==> ps[k].x == ps[11 - k].x && ps[k].y + ps[11 - k].y == h)
      && (forall k :: 0 <= k < 6 ==> ps[k].x + ps[5 - k].x == w && ps[k].y == ps[5 - k].y)
  {
    var ps := PlatePoints(h, w, a, b);
    forall k | 0 <= k < 12
      ensures ps[k].x == ps[11 - k].x && ps[k].y + ps[11 - k].y == h
    {
    }
    forall k | 0 <= k < 6
      ensures ps[k].x + ps[5 - k].x == w && ps[k].y == ps[5 - k].y
    {
    }
  }

  /**
   * The curves form one closed loop through the twelve points: point p is an
   * end of curve p and of curve (p + 11) % 12 and of no other, and no curve
   * is degenerate.
   */
  lemma PlateCurvesFormClosedLoop()
    ensures var cs := PlateCurves();
      && |cs| == 12
      && (forall c :: 0 <= c < 12 ==> cs[c].start < 12 && cs[c].stop < 12 && cs[c].start != cs[c].stop)
      && (forall c, p :: 0 <= c < 12 && 0 <= p < 12 ==>
            (Touches(cs[c], p) <==> c == p || c == (p + 11) % 12))
  {
  }

  /** Exactly one curve carries the load marker, exactly one the wall marker, and the rest none. */
  lemma PlateCurveMarkers()
    ensures var cs := PlateCurves();
      && |cs| == 12
      && (forall c :: 0 <= c < 12 ==> (cs[c].marker == LoadMarker <==> c == 5))
      && (forall c :: 0 <= c < 12 ==> (cs[c].marker == WallMarker <==> c == 11))
      && (forall c :: 0 <= c < 12 && c != 5 && c != 11 ==> cs[c].marker == NoMarker)
  {
  }

  /** The one surface lists each of the twelve curves exactly once. */
  lemma PlateSurfaceUsesEveryCurveOnce()
    ensures var s := PlateSurface();
      && |s| == 12
      && (forall c :: 0 <= c < 12 ==> c in s)
      && (forall i, j :: 0 <= i < j < |s| ==> s[i] != s[j])
  {
  }

  /** Every curve of the outline is a horizontal or a vertical segment. */
  lemma PlateEdgesAxisParallel(h: real, w: real, a: real, b: real)
    ensures var ps, cs := PlatePoints(h, w, a, b), PlateCurves();
      forall c :: 0 <= c < 12 ==>
        ps[cs[c].start].x == ps[cs[c].stop].x || ps[cs[c].start].y == ps[cs[c].stop].y
  {
  }

  /** The load edge runs from (w, 0) to (w, h) and the wall edge from (0, 0) to (0, h). */
  lemma LoadAndWallEdges(h: real, w: real, a: real, b: real)
    ensures var ps, cs := PlatePoints(h, w, a, b), PlateCurves();
      && ps[cs[5].start] == Point(w, 0.0) && ps[cs[5].stop] == Point(w, h)
      && ps[cs[11].start] == Point(0.0, 0.0) && ps[cs[11].stop] == Point(0.0, h)
  {
  }

  /**
   * For a slot narrower than the plate and shallower than half its height,
   * the outline lies in the rectangle [0, w] x [0, h], the slot lies strictly
   * inside it, and the lower slot edge stays below the upper one.
   */
  lemma PlateInsideBox(h: real, w: real, a: real, b: real)
    requires 0.0 < a < w && 0.0 < b < h / 2.0
    ensures var ps := PlatePoints(h, w, a, b);
      forall k :: 0 <= k < 12 ==> 0.0 <= ps[k].x <= w && 0.0 <= ps[k].y <= h
    ensures var ps := PlatePoints(h, w, a, b);
      0.0 < ps[1].x < ps[4].x < w && ps[2].y < ps[9].y
  {
  }

  /** The geometry object the mesher consumes; only its lists are modelled. */
  class Geometry {
    var points: seq<Point>
    var curves: seq<Curve>
    var surfaces: seq<seq<nat>>

    constructor ()
      ensures points == [] && curves == [] && surfaces == []
    {
      points, curves, surfaces := [], [], [];
    }

    method AddPoint(p: Point)
      modifies this
      ensures points == old(points) + [p]
      ensures curves == old(curves) && surfaces == old(surfaces)
    {
      points := points + [p];
    }

    method AddSpline(start: nat, stop: nat, marker: int)
      modifies this
      ensures curves == old(curves) + [Curve(start, stop, marker)]
      ensures points == old(points) && surfaces == old(surfaces)
    {
      curves := curves + [Curve(start, stop, marker)];
    }

    method AddSurface(ids: seq<nat>)
      modifies this
      ensures surfaces == old(surfaces) + [ids]
      ensures points == old(points) && curves == old(curves)
    {
      surfaces := surfaces + [ids];
    }
  }

  // ---------------------------------------------------------------------
  // Key-value persistence
  // ---------------------------------------------------------------------

  /** A number as the model file holds it. */
  datatype Value = Int(i: int) | Float(r: real)

  /**
   * The keys of the model file that the program reads and writes; KeyName
   * gives each one's spelling in the file. A key the program never reads
   * plays no part in loading, so the model file is the map restricted to these.
   */
  datatype Key =
    | VersionKey | HKey | AKey | BKey | WKey | ElSizeFactorKey | TKey
    | EKey | VKey | QKey | BendKey | QendKey | ParamStepsKey | ElTypeKey

  function KeyName(k: Key): string
  {
    match k
    case VersionKey => "version"
    case HKey => "h"
    case AKey => "a"
    case BKey => "b"
    case WKey => "w"
    case ElSizeFactorKey => "el_size_factor"
    case TKey => "t"
    case EKey => "E"
    case VKey => "v"
    case QKey => "q"
    case BendKey => "bend"
    case QendKey => "qend"
    case ParamStepsKey => "paramSteps"
    case ElTypeKey => "el_type"
  }

  type Json = map<Key, Value>

  function AsReal(x: Value): real
  {
    match x
    case Int(i) => i as real
    case Float(r) => r
  }

  /** The saved keys, in the order in which they are written and read back. */
  const SavedKeys: seq<Key> :=
    [VersionKey, HKey, AKey, BKey, WKey, ElSizeFactorKey, TKey, EKey, VKey, QKey,
     BendKey, QendKey, ParamStepsKey, ElTypeKey]

  /** Where key k comes in SavedKeys: every key is saved. */
  function Position(k: Key): (i: nat)
    ensures i < |SavedKeys| && SavedKeys[i] == k
  {
    match k
    case VersionKey => 0
    case HKey => 1
    case AKey => 2
    case BKey => 3
    case WKey => 4
    case ElSizeFactorKey => 5
    case TKey => 6
    case EKey => 7
    case VKey => 8
    case QKey => 9
    case BendKey => 10
    case QendKey => 11
    case ParamStepsKey => 12
    case ElTypeKey => 13
  }

  /** A number with no fractional part, whether the file wrote it as an integer or as a float. */
  predicate IsIntegral(x: Value)
  {
    x.Int? || x.r == x.r.Floor as real
  }

  /** The integer an integral number stands for. */
  function AsInt(x: Value): int
  {
    match x
    case Int(i) => i
    case Float(r) => r.Floor
  }

  predicate IsIntKey(k: Key)
  {
    k == VersionKey || k == ParamStepsKey || k == ElTypeKey
  }

  /** The value the attribute saved under key k has in s. */
  function Field(s: Params, k: Key): Value
  {
    match k
    case VersionKey => Int(s.version)
    case HKey => Float(s.h)
    case AKey => Float(s.a)
    case BKey => Float(s.b)
    case WKey => Float(s.w)
    case ElSizeFactorKey => Float(s.elSizeFactor)
    case TKey => Float(s.t)
    case EKey => Float(s.E)
    case VKey => Float(s.v)
    case QKey => Float(s.q)
    case BendKey => Float(s.bend)
    case QendKey => Float(s.qend)
    case ParamStepsKey => Int(s.paramSteps)
    case ElTypeKey => Int(s.elType)
  }

  /** The key-value object that saving an input record writes. */
  function SaveMap(s: Params): Json
  {
    map[
      VersionKey := Int(s.version),
      HKey := Float(s.h),
      AKey := Float(s.a),
      BKey := Float(s.b),
      WKey := Float(s.w),
      ElSizeFactorKey := Float(s.elSizeFactor),
      TKey := Float(s.t),
      EKey := Float(s.E),
      VKey := Float(s.v),
      QKey := Float(s.q),
      BendKey := Float(s.bend),
      QendKey := Float(s.qend),
      ParamStepsKey := Int(s.paramSteps),
      ElTypeKey := Int(s.elType)]
  }

  /** Every key is saved, holding its attribute's value. */
  lemma SaveMapAt(s: Params, k: Key)
    ensures k in SaveMap(s) && SaveMap(s)[k] == Field(s, k)
  {
  }

  /**
   * Saving writes exactly the fourteen saved keys, and their names in the
   * file are, in order, the documented ones.
   */
  lemma SavedKeyNames(s: Params)
    ensures SaveMap(s).Keys == set k | k in SavedKeys
    ensures seq(|SavedKeys|, i requires 0 <= i < |SavedKeys| => KeyName(SavedKeys[i])) ==
      ["version", "h", "a", "b", "w", "el_size_factor", "t", "E", "v", "q",
       "bend", "qend", "paramSteps", "el_type"]
  {
  }

  /** Key k can be read into its attribute. */
  predicate Admits(d: Json, k: Key)
  {
    k in d && (IsIntKey(k) ==> IsIntegral(d[k]))
  }

  /** Record s after the attribute saved under k is assigned the value x read from the file. */
  function Read(s: Params, k: Key, x: Value): Params
    requires IsIntKey(k) ==> IsIntegral(x)
  {
    match k
    case VersionKey => s.(version := AsInt(x))
    case HKey => s.(h := AsReal(x))
    case AKey => s.(a := AsReal(x))
    case BKey => s.(b := AsReal(x))
    case WKey => s.(w := AsReal(x))
    case ElSizeFactorKey => s.(elSizeFactor := AsReal(x))
    case TKey => s.(t := AsReal(x))
    case EKey => s.(E := AsReal(x))
    case VKey => s.(v := AsReal(x))
    case QKey => s.(q := AsReal(x))
    case BendKey => s.(bend := AsReal(x))
    case QendKey => s.(qend := AsReal(x))
    case ParamStepsKey => s.(paramSteps := AsInt(x))
    case ElTypeKey => s.(elType := AsInt(x))
  }

  /**
   * How a value read from key k is held: the integer attributes hold the
   * integer the number stands for (10.0 is read as 10), the rest hold reals.
   */
  function Stored(k: Key, x: Value): Value
  {
    if IsIntKey(k) then Int(AsInt(x)) else Float(AsReal(x))
  }

  /** The attributes the model file does not hold. */
  function Unsaved(s: Params): (bool, bool, real, real, string, Option<real>)
  {
    (s.paramb, s.paramq, s.bstart, s.qstart, s.paramFileName, s.elSize)
  }

  /** Reading one key sets that key's attribute and leaves every other attribute alone. */
  lemma ReadSetsOneField(s: Params, k: Key, x: Value, k': Key)
    requires IsIntKey(k) ==> IsIntegral(x)
    ensures Field(Read(s, k, x), k') == if k' == k then Stored(k, x) else Field(s, k')
    ensures Unsaved(Read(s, k, x)) == Unsaved(s)
  {
  }

  /** How many of keys, from the first, can be read before one cannot. */
  function ReadCount(d: Json, keys: seq<Key>): (n: nat)
    ensures n <= |keys|
    ensures forall i :: 0 <= i < n ==> Admits(d, keys[i])
    ensures n < |keys| ==> !Admits(d, keys[n])
    decreases |keys|
  {
    if keys == [] || !Admits(d, keys[0]) then 0 else 1 + ReadCount(d, keys[1..])
  }

  /** Record s after keys are read from d in order, up to the first that cannot be read. */
  function ReadKeys(s: Params, d: Json, keys: seq<Key>): Params
    decreases |keys|
  {
    if keys == [] || !Admits(d, keys[0]) then s
    else ReadKeys(Read(s, keys[0], d[keys[0]]), d, keys[1..])
  }

  datatype LoadError = MissingKey(key: Key) | NotAnInteger(key: Key)

  datatype LoadResult = LoadResult(params: Params, outcome: Outcome<LoadError>)

  /** Why key k of d cannot be read. */
  function ErrorAt(d: Json, k: Key): LoadError
  {
    if k in d then NotAnInteger(k) else MissingKey(k)
  }

  /**
   * Loading key-value object d over the record s: the saved attributes are
   * read in the order of SavedKeys, and the load stops at the first key that
   * is missing (or holds a number with a fractional part for an integer
   * attribute).
   */
  function Loaded(s: Params, d: Json): LoadResult
  {
    var n := ReadCount(d, SavedKeys);
    LoadResult(ReadKeys(s, d, SavedKeys), if n == |SavedKeys| then Pass else Fail(ErrorAt(d, SavedKeys[n])))
  }

  /** A key that is not among those read keeps its value. */
  lemma {:induction false} ReadKeysLeavesOthers(s: Params, d: Json, keys: seq<Key>, k: Key)
    requires k !in keys
    ensures Field(ReadKeys(s, d, keys), k) == Field(s, k)
    ensures Unsaved(ReadKeys(s, d, keys)) == Unsaved(s)
    decreases |keys|
  {
    if keys != [] && Admits(d, keys[0]) {
      ReadSetsOneField(s, keys[0], d[keys[0]], k);
      ReadKeysLeavesOthers(Read(s, keys[0], d[keys[0]]), d, keys[1..], k);
    }
  }

  /**
   * Reading distinct keys in order: the i-th key's attribute holds the value
   * in d when it comes before the first unreadable key, and keeps its old
   * value otherwise.
   */
  lemma {:induction false} ReadKeysFields(s: Params, d: Json, keys: seq<Key>, i: nat)
    requires forall p, q :: 0 <= p < q < |keys| ==> keys[p] != keys[q]
    requires i < |keys|
    ensures i < ReadCount(d, keys) ==>
      keys[i] in d && Field(ReadKeys(s, d, keys), keys[i]) == Stored(keys[i], d[keys[i]])
    ensures ReadCount(d, keys) <= i ==> Field(ReadKeys(s, d, keys), keys[i]) == Field(s, keys[i])
    decreases |keys|
  {
    if Admits(d, keys[0]) {
      var s' := Read(s, keys[0], d[keys[0]]);
      ReadSetsOneField(s, keys[0], d[keys[0]], keys[i]);
      if i == 0 {
        assert keys[0] !in keys[1..] by {
          forall j | 0 <= j < |keys[1..]| ensures keys[1..][j] != keys[0] {
            assert keys[1..][j] == keys[j + 1];
          }
        }
        ReadKeysLeavesOthers(s', d, keys[1..], keys[0]);
      } else {
        ReadKeysFields(s', d, keys[1..], i - 1);
        assert keys[1..][i - 1] == keys[i];
      }
    }
  }

  /** SavedKeys lists fourteen different keys. */
  lemma SavedKeysDistinct()
    ensures forall p, q :: 0 <= p < q < |SavedKeys| ==> SavedKeys[p] != SavedKeys[q]
  {
  }

  /**
   * Loading is a partial update: the attributes of the keys before the first
   * unreadable one are read from the file, those of the later keys keep their
   * old values, the attributes the file does not hold are never touched, and
   * the load fails, naming that first unreadable key, exactly when there is one.
   */
  lemma LoadStopsAtFirstBadKey(s: Params, d: Json, i: nat)
    requires i < |SavedKeys|
    ensures var n, r := ReadCount(d, SavedKeys), Loaded(s, d);
      && (i < n ==> SavedKeys[i] in d && Field(r.params, SavedKeys[i]) == Stored(SavedKeys[i], d[SavedKeys[i]]))
      && (n <= i ==> Field(r.params, SavedKeys[i]) == Field(s, SavedKeys[i]))
      && Unsaved(r.params) == Unsaved(s)
      && (r.outcome.Pass? <==> forall k :: k in SavedKeys ==> Admits(d, k))
      && (n < |SavedKeys| ==> r.outcome == Fail(ErrorAt(d, SavedKeys[n])))
  {
    SavedKeysDistinct();
    ReadKeysFields(s, d, SavedKeys, i);
    ReadKeysLeavesOthers(s, d, [], VersionKey);
    UnsavedKept(s, d, SavedKeys);
  }

  /** Reading keys never changes the attributes the file does not hold. */
  lemma {:induction false} UnsavedKept(s: Params, d: Json, keys: seq<Key>)
    ensures Unsaved(ReadKeys(s, d, keys)) == Unsaved(s)
    decreases |keys|
  {
    if keys != [] && Admits(d, keys[0]) {
      ReadSetsOneField(s, keys[0], d[keys[0]], keys[0]);
      UnsavedKept(Read(s, keys[0], d[keys[0]]), d, keys[1..]);
    }
  }

  /**
   * Loading what saving wrote succeeds and restores all fourteen saved
   * attributes exactly, over any record, leaving the others untouched.
   */
  lemma LoadSaveRoundTrip(s: Params, t: Params)
    ensures Loaded(t, SaveMap(s)).outcome == Pass
    ensures forall k :: Field(Loaded(t, SaveMap(s)).params, k) == Field(s, k)
    ensures Unsaved(Loaded(t, SaveMap(s)).params) == Unsaved(t)
  {
    SavedFileIsReadWhole(s);
    forall k: Key
      ensures Field(ReadKeys(t, SaveMap(s), SavedKeys), k) == Field(s, k)
    {
      SavedKeyIsRestored(s, t, k);
    }
    UnsavedKept(t, SaveMap(s), SavedKeys);
  }

  /** Every saved key of a saved file can be read. */
  lemma SavedFileIsReadWhole(s: Params)
    ensures ReadCount(SaveMap(s), SavedKeys) == |SavedKeys|
  {
    var n := ReadCount(SaveMap(s), SavedKeys);
    if n < |SavedKeys| {
      SaveMapAt(s, SavedKeys[n]);
    }
  }

  /** Reading a saved file back restores the attribute of key k. */
  lemma SavedKeyIsRestored(s: Params, t: Params, k: Key)
    ensures Field(ReadKeys(t, SaveMap(s), SavedKeys), k) == Field(s, k)
  {
    SavedFileIsReadWhole(s);
    WholeReadFields(t, SaveMap(s), k);
    SaveMapAt(s, k);
    StoredField(s, k);
  }

  /** Reading back the value an attribute was saved as gives that value. */
  lemma StoredField(s: Params, k: Key)
    ensures Stored(k, Field(s, k)) == Field(s, k)
  {
  }

  /** When every saved key of d can be read, each attribute ends up holding what d holds. */
  lemma WholeReadFields(t: Params, d: Json, k: Key)
    requires ReadCount(d, SavedKeys) == |SavedKeys|
    ensures k in d && Field(ReadKeys(t, d, SavedKeys), k) == Stored(k, d[k])
  {
    SavedKeysDistinct();
    ReadKeysFields(t, d, SavedKeys, Position(k));
  }

  /** Saving a record and loading the file back into it leaves it as it was. */
  lemma SaveThenLoadIsIdentity(s: Params)
    ensures Loaded(s, SaveMap(s)) == LoadResult(s, Pass)
  {
    LoadSaveRoundTrip(s, s);
    FieldDeterminesAttribute(Loaded(s, SaveMap(s)).params, s);
  }

  /**
   * A file saved by the window holds the step count as a float, because the
   * form update stores it with float(). Such a file still loads whole and
   * restores the record it was saved from.
   */
  lemma FloatStepCountLoads(s: Params)
    ensures Loaded(s, SaveMap(s)[ParamStepsKey := Float(s.paramSteps as real)]) == LoadResult(s, Pass)
  {
    var d := SaveMap(s)[ParamStepsKey := Float(s.paramSteps as real)];
    forall k: Key ensures Admits(d, k) && Stored(k, d[k]) == Field(s, k) {
      SaveMapAt(s, k);
      StoredField(s, k);
    }
    forall k: Key ensures Field(ReadKeys(s, d, SavedKeys), k) == Field(s, k) {
      WholeReadFields(s, d, k);
    }
    UnsavedKept(s, d, SavedKeys);
    FieldDeterminesAttribute(ReadKeys(s, d, SavedKeys), s);
  }

  /** A record is determined by its saved attributes and the ones the file does not hold. */
  lemma FieldDeterminesAttribute(s: Params, s': Params)
    requires forall k :: Field(s, k) == Field(s', k)
    requires Unsaved(s) == Unsaved(s')
    ensures s == s'
  {
    assert Field(s, VersionKey) == Field(s', VersionKey);
    assert Field(s, HKey) == Field(s', HKey);
    assert Field(s, AKey) == Field(s', AKey);
    assert Field(s, BKey) == Field(s', BKey);
    assert Field(s, WKey) == Field(s', WKey);
    assert Field(s, ElSizeFactorKey) == Field(s', ElSizeFactorKey);
    assert Field(s, TKey) == Field(s', TKey);
    assert Field(s, EKey) == Field(s', EKey);
    assert Field(s, VKey) == Field(s', VKey);
    assert Field(s, QKey) == Field(s', QKey);
    assert Field(s, BendKey) == Field(s', BendKey);
    assert Field(s, QendKey) == Field(s', QendKey);
    assert Field(s, ParamStepsKey) == Field(s', ParamStepsKey);
    assert Field(s, ElTypeKey) == Field(s', ElTypeKey);
  }

  // ---------------------------------------------------------------------
  // The mutable records
  // ---------------------------------------------------------------------

  /**
   * The input record of the program. Its attributes are held together as
   * one Params value, and each write to an attribute replaces that value
   * with an updated copy.
   */
  class InputData {
    var params: Params

    /** Every attribute starts at its default. */
    constructor ()
      ensures params == Defaults()
    {
      params := Defaults();
    }

    /** Builds the outline: twelve points, eleven consecutive curves, the closing curve, one surface. */
    method Geometry() returns (g: Geometry)
      ensures fresh(g)
      ensures g.points == PlatePoints(params.h, params.w, params.a, params.b)
      ensures g.curves == PlateCurves()
      ensures g.surfaces == [PlateSurface()]
    {
      g := new Geometry();
      AddBoundaryPoints(g);
      AddBorders(g);
      g.AddSurface([0, 1, 2, 3, 4, 5, 6, 7, 8, 9, 10, 11]);
    }

    /** Adds the twelve corner points of the outline, in order around it. */
    method AddBoundaryPoints(g: Geometry)
      requires g.points == []
      modifies g
      ensures g.points == PlatePoints(params.h, params.w, params.a, params.b)
      ensures g.curves == old(g.curves) && g.surfaces == old(g.surfaces)
    {
      var h, w, a, b := params.h, params.w, params.a, params.b;
      g.AddPoint(Point(0.0, 0.0));
      g.AddPoint(Point((w - a) / 2.0, 0.0));
      g.AddPoint(Point((w - a) / 2.0, b));
      g.AddPoint(Point((w + a) / 2.0, b));
      g.AddPoint(Point((w + a) / 2.0, 0.0));
      g.AddPoint(Point(w, 0.0));
      g.AddPoint(Point(w, h));
      g.AddPoint(Point((w + a) / 2.0, h));
      g.AddPoint(Point((w + a) / 2.0, h - b));
      g.AddPoint(Point((w - a) / 2.0, h - b));
      g.AddPoint(Point((w - a) / 2.0, h));
      g.AddPoint(Point(0.0, h));
    }

    /**
     * Adds the eleven curves joining consecutive points, the one from point 5
     * to point 6 carrying the load marker, then the closing curve from point
     * 0 to point 11 carrying the wall marker.
     */
    method AddBorders(g: Geometry)
      requires g.curves == []
      modifies g
      ensures g.curves == PlateCurves()
      ensures g.points == old(g.points) && g.surfaces == old(g.surfaces)
    {
      for i := 0 to 11
        invariant |g.curves| == i
        invariant forall j :: 0 <= j < i ==> g.curves[j] == PlateCurves()[j]
        invariant g.points == old(g.points) && g.surfaces == old(g.surfaces)
      {
        if i == 5 {
          g.AddSpline(i, i + 1, LoadMarker);
        } else {
          g.AddSpline(i, i + 1, NoMarker);
        }
      }
      g.AddSpline(0, 11, WallMarker);
    }

    /** Fills the key-value object key by key. */
    method Save() returns (d: Json)
      ensures d == SaveMap(params)
    {
      d := map[];
      d := d[VersionKey := Int(params.version)];
      d := d[HKey := Float(params.h)];
      d := d[AKey := Float(params.a)];
      d := d[BKey := Float(params.b)];
      d := d[WKey := Float(params.w)];
      d := d[ElSizeFactorKey := Float(params.elSizeFactor)];
      d := d[TKey := Float(params.t)];
      d := d[EKey := Float(params.E)];
      d := d[VKey := Float(params.v)];
      d := d[QKey := Float(params.q)];
      d := d[BendKey := Float(params.bend)];
      d := d[QendKey := Float(params.qend)];
      d := d[ParamStepsKey := Int(params.paramSteps)];
      d := d[ElTypeKey := Int(params.elType)];
    }

    /**
     * Reads the saved attributes from d, key by key in the order of
     * SavedKeys, stopping at the first key that cannot be read.
     */
    method Load(d: Json) returns (r: Outcome<LoadError>)
      modifies this
      ensures params == Loaded(old(params), d).params
      ensures r == Loaded(old(params), d).outcome
    {
      r := ReadEach(d, SavedKeys);
    }

    /** Reads keys from d in order, stopping at the first key that cannot be read. */
    method ReadEach(d: Json, keys: seq<Key>) returns (r: Outcome<LoadError>)
      modifies this
      ensures params == ReadKeys(old(params), d, keys)
      ensures var n := ReadCount(d, keys);
        r == if n == |keys| then Pass else Fail(ErrorAt(d, keys[n]))
    {
      ghost var goal := ReadKeys(params, d, keys);
      var n := 0;
      while n < |keys|
        invariant n <= |keys|
        invariant ReadKeys(params, d, keys[n..]) == goal
        invariant ReadCount(d, keys) == n + ReadCount(d, keys[n..])
      {
        var k := keys[n];
        if !Admits(d, k) {
          return Fail(ErrorAt(d, k));
        }
        assert keys[n..][1..] == keys[n + 1..];
        params := Read(params, k, d[k]);
        n := n + 1;
      }
      return Pass;
    }
  }

  /** A displacement as the exported files hold it: x, y and a zero z component. */
  datatype Vec3 = Vec3(x: real, y: real, z: real)

  /**
   * The results of the last solve. Two of the program's results are
   * modelled: the nodal displacements as triples, and the mesh topology with
   * the 1-based node numbers of the mesh generator. `solvedFor` is the
   * model's own record of which input they were computed from; the program
   * keeps no such attribute. Each is None until the first solve.
   */
  class OutputData {
    var solvedFor: Option<Params>
    var displ: Option<seq<Vec3>>
    var topo: Option<seq<seq<int>>>

    constructor ()
      ensures solvedFor == None && displ == None && topo == None
    {
      solvedFor, displ, topo := None, None, None;
    }
  }
}
