# PNFEMSoftware: input record, parameter study and input check

This project models the part of the plate program that surrounds its finite-element solve. The program computes the stresses in a plate of height `h` and width `w` that is held by a wall on its left edge and loaded by `q` on its right edge. A slot of width `a` is cut `b` deep into its top and its bottom edge. The solve itself is a call into CALFEM, gmsh and numpy, so here it is a parameter: a function `fem` from the input record to the displacement vector and mesh topology it yields.

Three modules follow the program's three core files:

- **`DataTypes`** models `dataTypes.py`, in `data_types.dfy`:
  - the input record and its defaults;
  - the plate outline handed to the mesher: twelve points, twelve curves with the load marker 6 and the wall marker 12, and one surface;
  - saving to and loading from a key-value object of fourteen keys. Loading is a partial update that stops at the first unreadable key.
- **`Solvers`** models `solvers.py`, in `solvers.dfy`:
  - the parameter study: numpy's `linspace` range, one solve and one export per value, the step file names with their zero-padded step numbers, and the restoring of `b` and `q`;
  - the two result reshapings: the displacement vector into `(x, y, 0)` triples, and the 1-based topology into 0-based polygons.
  - `execute` and `exportVtk` record events in a trace, and the study is specified by the trace it produces.
- **`UserInterface`** models the handlers of `userInterface.py` that form the core, in `user_interface.dfy`:
  - the form update, a sequential parse whose first non-number stops it and raises the text flag;
  - the input check that sets the `calc_inputs` and `bend_input` flags;
  - the flag gates of the execute, save and parameter-study handlers;
  - the element-type buttons.
- `wrappers.dfy` holds the `Option` and `Outcome` types.

Some behaviours of the code are worth stating because they are easy to misread:

- Poisson's ratio: the docstring of the input check (userInterface.py:237-238) gives the range as -1 < v < 0.5, but the check rejects only `v < -1` and `v > 0.5`, so both ends are accepted. The model follows the code (`CheckBoundaries`).
- Restoring `b` and `q`: the study restores them with plain assignments after the loop, so they are restored on normal return only.
- Step count: any step count is accepted. Zero or one step gives a range of that length, and a negative count fails before anything changes (numpy raises).
- The closing curve is written from point 0 to point 11.

Three behaviours of the code are modelled as written and stated as lemmas:

- The form update writes the element-size box to a separate `el_size` attribute and never to `el_size_factor` (`UpdateFromControls`).
- The b-study checks the attribute `b`, not the start of the range it has just read (`StudyStartUnchecked`).
- The check never compares `a` with `w` (`WideSlotAccepted`).

## Model

| member | source | states |
|---|---|---|
| DataTypes.InputData.constructor | dataTypes.py:25-54 | A fresh input record holds the defaults: version 1, h 0.1, w 0.3, a 0.05, b 0.025, el_size_factor 0.5, E 2.08e10, v 0.2, q 1e5, t 0.15, no study, b range 0.025 to 0.0001, q range 1e5 to -1e5, 10 steps, paramFileName "paramStudy", triangles. |
| DataTypes.DefaultStudyRanges | dataTypes.py:43-54 | The default ranges start at the current b and q, the q range ends at -q, neither study is asked for, there are 10 steps and the element type is 2. |
| DataTypes.InputData.Geometry | dataTypes.py:57-100 | Returns a new geometry whose points are the twelve outline points of (h, w, a, b), whose curves are the twelve plate curves, and which has the one surface over curves 0 to 11. |
| DataTypes.InputData.AddBoundaryPoints | dataTypes.py:70-87 | The twelve point calls append exactly the outline points, in order. |
| DataTypes.InputData.AddBorders | dataTypes.py:89-96 | The loop appends curve i to i+1 for i = 0..10, with marker 6 on i = 5 only, then the closing curve 0 to 11 with marker 12. |
| DataTypes.Geometry.constructor | dataTypes.py:68 | A new geometry has no points, curves or surfaces. |
| DataTypes.Geometry.AddPoint | dataTypes.py:76-87 | A point call appends the point and changes nothing else. |
| DataTypes.Geometry.AddSpline | dataTypes.py:92-96 | A spline call appends the curve with its marker and changes nothing else. |
| DataTypes.Geometry.AddSurface | dataTypes.py:98 | A surface call appends the curve list and changes nothing else. |
| DataTypes.PlatePointsSymmetric | dataTypes.py:76-87 | There are twelve points with corners (0,0), (w,0), (w,h), (0,h). Points k and 11-k mirror about y = h/2, and points k and 5-k about x = w/2. |
| DataTypes.PlateCurvesFormClosedLoop | dataTypes.py:90-96 | No curve is degenerate, and point p is an end of curve p and curve (p+11) mod 12 and of no other curve: the curves form one closed loop. |
| DataTypes.PlateCurveMarkers | dataTypes.py:91-96 | Exactly curve 5 has marker 6, exactly curve 11 has marker 12, and all other curves are unmarked. |
| DataTypes.PlateSurfaceUsesEveryCurveOnce | dataTypes.py:98 | The surface lists each of the twelve curves exactly once. |
| DataTypes.PlateEdgesAxisParallel | dataTypes.py:76-96 | Every curve joins two points that share an x or a y coordinate. |
| DataTypes.LoadAndWallEdges | dataTypes.py:81-96 | The load curve runs from (w,0) to (w,h) and the wall curve from (0,0) to (0,h). |
| DataTypes.PlateInsideBox | dataTypes.py:76-87 | If 0 < a < w and 0 < b < h/2, every point lies in [0,w] x [0,h], the slot's sides lie strictly between x = 0 and x = w, and the lower slot edge y = b lies below the upper one y = h - b. |
| DataTypes.InputData.Save | dataTypes.py:117-131 | The object written is the save map of the current record. |
| DataTypes.SaveMapAt | dataTypes.py:117-131 | Every one of the fourteen keys is written, holding its attribute's current value. |
| DataTypes.SavedKeyNames | dataTypes.py:118-131 | The save map has exactly the fourteen keys, and their file names are, in order, version, h, a, b, w, el_size_factor, t, E, v, q, bend, qend, paramSteps, el_type. |
| DataTypes.Position | dataTypes.py:118-131 | Every key is among the saved keys, at a known place. |
| DataTypes.SavedKeysDistinct | dataTypes.py:118-131 | The fourteen saved keys are pairwise different. |
| DataTypes.InputData.Load | dataTypes.py:154-167 | Loading leaves the record and returns the outcome that the load specification gives for the old record and the object. |
| DataTypes.InputData.ReadEach | dataTypes.py:154-167 | Reading keys in order updates the record key by key, stops at the first unreadable key, and fails naming that key. |
| DataTypes.ReadCount | dataTypes.py:154-167 | The number of keys read is at most the number of keys, every key before it is readable, and the key at it is not. |
| DataTypes.ReadSetsOneField | dataTypes.py:154-167 | Reading one key sets that key's attribute to the stored value and leaves every other attribute alone. |
| DataTypes.ReadKeysLeavesOthers | dataTypes.py:154-167 | A key not among those read keeps its attribute, and the unsaved attributes are untouched. |
| DataTypes.ReadKeysFields | dataTypes.py:154-167 | With distinct keys, the i-th key's attribute holds the file's value if it comes before the first unreadable key, and its old value otherwise. |
| DataTypes.LoadStopsAtFirstBadKey | dataTypes.py:154-167 | Load is a partial update: keys before the first key that is missing, or that holds a number with a fractional part under version, paramSteps or el_type, are read, later ones keep their values, paramb, paramq, bstart, qstart, paramFileName and el_size are never touched, and the load passes exactly when every saved key is readable, failing otherwise with that first key. |
| DataTypes.UnsavedKept | dataTypes.py:154-167 | Reading keys never changes the attributes the file does not hold. |
| DataTypes.LoadSaveRoundTrip | dataTypes.py:117-167 | Loading what save wrote, into any record, passes, restores all fourteen saved attributes exactly, and leaves the others as they were. |
| DataTypes.SavedFileIsReadWhole | dataTypes.py:117-167 | Every saved key of a saved file can be read. |
| DataTypes.SavedKeyIsRestored | dataTypes.py:117-167 | Reading a saved file back restores the attribute of each key. |
| DataTypes.StoredField | dataTypes.py:154-167 | Reading back an attribute's saved value gives that value. |
| DataTypes.WholeReadFields | dataTypes.py:154-167 | When every saved key is readable, each attribute ends up with the file's value. |
| DataTypes.SaveThenLoadIsIdentity | dataTypes.py:117-167 | Saving a record and loading the file back into it passes and leaves the record unchanged. |
| DataTypes.FloatStepCountLoads | dataTypes.py:154-167 | A file whose paramSteps was written as a float, as every file the window saves is, loads whole and restores the record it was saved from. |
| DataTypes.FieldDeterminesAttribute | dataTypes.py:117-131 | A record is determined by its fourteen saved values and its unsaved attributes. |
| DataTypes.OutputData.constructor | dataTypes.py:183-202 | A fresh output record holds no results. |
| Solvers.Displacements | solvers.py:145-146 | A vector of 2n components gives n triples, each with z component 0. |
| Solvers.Flatten | solvers.py:145-146 | Flattening n triples gives 2n components. |
| Solvers.FlattenAt | solvers.py:145-146 | Component 2k of the flattening is triple k's x, and component 2k+1 is its y. |
| Solvers.FlattenDisplacements | solvers.py:145-146 | Flattening the triples gives back the displacement vector, so triple k holds a[2k] as x and a[2k+1] as y. |
| Solvers.DisplacementsFlatten | solvers.py:145-146 | Triples whose z is 0 are the displacements of their own flattening. |
| Solvers.ZeroBased | solvers.py:262 | The polygons have the topology's shape: as many polygons, each with as many nodes. |
| Solvers.ZeroBasedRoundTrip | solvers.py:262 | Raising every index of the polygons by one gives the topology back. |
| Solvers.ZeroBasedIndexesPoints | solvers.py:262 | A topology numbering nodes 1..n becomes polygons indexing 0..n-1. |
| Solvers.Linspace | solvers.py:203-204 | The range has exactly num values. |
| Solvers.LinspaceEvenlySpaced | solvers.py:203-204 | With at least two values, the first is start, the last is stop, value i is start + i spacings, and neighbours are one spacing apart. |
| Solvers.LinspaceBetweenEnds | solvers.py:203-204 | Every value lies between start and stop, in either direction. |
| Solvers.LinspaceIncreasing | solvers.py:203-204 | A range whose start is below its stop increases strictly. |
| Solvers.LinspaceDecreasing | solvers.py:203-204 | A range whose start is above its stop, such as the default b range, decreases strictly. |
| Solvers.Decimal | solvers.py:214-217 | Every number has at least one digit. |
| Solvers.DecimalRoundTrip | solvers.py:214-217 | Reading back the decimal digits of n gives n. |
| Solvers.DecimalShape | solvers.py:214-217 | A number has one digit exactly when it is below 10, and a positive number has no leading zero. |
| Solvers.DecimalInjective | solvers.py:214-217 | Different numbers have different decimal forms. |
| Solvers.StepTagTwoDigits | solvers.py:214-217 | Steps 1 to 99 get a two-digit tag. |
| Solvers.StepTagsDistinct | solvers.py:214-217 | Different steps get different tags. |
| Solvers.StepFileNamesDistinct | solvers.py:214-236 | Two steps share a file only when they are the same step of the same study. |
| Solvers.StepFileNameExamples | solvers.py:214-236 | Step 3 of a b-study writes vtks/bParam/paramStudy_01_03.vtk, and step 12 of a q-study writes vtks/qParam/paramStudy_02_12.vtk. |
| Solvers.SweepTrace | solvers.py:208-236 | A study over n values makes 2n events. |
| Solvers.SweepTraceAt | solvers.py:208-236 | Event 2k solves for the input with b (or q) set to value k, and event 2k+1 exports that solve's triples and 0-based polygons to step k's file. |
| Solvers.SweepTraceStep | solvers.py:208-217 | One more value appends that step's solve and export. |
| Solvers.SweepTouchesOnlyItsParameter | solvers.py:208-229 | Each solve of a b-study differs from the input only in b, which is the step's value, and never in q. The same holds for a q-study with the roles exchanged. |
| Solvers.PlanOf | solvers.py:201-223 | No study runs exactly when neither flag is set. A set flag with a negative step count is refused. Otherwise the study follows paramb before paramq and has paramSteps values. |
| Solvers.Solver.constructor | solvers.py:40-44 | The solver holds the given input and output records and has done nothing yet. |
| Solvers.Solver.Execute | solvers.py:46-186 | The output holds the solved input, its triples and its topology, and one solve event is recorded. |
| Solvers.Solver.ExportVtk | solvers.py:257-274 | One export event is recorded, with the file, the stored triples and the stored topology lowered by one. |
| Solvers.Solver.ExecuteParamStudy | solvers.py:197-240 | The input ends as it started, b and q included. No study leaves the trace and output alone. A refused study fails without a trace. A study appends exactly its trace and leaves the output of the last step. |
| Solvers.Solver.Sweep | solvers.py:208-236 | The loop appends the study's trace, value after value, and leaves b (or q) at the last value with that step's results in the output. |
| Solvers.Solver.RunStep | solvers.py:208-217 | One step sets b (or q), solves, and exports to the step's file. |
| UserInterface.Index | userInterface.py:209-219 | Every edit box is read by the form update, at a known place. |
| UserInterface.AssignSetsOneField | userInterface.py:209-219 | Assigning one box's number changes that box's attribute only. |
| UserInterface.ParsedCount | userInterface.py:208-229 | The boxes read are a prefix of the form order. Each holds a number, and the next box does not. |
| UserInterface.AssignFieldsLeavesOthers | userInterface.py:209-219 | A box not among those read keeps its attribute. |
| UserInterface.UnwrittenKept | userInterface.py:209-219 | Assigning boxes never changes version, el_size_factor, paramb, paramq, bstart, qstart, paramFileName, el_type or paramSteps. |
| UserInterface.AssignFieldsAt | userInterface.py:209-219 | With distinct boxes, the i-th box's attribute gets its number if it comes before the first non-number, and keeps its value otherwise. |
| UserInterface.FormOrderDistinct | userInterface.py:209-219 | The eleven boxes of the form order are pairwise different. |
| UserInterface.WholeFormRead | userInterface.py:208-229 | The update reads every box exactly when every box holds a number. |
| UserInterface.UpdateStopsAtFirstNonNumber | userInterface.py:208-229 | Attributes of boxes before the first non-number get the boxes' numbers, and those after keep their old values. |
| UserInterface.StepsKeepCurrent | userInterface.py:220 | Assigning the step count touches no box attribute. |
| UserInterface.UpdateLeavesUnwritten | userInterface.py:208-221 | The update never touches el_size_factor or the other attributes the form does not hold, and sets paramSteps only when every box held a number. |
| UserInterface.FullUpdateFields | userInterface.py:208-221 | When every box holds a number, each attribute gets its box's number. |
| UserInterface.CurrentDeterminesRecord | userInterface.py:208-221 | A record is determined by the attributes the form writes and those it does not. |
| UserInterface.UpdateIdempotent | userInterface.py:377-387 | Updating twice from a form of numbers gives what one update gives, so the second update before a save changes nothing. |
| UserInterface.ControlsHoldNumbers | userInterface.py:174-188 | Every box filled from a record holds a number. |
| UserInterface.ControlsFieldRead | userInterface.py:174-220 | Updating from controls filled from a record gives each box attribute its old value, except el_size, which gets el_size_factor. |
| UserInterface.UpdateFromControls | userInterface.py:174-220 | Updating from untouched controls changes nothing but the stray el_size, which gets a copy of el_size_factor. |
| UserInterface.Lengths | userInterface.py:246-253 | The checked lengths are six, with the end of the b range last. |
| UserInterface.UpdateGate | userInterface.py:99-121 | After a form update no flag is raised exactly when every box held a number and all of these hold: w, h, a and t are positive; 0 < b < h/2; 0 < bend < h/2; -1 <= v <= 0.5. |
| UserInterface.DefaultsPass | userInterface.py:234-321 | The defaults raise neither flag. |
| UserInterface.CheckBoundaries | userInterface.py:287-304 | b = h/2 is rejected, and v = -1 and v = 0.5 are accepted like any value inside the range. |
| UserInterface.LargeBendOnlyFlagsBend | userInterface.py:306-321 | An end of the b range at or above h/2 raises bend_input and does not raise calc_inputs for an otherwise good input. |
| UserInterface.WideSlotAccepted | userInterface.py:234-321 | A slot wider than the plate passes the check, and its outline then leaves the box [0,w] x [0,h]. |
| UserInterface.StudyValuesInsidePlate | userInterface.py:234-321 | When the check passes and the b range starts at b, every value of the b-study lies strictly between 0 and h/2. |
| UserInterface.BStudyGate | userInterface.py:552-591 | A b-study with numbers in its boxes goes ahead exactly when the new bend is strictly between 0 and h/2. calc_inputs is recomputed for the new range but does not stop the study, and text_input is left alone. |
| UserInterface.QStudyGate | userInterface.py:563-584 | A q-study with numbers in its boxes always lowers bend_input and goes ahead. |
| UserInterface.NonNumberStopsStudy | userInterface.py:556-584 | A non-number in a box of the chosen study raises bend_input, which stops the study. |
| UserInterface.StudyStartUnchecked | userInterface.py:558-561 | With the defaults, a b-study from 0.06 goes ahead with no flag raised, although 0.06 >= h/2. |
| UserInterface.ElementTypeIsSaved | userInterface.py:598-620 | The chosen element type is what a save writes under el_type, and no other saved value changes. |
| UserInterface.MainWindow.constructor | userInterface.py:146-172 | A new window has the default input, empty output, a solver over them, no file name and no raised flag. |
| UserInterface.MainWindow.CheckValidInput | userInterface.py:234-321 | calc_inputs becomes true exactly when some of w, h, a, b, t, bend is <= 0, or v < -1, or v > 0.5, or b >= h/2. bend_input becomes true exactly when bend <= 0 or bend >= h/2. text_input and the input are unchanged. |
| UserInterface.MainWindow.ReadBoxes | userInterface.py:208-220 | The boxes are assigned in order up to the first non-number, and the result says whether every box held a number. |
| UserInterface.MainWindow.AssignEach | userInterface.py:208-220 | The loop assigns boxes in order and stops at the first non-number. |
| UserInterface.MainWindow.UpdateModel | userInterface.py:198-231 | The input becomes the partial update of the form. text_input is raised exactly when some box held no number, and the check then sets the other two flags. |
| UserInterface.MainWindow.OnActionExecute | userInterface.py:99-121 | After the update, a solve is recorded exactly when no flag is raised. Otherwise the trace and the output are unchanged. |
| UserInterface.MainWindow.OnActionSave | userInterface.py:364-394 | After the update, the save map of the updated input is written exactly when no flag is raised and a file name is known or chosen. With a raised flag nothing is written and the file name is kept. |
| UserInterface.MainWindow.OnExecuteParamStudy | userInterface.py:541-595 | The request sets the flags as the study-request specification gives. When bend_input is clear, paramSteps is set from the spin box, the trace gains one solve and then the study's events, and the output holds the results of the last solve: the last value of the range, or the request itself when no range is swept. When bend_input is raised, nothing runs and the output is unchanged. |
| UserInterface.MainWindow.OnEltype2 | userInterface.py:598-608 | The element type becomes 2 and nothing else changes. |
| UserInterface.MainWindow.OnEltype3 | userInterface.py:610-620 | The element type becomes 3 and nothing else changes. |

## Left out

- The JSON file reading and writing (dataTypes.py:133-134, 151-152) is I/O. The model file is a map from the fourteen keys to integers and reals. Keys the program never reads, and values of other JSON types, are not modelled.
- DataTypes.InputData.Load: under version, paramSteps or el_type, a whole number written as a float (such as 10.0) is read as its integer. A number with a fractional part stops the load as NotAnInteger, where Python would store it as it is. The record holds those three attributes as integers.
- DataTypes.Geometry: only the point, curve and surface lists of the calfem geometry object are modelled. Mesh generation with gmsh is a foreign library.
- Solvers.Solver.Execute: the mesh, stiffness, assembly, solve and stress recovery are a parameter, `fem`. So are the von Mises and principal stresses (floating point, sqrt and arctan2) and the MATLAB saves. Of the output attributes only the displacement triples and the topology are kept. The model adds `solvedFor`, its own record of which input the stored results belong to; the program keeps no such attribute.
- Solvers.Solver.ExportVtk: the pyvtk file is not written. Only the file name, the triples and the 0-based polygons are recorded. The coordinates and the cell data are left out.
- Solvers.Linspace: reals are exact, so the floating-point rounding of numpy's range is not modelled.
- Lengths, loads and material constants are exact reals throughout, not floats. So the outline's symmetry sums (`DataTypes.PlatePointsSymmetric`), its bounds (`DataTypes.PlateInsideBox`) and the check's comparisons hold exactly in the model, while the program computes them with floating-point rounding.
- Solvers.Solver.ExecuteParamStudy: b and q are restored on normal return only, as in the code. An exception raised inside the solve is not modelled.
- UserInterface.Form: Python's float() parsing of the box text ("nan", "inf", exponents, spaces) is not modelled. A box holds the number it denotes, or nothing.
- UserInterface.MainWindow.UpdateModel: paramSteps is held as an integer. The code stores float(text) of an integer spin box, so a file the window saves holds it as a float such as 10.0. Loading reads that back as the same integer (`DataTypes.FloatStepCountLoads`).
- UserInterface.MainWindow.OnActionExecute: the solve runs synchronously. The thread, the finished callback, the report and the plot buttons are UI glue. The code also builds a fresh solver over the same two records each time, while the model keeps one solver.
- UserInterface.MainWindow.OnExecuteParamStudy: the assignment to the stray attribute `paramFilename` is not modelled, since nothing reads it. Neither are the message boxes, including the final message, which names an unbound variable when neither study button is checked.
- UserInterface.MainWindow.OnActionSave: the file dialog is a parameter, `chosen`.
- onActionSaveAs, onActionOpen, onActionNew, onActionExit, the show handlers, the element-size slider and its rounding (userInterface.py:324-337), and updateButtons are window glue outside the modelled core.
- resultUtilities.py (the report text and the plots) is not part of this model.
