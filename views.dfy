/**
 * `viewStates`: the per-view mesh state the generators update in place,
 * and the user-level operations `graficarTodo`, `limpiarTodo` and
 * `seleccionarEjemplo`. Cameras, renderers, controls and labels are not
 * modelled; a scene is the set of the pipeline's meshes it holds.
 */
module Views {
  import opened Wrappers
  import opened Text
  import opened Evaluation
  import opened Limits
  import opened Sampling
  import opened Profiles
  import opened Scene
  import opened Generators

  /** `viewStates.graph2D`: one slot for the current curve or group. */
  class CurveView {
    /** The scene, or None while it is still `null`. */
    var scene: Option<set<Mesh>>
    var mesh: Option<Mesh>
    /** The meshes whose geometry and material have been disposed. */
    ghost var disposed: set<Mesh>
    /** The lines of released groups, whose geometry and material were never disposed. */
    ghost var leaked: set<Mesh>
    /** Every mesh owning a geometry that this view has drawn. */
    ghost var created: set<Mesh>

    /** The geometries currently in use. */
    ghost function Live(): set<Mesh>
      reads this
    {
      if mesh.Some? then Geometries(mesh.value) else {}
    }

    /** What releasing the current mesh the source's way disposes. */
    ghost function Reached(): set<Mesh>
      reads this
    {
      if mesh.Some? then DisposedBySource(mesh.value) else {}
    }

    /** What releasing the current mesh the source's way leaves undisposed: the lines of a group. */
    ghost function Unreached(): set<Mesh>
      reads this
    {
      Live() - Reached()
    }

    /**
     * The scene holds exactly the current mesh; nothing in use is disposed
     * or leaked, and everything ever drawn is in use, disposed or leaked.
     */
    ghost predicate Valid()
      reads this
    {
      && (mesh.Some? ==> scene.Some?)
      && (scene.Some? ==> scene.value == (if mesh.Some? then {mesh.value} else {}))
      && Live() !! disposed
      && Live() !! leaked
      && created == Live() + disposed + leaked
    }

    /** The initial state `{ scene: null, mesh: null }`. */
    constructor ()
      ensures Valid()
      ensures scene == None && mesh == None && disposed == {} && leaked == {} && created == {}
    {
      scene := None;
      mesh := None;
      disposed := {};
      leaked := {};
      created := {};
    }

    /** `state.scene = new THREE.Scene()` in `initView`, which runs once, before any drawing. */
    method InitScene()
      requires Valid() && scene.None?
      modifies this
      ensures Valid()
      ensures scene == Some({}) && mesh == None
      ensures disposed == old(disposed) && leaked == old(leaked) && created == old(created)
    {
      scene := Some({});
    }

    /**
     * The release as the source writes it: remove the current mesh from the
     * scene, dispose `mesh.geometry` and `mesh.material`, and empty the slot.
     * A group has neither, so every line of a released group leaks: it was
     * drawn, and is now neither in use nor disposed.
     */
    method ReleaseMesh()
      requires Valid()
      modifies this
      ensures Valid()
      ensures mesh == None
      ensures scene == if old(scene).Some? then Some({}) else None
      ensures disposed == old(disposed) + old(Reached())
      ensures leaked == old(leaked) + old(Unreached())
      ensures created == old(created)
      ensures old(mesh).Some? && old(mesh).value.shape.Group? ==>
                Elements(old(mesh).value.shape.lines) <= created - disposed
    {
      if mesh.Some? {
        var m := mesh.value;
        assert scene.value - {m} == {};
        scene := Some(scene.value - {m});
        disposed := disposed + DisposedBySource(m);
        leaked := leaked + (Geometries(m) - DisposedBySource(m));
        mesh := None;
      }
    }

    /**
     * The release with the leak corrected: dispose everything the current
     * mesh owns, the lines of a group included, so nothing new leaks.
     */
    method ReleaseMeshCorrected()
      requires Valid()
      modifies this
      ensures Valid()
      ensures mesh == None
      ensures scene == if old(scene).Some? then Some({}) else None
      ensures disposed == old(disposed) + old(Live())
      ensures leaked == old(leaked) && created == old(created)
    {
      if mesh.Some? {
        scene := Some(scene.value - {mesh.value});
        disposed := disposed + Geometries(mesh.value);
        mesh := None;
      }
    }

    /**
     * `generarCurva2D`: unless the scene is null, replace the current mesh
     * by a fresh line through all 101 samples, the old mesh being released
     * first the source's way.
     */
    method DrawCurve(eval: Evaluator, formula: string, parsedA: Option<real>, parsedB: Option<real>)
      requires Valid()
      modifies this
      ensures Valid()
      ensures old(scene).None? ==>
                scene == old(scene) && mesh == old(mesh) && disposed == old(disposed) && leaked == old(leaked)
      ensures old(scene).Some? ==>
                && mesh.Some? && fresh(mesh.value)
                && mesh.value.shape == SingleCurve(eval, formula, GetLimits(parsedA, parsedB))
                && scene == Some({mesh.value})
                && disposed == old(disposed) + old(Reached())
                && leaked == old(leaked) + old(Unreached())
    {
      var lim := GetLimits(parsedA, parsedB);
      if scene.None? {
        return;
      }
      ReleaseMesh();
      var points := SampleCurve(eval, formula, lim, CurveSegments);
      var line := new Mesh(Polyline(points, CurveColor));
      mesh := Some(line);
      scene := Some(scene.value + {line});
      created := created + {line};
    }

    /**
     * The loop of `generarCurvas2D`: one fresh line per formula with more
     * than one defined vertex, in the colour of the formula's position.
     */
    method NewCurveLines(eval: Evaluator, formulas: seq<string>, lim: Interval) returns (lines: seq<Mesh>, drawn: nat)
      ensures Shapes(lines) == CurveLines(eval, formulas, lim)
      ensures drawn == |lines|
      ensures forall c | c in lines :: fresh(c)
    {
      lines, drawn := [], 0;
      for index := 0 to |formulas|
        invariant Shapes(lines) == CurveLines(eval, formulas[..index], lim)
        invariant drawn == |lines|
        invariant forall c | c in lines :: fresh(c)
      {
        var parsed := ReplaceCommas(formulas[index]);
        var points := SampleDefined(eval, parsed, lim, CurveSegments);
        SamplesIgnorePriorNormalisation(eval, formulas[index], lim, CurveSegments);
        assert points == DefinedCurve(eval, formulas[index], lim);
        assert formulas[..index + 1][..index] == formulas[..index];
        if |points| > 1 {
          var line := new Mesh(Polyline(points, Palette[index % |Palette|]));
          ShapesAppend(lines, line);
          lines := lines + [line];
          drawn := drawn + 1;
        }
      }
      assert formulas[..|formulas|] == formulas;
    }

    /**
     * `generarCurvas2D`: unless the scene is null, release the current mesh
     * the source's way, draw one line per formula with more than one defined
     * vertex, and put the group of lines in the slot only if at least one
     * line was drawn.
     */
    method DrawCurves(eval: Evaluator, formulas: seq<string>, parsedA: Option<real>, parsedB: Option<real>)
      requires Valid()
      modifies this
      ensures Valid()
      ensures old(scene).None? ==>
                scene == old(scene) && mesh == old(mesh) && disposed == old(disposed) && leaked == old(leaked)
      ensures old(scene).Some? ==>
                && disposed == old(disposed) + old(Reached())
                && leaked == old(leaked) + old(Unreached())
                && (mesh.Some? <==> CurveLines(eval, formulas, GetLimits(parsedA, parsedB)) != [])
                && (mesh.None? ==> scene == Some({}))
                && (mesh.Some? ==>
                      && fresh(mesh.value) && scene == Some({mesh.value})
                      && mesh.value.shape.Group?
                      && Shapes(mesh.value.shape.lines) == CurveLines(eval, formulas, GetLimits(parsedA, parsedB))
                      && (forall c | c in mesh.value.shape.lines :: fresh(c)))
    {
      var lim := GetLimits(parsedA, parsedB);
      if scene.None? {
        return;
      }
      ReleaseMesh();
      var lines, drawn := NewCurveLines(eval, formulas, lim);
      if drawn > 0 {
        var group := new Mesh(Group(lines));
        mesh := Some(group);
        scene := Some(scene.value + {group});
        created := created + Geometries(group);
      }
    }
  }

  /** `viewStates.graph3DX` or `viewStates.graph3DY`: an accumulating list of solids. */
  class SolidView {
    /** The scene, or None while it is still `null`. */
    var scene: Option<set<Mesh>>
    var meshes: seq<Mesh>
    /** The meshes whose geometry and material have been disposed. */
    ghost var disposed: set<Mesh>
    /** Every mesh this view has drawn. */
    ghost var created: set<Mesh>

    /**
     * The scene holds exactly the tracked solids, all of them lathes; none
     * in use is disposed, and everything ever drawn is in use or disposed.
     */
    ghost predicate Valid()
      reads this
    {
      && (meshes != [] ==> scene.Some?)
      && (scene.Some? ==> scene.value == Elements(meshes))
      && (forall m | m in meshes :: m.shape.Lathe?)
      && Elements(meshes) !! disposed
      && created == Elements(meshes) + disposed
    }

    /** The initial state `{ scene: null, meshes: [] }`. */
    constructor ()
      ensures Valid()
      ensures scene == None && meshes == [] && disposed == {} && created == {}
    {
      scene := None;
      meshes := [];
      disposed := {};
      created := {};
    }

    /** `state.scene = new THREE.Scene()` in `initView`, which runs once, before any drawing. */
    method InitScene()
      requires Valid() && scene.None?
      modifies this
      ensures Valid()
      ensures scene == Some({}) && meshes == []
      ensures disposed == old(disposed) && created == old(created)
    {
      scene := Some({});
    }

    /** `clearSolidos`: remove every tracked solid from the scene, dispose it, and empty the list. */
    method Clear()
      requires Valid()
      modifies this
      ensures Valid()
      ensures meshes == []
      ensures scene == if old(scene).Some? then Some({}) else None
      ensures disposed == old(disposed) + Elements(old(meshes))
      ensures created == old(created)
    {
      var k := 0;
      while k < |meshes|
        invariant 0 <= k <= |meshes|
        invariant meshes == old(meshes) && created == old(created)
        invariant scene.Some? <==> old(scene).Some?
        invariant meshes != [] ==> scene.Some?
        invariant scene.Some? ==> scene.value == Elements(meshes) - Elements(meshes[..k])
        invariant disposed == old(disposed) + Elements(meshes[..k])
      {
        var m := meshes[k];
        assert Elements(meshes[..k + 1]) == Elements(meshes[..k]) + {m};
        scene := Some(scene.value - {m});
        disposed := disposed + {m};
        k := k + 1;
      }
      assert meshes[..k] == meshes;
      assert scene.Some? ==> scene.value == {};
      meshes := [];
    }

    /**
     * `generarSolidoX`: unless the scene is null, the formula blank or the
     * profile shorter than two points, append one fresh lathe about X.
     */
    method AddSolidX(eval: Evaluator, formula: string, color: Color, parsedA: Option<real>, parsedB: Option<real>)
      requires Valid()
      modifies this
      ensures Valid()
      ensures scene.Some? <==> old(scene).Some?
      ensures disposed == old(disposed)
      ensures Shapes(meshes) == Shapes(old(meshes))
                + if old(scene).Some? then Listed(SolidAboutX(eval, formula, color, GetLimits(parsedA, parsedB))) else []
      ensures old(meshes) <= meshes
      ensures forall i | |old(meshes)| <= i < |meshes| :: fresh(meshes[i])
    {
      var lim := GetLimits(parsedA, parsedB);
      if scene.None? || IsBlank(formula) {
        return;
      }
      var profile := SampleProfileX(eval, formula, lim, RadialSegments);
      if |profile| < 2 {
        return;
      }
      var m := new Mesh(Lathe(profile, RadialSegments, color, AboutX));
      ShapesAppend(meshes, m);
      scene := Some(scene.value + {m});
      meshes := meshes + [m];
      created := created + {m};
    }

    /**
     * `generarSolidoY`: unless the scene is null, the formula blank or the
     * profile shorter than two points, append one fresh lathe about Y.
     */
    method AddSolidY(eval: Evaluator, formula: string, color: Color, parsedA: Option<real>, parsedB: Option<real>)
      requires Valid()
      modifies this
      ensures Valid()
      ensures scene.Some? <==> old(scene).Some?
      ensures disposed == old(disposed)
      ensures Shapes(meshes) == Shapes(old(meshes))
                + if old(scene).Some? then Listed(SolidAboutY(eval, formula, color, GetLimits(parsedA, parsedB))) else []
      ensures old(meshes) <= meshes
      ensures forall i | |old(meshes)| <= i < |meshes| :: fresh(meshes[i])
    {
      var lim := GetLimits(parsedA, parsedB);
      if scene.None? || IsBlank(formula) {
        return;
      }
      var profile := SampleProfileY(eval, formula, lim, RadialSegments);
      if |profile| < 2 {
        return;
      }
      var m := new Mesh(Lathe(profile, RadialSegments, color, AboutY));
      ShapesAppend(meshes, m);
      scene := Some(scene.value + {m});
      meshes := meshes + [m];
      created := created + {m};
    }

    /** The `generarSolidoX` calls of `graficarTodo`: one per present formula, in field order. */
    method AddPresentSolidsX(eval: Evaluator, raw1: string, raw2: string, parsedA: Option<real>, parsedB: Option<real>)
      requires Valid()
      modifies this
      ensures Valid()
      ensures scene.Some? <==> old(scene).Some?
      ensures disposed == old(disposed)
      ensures Shapes(meshes) == Shapes(old(meshes))
                + if old(scene).Some? then SolidsAboutX(eval, raw1, raw2, GetLimits(parsedA, parsedB)) else []
      ensures old(meshes) <= meshes
      ensures forall i | |old(meshes)| <= i < |meshes| :: fresh(meshes[i])
    {
      ghost var lim, hasScene, s0 := GetLimits(parsedA, parsedB), scene.Some?, Shapes(meshes);
      if raw1 != [] {
        AddSolidX(eval, raw1, FirstAboutX, parsedA, parsedB);
      }
      ghost var first := if raw1 != [] && hasScene then Listed(SolidAboutX(eval, raw1, FirstAboutX, lim)) else [];
      assert Shapes(meshes) == s0 + first;
      ghost var s1 := Shapes(meshes);
      if raw2 != [] {
        AddSolidX(eval, raw2, SecondAboutX, parsedA, parsedB);
      }
      ghost var second := if raw2 != [] && hasScene then Listed(SolidAboutX(eval, raw2, SecondAboutX, lim)) else [];
      assert Shapes(meshes) == s1 + second;
      assert s0 + first + second == s0 + (first + second);
    }

    /** The `generarSolidoY` calls of `graficarTodo`: one per present formula, in field order. */
    method AddPresentSolidsY(eval: Evaluator, raw1: string, raw2: string, parsedA: Option<real>, parsedB: Option<real>)
      requires Valid()
      modifies this
      ensures Valid()
      ensures scene.Some? <==> old(scene).Some?
      ensures disposed == old(disposed)
      ensures Shapes(meshes) == Shapes(old(meshes))
                + if old(scene).Some? then SolidsAboutY(eval, raw1, raw2, GetLimits(parsedA, parsedB)) else []
      ensures old(meshes) <= meshes
      ensures forall i | |old(meshes)| <= i < |meshes| :: fresh(meshes[i])
    {
      ghost var lim, hasScene, s0 := GetLimits(parsedA, parsedB), scene.Some?, Shapes(meshes);
      if raw1 != [] {
        AddSolidY(eval, raw1, FirstAboutY, parsedA, parsedB);
      }
      ghost var first := if raw1 != [] && hasScene then Listed(SolidAboutY(eval, raw1, FirstAboutY, lim)) else [];
      assert Shapes(meshes) == s0 + first;
      ghost var s1 := Shapes(meshes);
      if raw2 != [] {
        AddSolidY(eval, raw2, SecondAboutY, parsedA, parsedB);
      }
      ghost var second := if raw2 != [] && hasScene then Listed(SolidAboutY(eval, raw2, SecondAboutY, lim)) else [];
      assert Shapes(meshes) == s1 + second;
      assert s0 + first + second == s0 + (first + second);
    }
  }

  /** `viewStates`: the 2D view and the two 3D views. */
  class ViewStates {
    const graph2D: CurveView
    const graph3DX: SolidView
    const graph3DY: SolidView

    ghost predicate Valid()
      reads this, graph2D, graph3DX, graph3DY
    {
      graph3DX != graph3DY && graph2D.Valid() && graph3DX.Valid() && graph3DY.Valid()
    }

    /** The initial `viewStates`: three views with null scenes and nothing drawn. */
    constructor ()
      ensures Valid()
      ensures fresh(graph2D) && fresh(graph3DX) && fresh(graph3DY)
      ensures graph2D.scene == None && graph2D.mesh == None
      ensures graph3DX.scene == None && graph3DX.meshes == []
      ensures graph3DY.scene == None && graph3DY.meshes == []
    {
      graph2D := new CurveView();
      graph3DX := new SolidView();
      graph3DY := new SolidView();
    }

    /**
     * The 2D half of `graficarTodo`, for the trimmed formulas: the single
     * curve when one formula is present, the multi-curve group when two
     * are, and nothing at all when none is.
     */
    method RedrawCurves(eval: Evaluator, raw1: string, raw2: string, parsedA: Option<real>, parsedB: Option<real>)
      requires Valid()
      modifies graph2D
      ensures Valid()
      ensures graph2D.scene.Some? <==> old(graph2D.scene).Some?
      ensures var formulas := PresentFormulas(raw1, raw2);
              (formulas == [] || old(graph2D.scene).None?) ==>
                && graph2D.scene == old(graph2D.scene) && graph2D.mesh == old(graph2D.mesh)
                && graph2D.disposed == old(graph2D.disposed) && graph2D.leaked == old(graph2D.leaked)
      ensures var formulas := PresentFormulas(raw1, raw2);
              |formulas| == 1 && old(graph2D.scene).Some? ==>
                && graph2D.mesh.Some? && fresh(graph2D.mesh.value)
                && graph2D.mesh.value.shape == SingleCurve(eval, formulas[0], GetLimits(parsedA, parsedB))
                && graph2D.disposed == old(graph2D.disposed) + old(graph2D.Reached())
                && graph2D.leaked == old(graph2D.leaked) + old(graph2D.Unreached())
      ensures var formulas := PresentFormulas(raw1, raw2);
              var lim := GetLimits(parsedA, parsedB);
              |formulas| == 2 && old(graph2D.scene).Some? ==>
                && graph2D.disposed == old(graph2D.disposed) + old(graph2D.Reached())
                && graph2D.leaked == old(graph2D.leaked) + old(graph2D.Unreached())
                && (graph2D.mesh.Some? <==> CurveLines(eval, formulas, lim) != [])
                && (graph2D.mesh.Some? ==>
                      && fresh(graph2D.mesh.value) && graph2D.mesh.value.shape.Group?
                      && Shapes(graph2D.mesh.value.shape.lines) == CurveLines(eval, formulas, lim))
    {
      var formulas: seq<string> := [];
      if raw1 != [] {
        formulas := formulas + [raw1];
      }
      if raw2 != [] {
        formulas := formulas + [raw2];
      }
      assert formulas == PresentFormulas(raw1, raw2);
      if |formulas| == 1 {
        graph2D.DrawCurve(eval, formulas[0], parsedA, parsedB);
      } else if |formulas| > 1 {
        graph2D.DrawCurves(eval, formulas, parsedA, parsedB);
      }
    }

    /**
     * The 3D half of `graficarTodo`, for the trimmed formulas: clear both
     * views, then add the solids of each present formula, first about X
     * and then about Y.
     */
    method RedrawSolids(eval: Evaluator, raw1: string, raw2: string, parsedA: Option<real>, parsedB: Option<real>)
      requires Valid()
      modifies graph3DX, graph3DY
      ensures Valid()
      ensures graph3DX.scene.Some? <==> old(graph3DX.scene).Some?
      ensures graph3DY.scene.Some? <==> old(graph3DY.scene).Some?
      ensures var lim := GetLimits(parsedA, parsedB);
              Shapes(graph3DX.meshes) == (if old(graph3DX.scene).Some? then SolidsAboutX(eval, raw1, raw2, lim) else [])
      ensures var lim := GetLimits(parsedA, parsedB);
              Shapes(graph3DY.meshes) == (if old(graph3DY.scene).Some? then SolidsAboutY(eval, raw1, raw2, lim) else [])
      ensures forall m | m in graph3DX.meshes :: fresh(m)
      ensures forall m | m in graph3DY.meshes :: fresh(m)
      ensures graph3DX.disposed == old(graph3DX.disposed) + Elements(old(graph3DX.meshes))
      ensures graph3DY.disposed == old(graph3DY.disposed) + Elements(old(graph3DY.meshes))
    {
      graph3DX.Clear();
      graph3DY.Clear();
      assert Shapes(graph3DX.meshes) == [] && Shapes(graph3DY.meshes) == [];
      graph3DX.AddPresentSolidsX(eval, raw1, raw2, parsedA, parsedB);
      graph3DY.AddPresentSolidsY(eval, raw1, raw2, parsedA, parsedB);
    }

    /**
     * `graficarTodo` for the two formula fields and the two parsed interval
     * fields. Each 3D view ends up holding the solids of the present
     * formulas, computed from the inputs alone, so a second call with the
     * same inputs leaves the same number of meshes (at most two), the first
     * call's meshes removed and disposed; the 2D scene holds at most one.
     */
    method RegenerateAll(eval: Evaluator, field1: string, field2: string, parsedA: Option<real>, parsedB: Option<real>)
      requires Valid()
      modifies graph2D, graph3DX, graph3DY
      ensures Valid()
      ensures graph2D.scene.Some? <==> old(graph2D.scene).Some?
      ensures graph3DX.scene.Some? <==> old(graph3DX.scene).Some?
      ensures graph3DY.scene.Some? <==> old(graph3DY.scene).Some?
      ensures graph2D.scene.Some? ==> |graph2D.scene.value| <= 1
      ensures var formulas := PresentFormulas(Trim(field1), Trim(field2));
              (formulas == [] || old(graph2D.scene).None?) ==>
                && graph2D.scene == old(graph2D.scene) && graph2D.mesh == old(graph2D.mesh)
                && graph2D.disposed == old(graph2D.disposed) && graph2D.leaked == old(graph2D.leaked)
      ensures var formulas := PresentFormulas(Trim(field1), Trim(field2));
              |formulas| == 1 && old(graph2D.scene).Some? ==>
                && graph2D.mesh.Some? && fresh(graph2D.mesh.value)
                && graph2D.mesh.value.shape == SingleCurve(eval, formulas[0], GetLimits(parsedA, parsedB))
                && graph2D.disposed == old(graph2D.disposed) + old(graph2D.Reached())
                && graph2D.leaked == old(graph2D.leaked) + old(graph2D.Unreached())
      ensures var formulas := PresentFormulas(Trim(field1), Trim(field2));
              var lim := GetLimits(parsedA, parsedB);
              |formulas| == 2 && old(graph2D.scene).Some? ==>
                && graph2D.disposed == old(graph2D.disposed) + old(graph2D.Reached())
                && graph2D.leaked == old(graph2D.leaked) + old(graph2D.Unreached())
                && (graph2D.mesh.Some? <==> CurveLines(eval, formulas, lim) != [])
                && (graph2D.mesh.Some? ==>
                      && fresh(graph2D.mesh.value) && graph2D.mesh.value.shape.Group?
                      && Shapes(graph2D.mesh.value.shape.lines) == CurveLines(eval, formulas, lim))
      ensures var lim := GetLimits(parsedA, parsedB);
              Shapes(graph3DX.meshes) == (if old(graph3DX.scene).Some? then SolidsAboutX(eval, Trim(field1), Trim(field2), lim) else [])
      ensures var lim := GetLimits(parsedA, parsedB);
              Shapes(graph3DY.meshes) == (if old(graph3DY.scene).Some? then SolidsAboutY(eval, Trim(field1), Trim(field2), lim) else [])
      ensures graph3DX.disposed == old(graph3DX.disposed) + Elements(old(graph3DX.meshes))
      ensures graph3DY.disposed == old(graph3DY.disposed) + Elements(old(graph3DY.meshes))
      ensures graph3DX.scene.Some? ==> graph3DX.scene.value !! Elements(old(graph3DX.meshes))
      ensures graph3DY.scene.Some? ==> graph3DY.scene.value !! Elements(old(graph3DY.meshes))
      ensures |graph3DX.meshes| <= 2 && |graph3DY.meshes| <= 2
    {
      var raw1 := Trim(field1);
      var raw2 := Trim(field2);
      RedrawCurves(eval, raw1, raw2, parsedA, parsedB);
      RedrawSolids(eval, raw1, raw2, parsedA, parsedB);
      SolidsPerFormula(eval, raw1, raw2, GetLimits(parsedA, parsedB));
    }

    /** The mesh part of `limpiarTodo`: release the 2D mesh the source's way and clear both 3D views. */
    method ClearAll()
      requires Valid()
      modifies graph2D, graph3DX, graph3DY
      ensures Valid()
      ensures graph2D.mesh == None && graph3DX.meshes == [] && graph3DY.meshes == []
      ensures graph2D.scene == if old(graph2D.scene).Some? then Some({}) else None
      ensures graph3DX.scene == if old(graph3DX.scene).Some? then Some({}) else None
      ensures graph3DY.scene == if old(graph3DY.scene).Some? then Some({}) else None
      ensures graph2D.disposed == old(graph2D.disposed) + old(graph2D.Reached())
      ensures graph2D.leaked == old(graph2D.leaked) + old(graph2D.Unreached())
      ensures graph3DX.disposed == old(graph3DX.disposed) + Elements(old(graph3DX.meshes))
      ensures graph3DY.disposed == old(graph3DY.disposed) + Elements(old(graph3DY.meshes))
    {
      graph2D.ReleaseMesh();
      graph3DX.Clear();
      graph3DY.Clear();
    }

    /**
     * `seleccionarEjemplo`: the preset formula goes into the first field,
     * the second field is emptied, and everything is regenerated.
     */
    method SelectExample(eval: Evaluator, formula: string, parsedA: Option<real>, parsedB: Option<real>)
      requires Valid()
      modifies graph2D, graph3DX, graph3DY
      ensures Valid()
      ensures graph2D.scene.Some? <==> old(graph2D.scene).Some?
      ensures graph3DX.scene.Some? <==> old(graph3DX.scene).Some?
      ensures graph3DY.scene.Some? <==> old(graph3DY.scene).Some?
      ensures (Trim(formula) == [] || old(graph2D.scene).None?) ==>
                && graph2D.scene == old(graph2D.scene) && graph2D.mesh == old(graph2D.mesh)
                && graph2D.disposed == old(graph2D.disposed) && graph2D.leaked == old(graph2D.leaked)
      ensures Trim(formula) != [] && old(graph2D.scene).Some? ==>
                && graph2D.mesh.Some? && fresh(graph2D.mesh.value)
                && graph2D.mesh.value.shape == SingleCurve(eval, Trim(formula), GetLimits(parsedA, parsedB))
                && graph2D.disposed == old(graph2D.disposed) + old(graph2D.Reached())
                && graph2D.leaked == old(graph2D.leaked) + old(graph2D.Unreached())
      ensures var lim := GetLimits(parsedA, parsedB);
              Shapes(graph3DX.meshes) == (if old(graph3DX.scene).Some? then SolidsAboutX(eval, Trim(formula), [], lim) else [])
      ensures var lim := GetLimits(parsedA, parsedB);
              Shapes(graph3DY.meshes) == (if old(graph3DY.scene).Some? then SolidsAboutY(eval, Trim(formula), [], lim) else [])
      ensures graph3DX.disposed == old(graph3DX.disposed) + Elements(old(graph3DX.meshes))
      ensures graph3DY.disposed == old(graph3DY.disposed) + Elements(old(graph3DY.meshes))
      ensures graph3DX.scene.Some? ==> graph3DX.scene.value !! Elements(old(graph3DX.meshes))
      ensures graph3DY.scene.Some? ==> graph3DY.scene.value !! Elements(old(graph3DY.meshes))
    {
      RegenerateAll(eval, formula, "", parsedA, parsedB);
    }
  }

  /**
   * Regenerating twice with unchanged inputs: the second call leaves each
   * 3D view with as many meshes as the first did, and the 2D scene with at
   * most one.
   */
  method RegenerateTwice(views: ViewStates, eval: Evaluator, field1: string, field2: string,
                         parsedA: Option<real>, parsedB: Option<real>) returns (firstX: nat, firstY: nat)
    requires views.Valid()
    modifies views.graph2D, views.graph3DX, views.graph3DY
    ensures views.Valid()
    ensures |views.graph3DX.meshes| == firstX <= 2
    ensures |views.graph3DY.meshes| == firstY <= 2
    ensures views.graph2D.scene.Some? ==> |views.graph2D.scene.value| <= 1
  {
    views.RegenerateAll(eval, field1, field2, parsedA, parsedB);
    firstX, firstY := |views.graph3DX.meshes|, |views.graph3DY.meshes|;
    views.RegenerateAll(eval, field1, field2, parsedA, parsedB);
  }
}
