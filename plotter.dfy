/**
 * The web client's scene bookkeeping (web_client/js/main.js): the id-keyed
 * registry of scene objects shared by both plotters, the 2D plotter's legend
 * and its auto-fit / user-control flags, the command dispatch of both
 * plotters, and the application manager that keeps one active plotter.
 *
 * A three.js object is represented by a handle, the number of objects built
 * before it, together with the geometry it was last given. The three.js
 * scene is the set of handles added to it; `disposed` holds the handles
 * whose geometry and material were released.
 */
module Plotter {
  import opened Options
  import opened Protocol
  import Viewport
  import DynamicGrid

  // ---------------------------------------------------------------------
  // The scene registry (`BasePlotter.sceneObjects` and the three.js scene)
  // ---------------------------------------------------------------------

  datatype SceneObject = SceneObject(handle: nat, geometry: Geometry)

  datatype Registry = Registry(
    objects: map<string, SceneObject>, scene: set<nat>, disposed: set<nat>, built: nat)

  const EmptyRegistry := Registry(map[], {}, {}, 0)

  /** The handles the registry maps some id to. */
  function Handles(objects: map<string, SceneObject>): set<nat>
  {
    set id | id in objects :: objects[id].handle
  }

  /** The handles of all objects built so far. */
  function Below(n: nat): (s: set<nat>)
    ensures forall h: nat :: h in s <==> h < n
  {
    if n == 0 then {} else Below(n - 1) + {n - 1}
  }

  /**
   * Nothing leaks: every object ever built is either registered under exactly
   * one id and shown in the scene, or removed from the scene and disposed.
   */
  ghost predicate RegistryValid(r: Registry)
  {
    && (forall id :: id in r.objects ==> r.objects[id].handle < r.built)
    && (forall a, b :: a in r.objects && b in r.objects && a != b ==> r.objects[a].handle != r.objects[b].handle)
    && r.scene == Handles(r.objects)
    && r.scene !! r.disposed
    && r.scene + r.disposed == Below(r.built)
  }

  /**
   * `removeObject(id)`: an unknown id changes nothing; otherwise the object
   * leaves the scene, is disposed and is unregistered.
   */
  function Removed(r: Registry, id: string): (s: Registry)
    ensures s.objects == r.objects - {id} && s.built == r.built
    ensures id !in r.objects ==> s == r
  {
    if id in r.objects then
      var h := r.objects[id].handle;
      Registry(r.objects - {id}, r.scene - {h}, r.disposed + {h}, r.built)
    else
      r
  }

  /**
   * The ADD arm: an object already registered under `id` is removed first,
   * then a newly built object is registered under `id` and shown.
   */
  function Added(r: Registry, id: string, g: Geometry): (s: Registry)
    ensures s.objects.Keys == r.objects.Keys + {id}
    ensures s.objects[id] == SceneObject(r.built, g) && s.built == r.built + 1
    ensures forall other :: other in r.objects && other != id ==> s.objects[other] == r.objects[other]
  {
    var t := Removed(r, id);
    Registry(t.objects[id := SceneObject(t.built, g)], t.scene + {t.built}, t.disposed, t.built + 1)
  }

  /**
   * The UPDATE arm: an unknown id changes nothing; a known one keeps its
   * object, which takes the new geometry.
   */
  function Updated(r: Registry, id: string, g: Geometry): (s: Registry)
    ensures s.objects.Keys == r.objects.Keys && s.scene == r.scene && s.disposed == r.disposed
    ensures forall other :: other in r.objects ==> s.objects[other].handle == r.objects[other].handle
    ensures id in r.objects ==> s.objects[id].geometry == g
    ensures id !in r.objects ==> s == r
  {
    if id in r.objects then r.(objects := r.objects[id := r.objects[id].(geometry := g)]) else r
  }

  /** `destroy()` on the registry: every object removed and disposed. */
  function Cleared(r: Registry): (s: Registry)
    ensures s.objects == map[] && s.scene == {}
    ensures s.disposed == r.disposed + r.scene && s.built == r.built
  {
    Registry(map[], {}, r.disposed + r.scene, r.built)
  }

  /** `r` is `start` with some of its objects removed: still leak-free, no handle built or lost. */
  ghost predicate PartlyCleared(start: Registry, r: Registry)
  {
    && RegistryValid(r)
    && r.built == start.built
    && r.scene + r.disposed == start.scene + start.disposed
    && start.disposed <= r.disposed
    && r.scene <= start.scene
  }

  /** One more removal stays partly cleared and unregisters one object. */
  lemma RemovedPartlyCleared(start: Registry, r: Registry, id: string)
    requires PartlyCleared(start, r) && id in r.objects
    ensures PartlyCleared(start, Removed(r, id))
    ensures |Removed(r, id).objects| < |r.objects|
  {
    RemovedKeepsValid(r, id);
    assert Removed(r, id).objects.Keys == r.objects.Keys - {id};
  }

  /** Once no object is registered, the removals have cleared the registry. */
  lemma FullyCleared(start: Registry, r: Registry)
    requires RegistryValid(start) && PartlyCleared(start, r) && r.objects == map[]
    ensures r == Cleared(start)
  {
    assert r.scene == {};
  }

  lemma {:induction false} HandlesWithout(objects: map<string, SceneObject>, id: string)
    requires id in objects
    requires forall a, b :: a in objects && b in objects && a != b ==> objects[a].handle != objects[b].handle
    ensures Handles(objects - {id}) == Handles(objects) - {objects[id].handle}
  {
    var h := objects[id].handle;
    forall x | x in Handles(objects) - {h}
      ensures x in Handles(objects - {id})
    {
      var other :| other in objects && objects[other].handle == x;
      assert other != id;
      assert other in objects - {id};
    }
  }

  /** Removing keeps the registry leak-free and moves the object's handle from the scene to the disposed set. */
  lemma RemovedKeepsValid(r: Registry, id: string)
    requires RegistryValid(r)
    ensures RegistryValid(Removed(r, id))
    ensures id in r.objects ==> r.objects[id].handle !in Removed(r, id).scene && r.objects[id].handle in Removed(r, id).disposed
  {
    if id in r.objects {
      HandlesWithout(r.objects, id);
    }
  }

  /**
   * Adding keeps the registry leak-free; when the id was taken, the object it
   * named is no longer in the scene and is disposed, so ids stay unique in the
   * scene as well as in the map.
   */
  lemma AddedKeepsValid(r: Registry, id: string, g: Geometry)
    requires RegistryValid(r)
    ensures RegistryValid(Added(r, id, g))
    ensures id in r.objects ==> r.objects[id].handle !in Added(r, id, g).scene && r.objects[id].handle in Added(r, id, g).disposed
    ensures Added(r, id, g).scene == Removed(r, id).scene + {r.built}
  {
    RemovedKeepsValid(r, id);
    var t := Removed(r, id);
    var s := Added(r, id, g);
    assert t.built !in t.scene + t.disposed;
    forall x | x in Handles(s.objects)
      ensures x in t.scene + {t.built}
    {
      var other :| other in s.objects && s.objects[other].handle == x;
      if other != id {
        assert other in t.objects;
      }
    }
    forall x | x in t.scene + {t.built}
      ensures x in Handles(s.objects)
    {
      if x == t.built {
        assert s.objects[id].handle == x;
      } else {
        var other :| other in t.objects && t.objects[other].handle == x;
        assert other != id && s.objects[other].handle == x;
      }
    }
    assert Below(s.built) == Below(t.built) + {t.built};
  }

  /** Updating keeps the registry leak-free. */
  lemma UpdatedKeepsValid(r: Registry, id: string, g: Geometry)
    requires RegistryValid(r)
    ensures RegistryValid(Updated(r, id, g))
  {
    var s := Updated(r, id, g);
    forall x | x in Handles(r.objects)
      ensures x in Handles(s.objects)
    {
      var other :| other in r.objects && r.objects[other].handle == x;
      assert s.objects[other].handle == x;
    }
  }

  /** Deleting an object just added leaves the other ids as they were. */
  lemma AddThenRemove(r: Registry, id: string, g: Geometry)
    ensures Removed(Added(r, id, g), id).objects == r.objects - {id}
  {
  }

  // ---------------------------------------------------------------------
  // The legend (`Plotter2D.legendElements` and the legend container)
  // ---------------------------------------------------------------------

  /** One legend row: the colour swatch and the label. */
  datatype LegendItem = LegendItem(color: Color, text: string)

  /** The rows by id, and the ids in the order their rows appear. */
  datatype Legend = Legend(order: seq<string>, items: map<string, LegendItem>)

  const EmptyLegend := Legend([], map[])

  predicate Distinct(s: seq<string>)
  {
    forall i, j :: 0 <= i < j < |s| ==> s[i] != s[j]
  }

  /** Each row is shown once and every row shown has an entry. */
  ghost predicate LegendValid(l: Legend)
  {
    Distinct(l.order) && (forall id :: id in l.items <==> id in l.order)
  }

  /** `s` with `x` taken out, the other elements in their order. */
  function Without(s: seq<string>, x: string): (t: seq<string>)
    ensures forall y :: y in t <==> y in s && y != x
    ensures Distinct(s) ==> Distinct(t)
    ensures x !in s ==> t == s
  {
    if s == [] then []
    else if s[0] == x then Without(s[1..], x)
    else
      var t := Without(s[1..], x);
      ConsKeepsDistinct(s, t);
      [s[0]] + t
  }

  /** Putting the head of a list back in front of a list drawn from its tail keeps it free of repetitions. */
  lemma ConsKeepsDistinct(s: seq<string>, t: seq<string>)
    requires |s| > 0 && (forall y :: y in t ==> y in s[1..])
    requires Distinct(s[1..]) ==> Distinct(t)
    ensures Distinct(s) ==> Distinct([s[0]] + t)
  {
    if Distinct(s) {
      assert Distinct(s[1..]) by {
        forall i, j | 0 <= i < j < |s[1..]|
          ensures s[1..][i] != s[1..][j]
        {
          assert s[1..][i] == s[i + 1] && s[1..][j] == s[j + 1];
        }
      }
      assert s[0] !in s[1..] by {
        forall k | 0 <= k < |s[1..]|
          ensures s[1..][k] != s[0]
        {
          assert s[1..][k] == s[k + 1];
        }
      }
      var u := [s[0]] + t;
      forall i, j | 0 <= i < j < |u|
        ensures u[i] != u[j]
      {
        if i == 0 {
          assert u[j] == t[j - 1] && t[j - 1] in t;
        } else {
          assert u[i] == t[i - 1] && u[j] == t[j - 1];
        }
      }
    }
  }

  /** In a list without repetitions, taking out an element closes the gap it leaves. */
  lemma {:induction false} WithoutSplit(a: seq<string>, x: string, b: seq<string>)
    requires x !in a && x !in b
    ensures Without(a + [x] + b, x) == a + b
  {
    if a == [] {
      assert a + [x] + b == [x] + b;
    } else {
      var s := a + [x] + b;
      assert s[0] == a[0] != x;
      assert s[1..] == a[1..] + [x] + b;
      WithoutSplit(a[1..], x, b);
      assert Without(s, x) == [a[0]] + (a[1..] + b);
      assert a == [a[0]] + a[1..];
    }
  }

  /**
   * `updateLegend(id, material)`: no material removes the row of `id` if
   * there is one; empty legend text changes nothing; otherwise the row of
   * `id` is created at the end if missing and shows the colour and text.
   */
  function UpdatedLegend(l: Legend, id: string, material: Option<Material>): (m: Legend)
    ensures material.None? ==> id !in m.items && m.items == l.items - {id}
    ensures material.Some? && material.value.legend == [] ==> m == l
    ensures material.Some? && material.value.legend != [] ==>
      m.items == l.items[id := LegendItem(material.value.color, material.value.legend)]
  {
    match material
    case None =>
      if id in l.items then Legend(Without(l.order, id), l.items - {id}) else l
    case Some(mat) =>
      if mat.legend == [] then l
      else if id in l.items then l.(items := l.items[id := LegendItem(mat.color, mat.legend)])
      else Legend(l.order + [id], l.items[id := LegendItem(mat.color, mat.legend)])
  }

  /**
   * The legend stays well formed; a new row goes to the end and an existing
   * row keeps its place; a removed row leaves the others in their order.
   */
  lemma UpdatedLegendKeepsValid(l: Legend, id: string, material: Option<Material>)
    requires LegendValid(l)
    ensures LegendValid(UpdatedLegend(l, id, material))
    ensures material.Some? && id in l.items ==> UpdatedLegend(l, id, material).order == l.order
    ensures material.Some? && material.value.legend != [] && id !in l.items ==>
      UpdatedLegend(l, id, material).order == l.order + [id]
    ensures material.None? ==> UpdatedLegend(l, id, material).order == Without(l.order, id)
  {
    var m := UpdatedLegend(l, id, material);
    if material.Some? && material.value.legend != [] && id !in l.items {
      assert id !in l.order;
      forall i, j | 0 <= i < j < |m.order|
        ensures m.order[i] != m.order[j]
      {
        if j == |l.order| {
          assert m.order[i] == l.order[i];
        }
      }
    }
  }

  /**
   * Re-adding an object under an id that has a legend row, with a material
   * whose legend text is empty, leaves the old row showing: removing the old
   * object does not touch the legend.
   */
  lemma StaleRowAfterReAdd(l: Legend, id: string, material: Material)
    requires id in l.items && material.legend == []
    ensures id in UpdatedLegend(l, id, Some(material)).items
    ensures UpdatedLegend(l, id, Some(material)).items[id] == l.items[id]
  {
  }

  // ---------------------------------------------------------------------
  // The auto-fit and user-control flags of the 2D plotter
  // ---------------------------------------------------------------------

  /**
   * `isDynamicFitEnabled`, `controls.enabled`, and the checked and disabled
   * states of the dynamic-fit checkbox.
   */
  datatype Flags = Flags(dynamicFit: bool, controlsEnabled: bool, toggleChecked: bool, toggleDisabled: bool)

  const InitialFlags := Flags(false, true, false, false)

  /** The user may pan and zoom exactly when auto-fit is off, and a disabled checkbox never leaves auto-fit on. */
  predicate FlagsConsistent(f: Flags)
  {
    f.controlsEnabled == !f.dynamicFit && (f.toggleDisabled ==> !f.dynamicFit)
  }

  /** `onDynamicFitChange`: auto-fit follows the checkbox and user control is its opposite. */
  function FitChanged(f: Flags): (g: Flags)
    ensures g.dynamicFit == f.toggleChecked && g.controlsEnabled == !g.dynamicFit
  {
    f.(dynamicFit := f.toggleChecked, controlsEnabled := !f.toggleChecked)
  }

  /**
   * A click on the checkbox: a disabled checkbox ignores it; otherwise it
   * flips its checked state and fires the change handler.
   */
  function Clicked(f: Flags): (g: Flags)
    ensures f.toggleDisabled ==> g == f
    ensures !f.toggleDisabled ==> g.toggleChecked == !f.toggleChecked && g.dynamicFit == g.toggleChecked
  {
    if f.toggleDisabled then f else FitChanged(f.(toggleChecked := !f.toggleChecked))
  }

  /** The SET_AXIS_PROPERTIES arm: the checkbox is unchecked, auto-fit off, user control on. */
  function AxisSet(f: Flags): (g: Flags)
    ensures !g.dynamicFit && g.controlsEnabled && !g.toggleChecked
    ensures g.toggleDisabled == f.toggleDisabled
  {
    f.(toggleChecked := false, dynamicFit := false, controlsEnabled := true)
  }

  /** `onDisconnect`: the checkbox is disabled (its checked state is left), auto-fit off, user control on. */
  function Disconnected(f: Flags): (g: Flags)
    ensures !g.dynamicFit && g.controlsEnabled && g.toggleDisabled
    ensures g.toggleChecked == f.toggleChecked
  {
    f.(toggleDisabled := true, dynamicFit := false, controlsEnabled := true)
  }

  /** Every flag transition keeps the flags consistent. */
  lemma FlagsStayConsistent(f: Flags)
    requires FlagsConsistent(f)
    ensures FlagsConsistent(Clicked(f)) && FlagsConsistent(AxisSet(f)) && FlagsConsistent(Disconnected(f))
    ensures !f.toggleDisabled ==> FlagsConsistent(FitChanged(f))
  {
  }

  /** The flags after `n` clicks. */
  function Clicks(f: Flags, n: nat): Flags
  {
    if n == 0 then f else Clicked(Clicks(f, n - 1))
  }

  /** Once disconnected, no number of clicks turns auto-fit back on or takes control from the user. */
  lemma {:induction false} DisconnectIsFinal(f: Flags, n: nat)
    ensures Clicks(Disconnected(f), n) == Disconnected(f)
  {
    if n > 0 {
      DisconnectIsFinal(f, n - 1);
    }
  }

  // ---------------------------------------------------------------------
  // Command dispatch
  // ---------------------------------------------------------------------

  /** The state of a 2D plot that commands change. */
  datatype State2D = State2D(
    registry: Registry, legend: Legend, flags: Flags,
    heading: string, gridVisible: bool, view: Viewport.CameraView)

  /** A new 2D plot: empty, titled "2D Plot", camera on [-10,10]x[-10,10] at zoom 1. */
  const Initial2D := State2D(
    EmptyRegistry, EmptyLegend, InitialFlags, "2D Plot", true,
    Viewport.CameraView(Viewport.Finite(-10.0), Viewport.Finite(10.0),
                        Viewport.Finite(-10.0), Viewport.Finite(10.0), Viewport.Finite(1.0)))

  /** `fitToData(bounds, camera)` with the default padding 0.1: the camera view it leaves. */
  function FittedView(data: Viewport.Rect, aspect: real): (v: Viewport.CameraView)
    requires aspect > 0.0
    ensures v.zoom == Viewport.Finite(1.0)
    ensures v.left.Finite? && v.right.Finite? && v.bottom.Finite? && v.top.Finite?
    ensures v.right.value - v.left.value == aspect * (v.top.value - v.bottom.value)
    ensures v.right.value - v.left.value >= Viewport.PaddedExtent(data.Width(), 0.1)
    ensures v.top.value - v.bottom.value >= Viewport.PaddedExtent(data.Height(), 0.1)
  {
    var b := Viewport.FitViewport(data, aspect, 0.1).Bounds();
    Viewport.CameraView(Viewport.Finite(b.left), Viewport.Finite(b.right),
                        Viewport.Finite(b.bottom), Viewport.Finite(b.top), Viewport.Finite(1.0))
  }

  /** `Plotter2D.dispatch(command)`, for a canvas of aspect ratio `aspect`. */
  function Dispatch2D(s: State2D, cmd: Command, aspect: real): State2D
    requires aspect > 0.0
  {
    match cmd
    case AddObject(id, g, material) =>
      s.(registry := Added(s.registry, id, g), legend := UpdatedLegend(s.legend, id, Some(material)))
    case UpdateObjectGeometry(id, g) =>
      s.(registry := Updated(s.registry, id, g))
    case DeleteObject(id) =>
      s.(registry := Removed(s.registry, id), legend := UpdatedLegend(s.legend, id, None))
    case SetGridVisible(visible) =>
      s.(gridVisible := visible)
    case SetAxesVisible(_) =>
      s
    case SetAxisProperties(xMin, xMax, yMin, yMax) =>
      s.(flags := AxisSet(s.flags), view := FittedView(Viewport.Rect(xMin, xMax, yMin, yMax), aspect))
    case SetTitle(title) =>
      s.(heading := title)
  }

  /** The commands of one update applied in order. */
  function DispatchAll2D(s: State2D, cmds: seq<Command>, aspect: real): State2D
    requires aspect > 0.0
  {
    if cmds == [] then s else Dispatch2D(DispatchAll2D(s, cmds[..|cmds| - 1], aspect), cmds[|cmds| - 1], aspect)
  }

  /**
   * What every 2D plot keeps, even one whose `destroy` failed half way: its
   * registry does not leak, its legend is well formed and its flags are
   * consistent.
   */
  ghost predicate Sound2D(s: State2D)
  {
    RegistryValid(s.registry) && LegendValid(s.legend) && FlagsConsistent(s.flags)
  }

  /** A 2D plot is well formed when it is sound and only has legend rows for registered objects. */
  ghost predicate Valid2D(s: State2D)
  {
    Sound2D(s) && s.legend.items.Keys <= s.registry.objects.Keys
  }

  /** Every 2D command keeps the plot sound, and well formed if it was. */
  lemma Dispatch2DKeepsValid(s: State2D, cmd: Command, aspect: real)
    requires aspect > 0.0 && Sound2D(s)
    ensures Sound2D(Dispatch2D(s, cmd, aspect))
    ensures Valid2D(s) ==> Valid2D(Dispatch2D(s, cmd, aspect))
  {
    match cmd
    case AddObject(id, g, material) =>
      AddedKeepsValid(s.registry, id, g);
      UpdatedLegendKeepsValid(s.legend, id, Some(material));
    case UpdateObjectGeometry(id, g) =>
      UpdatedKeepsValid(s.registry, id, g);
    case DeleteObject(id) =>
      RemovedKeepsValid(s.registry, id);
      UpdatedLegendKeepsValid(s.legend, id, None);
    case SetAxisProperties(_, _, _, _) =>
      FlagsStayConsistent(s.flags);
    case _ =>
  }

  /** A whole update keeps the plot sound, and well formed if it was. */
  lemma {:induction false} DispatchAll2DKeepsValid(s: State2D, cmds: seq<Command>, aspect: real)
    requires aspect > 0.0 && Sound2D(s)
    ensures Sound2D(DispatchAll2D(s, cmds, aspect))
    ensures Valid2D(s) ==> Valid2D(DispatchAll2D(s, cmds, aspect))
  {
    if cmds != [] {
      DispatchAll2DKeepsValid(s, cmds[..|cmds| - 1], aspect);
      Dispatch2DKeepsValid(DispatchAll2D(s, cmds[..|cmds| - 1], aspect), cmds[|cmds| - 1], aspect);
    }
  }

  /** A 2D DELETE leaves neither the object nor its legend row. */
  lemma Delete2DForgets(s: State2D, id: string, aspect: real)
    requires aspect > 0.0
    ensures id !in Dispatch2D(s, DeleteObject(id), aspect).registry.objects
    ensures id !in Dispatch2D(s, DeleteObject(id), aspect).legend.items
  {
  }

  /** The state of a 3D plot that commands change, with the page title. */
  datatype State3D = State3D(registry: Registry, gridVisible: bool, axesVisible: bool, documentTitle: string)

  /** `create3D` builds an object for the four 3D geometries and returns null for any other. */
  predicate Creates3D(g: Geometry)
  {
    g.Point3D? || g.Pose3D? || g.Ball? || g.Box3D?
  }

  /** `Plotter3D.dispatch(command)`. */
  function Dispatch3D(s: State3D, cmd: Command): State3D
  {
    match cmd
    case AddObject(id, g, _) =>
      if Creates3D(g) then s.(registry := Added(s.registry, id, g)) else s
    case UpdateObjectGeometry(id, g) =>
      s.(registry := Updated(s.registry, id, g))
    case DeleteObject(id) =>
      s.(registry := Removed(s.registry, id))
    case SetGridVisible(visible) =>
      s.(gridVisible := visible)
    case SetAxesVisible(visible) =>
      s.(axesVisible := visible)
    case SetAxisProperties(_, _, _, _) =>
      s
    case SetTitle(title) =>
      s.(documentTitle := title)
  }

  function DispatchAll3D(s: State3D, cmds: seq<Command>): State3D
  {
    if cmds == [] then s else Dispatch3D(DispatchAll3D(s, cmds[..|cmds| - 1]), cmds[|cmds| - 1])
  }

  /** Every 3D update keeps the registry leak-free. */
  lemma {:induction false} DispatchAll3DKeepsValid(s: State3D, cmds: seq<Command>)
    requires RegistryValid(s.registry)
    ensures RegistryValid(DispatchAll3D(s, cmds).registry)
  {
    if cmds != [] {
      var t := DispatchAll3D(s, cmds[..|cmds| - 1]);
      DispatchAll3DKeepsValid(s, cmds[..|cmds| - 1]);
      match cmds[|cmds| - 1]
      case AddObject(id, g, _) =>
        AddedKeepsValid(t.registry, id, g);
      case UpdateObjectGeometry(id, g) =>
        UpdatedKeepsValid(t.registry, id, g);
      case DeleteObject(id) =>
        RemovedKeepsValid(t.registry, id);
      case _ =>
    }
  }

  /** A 3D ADD of a geometry `create3D` cannot build changes nothing, not even an object already under that id. */
  lemma UnbuildableAddIgnored(s: State3D, id: string, g: Geometry, material: Material)
    requires !Creates3D(g)
    ensures Dispatch3D(s, AddObject(id, g, material)) == s
  {
  }

  // ---------------------------------------------------------------------
  // The plotter objects
  // ---------------------------------------------------------------------

  /** `document` as far as the plotters use it: its title. */
  class Page {
    var title: string

    constructor(title: string)
      ensures this.title == title
    {
      this.title := title;
    }
  }

  /** The part of `BasePlotter` shared by both plotters: `sceneObjects` and the scene. */
  class SceneRegistry {
    var objects: map<string, SceneObject>
    var scene: set<nat>
    var disposed: set<nat>
    var built: nat

    constructor()
      ensures Current() == EmptyRegistry
    {
      objects := map[];
      scene := {};
      disposed := {};
      built := 0;
    }

    function Current(): Registry
      reads this
    {
      Registry(objects, scene, disposed, built)
    }

    /** `removeObject(id)`. */
    method RemoveObject(id: string)
      modifies this
      ensures Current() == Removed(old(Current()), id)
    {
      if id in objects {
        var h := objects[id].handle;
        scene := scene - {h};
        disposed := disposed + {h};
        objects := objects - {id};
      }
    }

    /** The ADD arm once the object is built: replace any object under `id`, then register and show the new one. */
    method Add(id: string, g: Geometry)
      modifies this
      ensures Current() == Added(old(Current()), id, g)
    {
      if id in objects {
        RemoveObject(id);
      }
      var h := built;
      built := built + 1;
      objects := objects[id := SceneObject(h, g)];
      scene := scene + {h};
    }

    /** The UPDATE arm: only a registered object is updated. */
    method Update(id: string, g: Geometry)
      modifies this
      ensures Current() == Updated(old(Current()), id, g)
    {
      if id in objects {
        objects := objects[id := objects[id].(geometry := g)];
      }
    }

    /** `destroy()`: remove every registered object by its id. */
    method Destroy()
      requires RegistryValid(Current())
      modifies this
      ensures Current() == Cleared(old(Current())) && RegistryValid(Current())
    {
      ghost var start := Current();
      while objects != map[]
        invariant PartlyCleared(start, Current())
        decreases |objects|
      {
        var id :| id in objects;
        RemovedPartlyCleared(start, Current(), id);
        RemoveObject(id);
      }
      FullyCleared(start, Current());
    }
  }

  /** `Plotter2D`. */
  class Plotter2D {
    const base: SceneRegistry
    const camera: Viewport.OrthographicCamera
    const coords: Viewport.CoordinateSystem
    const grid: DynamicGrid.Grid
    var order: seq<string>
    var items: map<string, LegendItem>
    var dynamicFit: bool
    var controlsEnabled: bool
    var toggleChecked: bool
    var toggleDisabled: bool
    var heading: string

    /** The state commands change; the grid's visibility is `dynamicGrid.gridLines.visible`. */
    function State(): State2D
      reads this, base, camera, grid
    {
      State2D(base.Current(), Legend(order, items),
              Flags(dynamicFit, controlsEnabled, toggleChecked, toggleDisabled),
              heading, grid.visible, camera.View())
    }

    /** The objects the plotter changes. */
    function Repr(): set<object>
      reads this
    {
      {this, base, camera, grid, coords}
    }

    /** `new Plotter2D(container)`, for a canvas of the given pixel size. */
    constructor(width: real, height: real)
      requires width > 0.0 && height > 0.0
      ensures State() == Initial2D
      ensures coords.Valid() && coords.Size() == Viewport.Canvas(width, height)
      ensures fresh(base) && fresh(camera) && fresh(coords) && fresh(grid)
    {
      base := new SceneRegistry();
      var c := new Viewport.OrthographicCamera(-10.0, 10.0, 10.0, -10.0);
      var cs := new Viewport.CoordinateSystem(width, height);
      camera := c;
      coords := cs;
      grid := new DynamicGrid.Grid(c, cs);
      order := [];
      items := map[];
      dynamicFit := false;
      controlsEnabled := true;
      toggleChecked := false;
      toggleDisabled := false;
      heading := "2D Plot";
    }

    /** `updateLegend(id, material)`; `None` stands for a null material. */
    method UpdateLegend(id: string, material: Option<Material>)
      modifies this
      ensures Legend(order, items) == UpdatedLegend(old(Legend(order, items)), id, material)
      ensures base.Current() == old(base.Current())
      ensures Flags(dynamicFit, controlsEnabled, toggleChecked, toggleDisabled)
           == old(Flags(dynamicFit, controlsEnabled, toggleChecked, toggleDisabled))
      ensures heading == old(heading)
    {
      match material {
        case None =>
          if id in items {
            order := Without(order, id);
            items := items - {id};
          }
        case Some(mat) =>
          if mat.legend == [] {
            return;
          }
          if id !in items {
            order := order + [id];
          }
          items := items[id := LegendItem(mat.color, mat.legend)];
      }
    }

    /** `dispatch(command)`. */
    method Dispatch(cmd: Command)
      requires coords.Valid()
      modifies this, base, camera, grid
      ensures State() == Dispatch2D(old(State()), cmd, coords.canvasAspect)
    {
      ghost var s := State();
      match cmd {
        case AddObject(id, g, material) =>
          base.Add(id, g);
          UpdateLegend(id, Some(material));
        case UpdateObjectGeometry(id, g) =>
          base.Update(id, g);
        case DeleteObject(id) =>
          base.RemoveObject(id);
          UpdateLegend(id, None);
        case SetGridVisible(visible) =>
          grid.visible := visible;
        case SetAxesVisible(_) =>
        case SetAxisProperties(xMin, xMax, yMin, yMax) =>
          toggleChecked := false;
          dynamicFit := false;
          controlsEnabled := true;
          var _ := coords.FitToData(Viewport.Rect(xMin, xMax, yMin, yMax), camera, 0.1);
        case SetTitle(title) =>
          heading := title;
      }
    }

    /** `onDynamicFitChange`: fired with the checkbox's new checked state. */
    method OnDynamicFitChange()
      modifies this
      ensures State() == old(State()).(flags := FitChanged(old(State()).flags))
    {
      dynamicFit := toggleChecked;
      controlsEnabled := !dynamicFit;
    }

    /** A click on the dynamic-fit checkbox. */
    method ClickToggle()
      modifies this
      ensures State() == old(State()).(flags := Clicked(old(State()).flags))
    {
      if !toggleDisabled {
        toggleChecked := !toggleChecked;
        OnDynamicFitChange();
      }
    }

    /** `onDisconnect()`: the heading is marked as disconnected and auto-fit is turned off for good. */
    method OnDisconnect()
      modifies this
      ensures State() == old(State()).(heading := old(heading) + DisconnectedSuffix,
                                       flags := Disconnected(old(State()).flags))
    {
      heading := heading + DisconnectedSuffix;
      toggleDisabled := true;
      dynamicFit := false;
      controlsEnabled := true;
    }

    /**
     * `destroy()`: every object is removed from the scene and disposed, then
     * `this.dynamicGrid.destroy()` throws a TypeError, because `DynamicGrid`
     * has no `destroy` method; `threw` reports that exception. The legend rows
     * stay.
     */
    method Destroy() returns (threw: bool)
      requires RegistryValid(base.Current())
      modifies base
      ensures base.Current() == Cleared(old(base.Current())) && RegistryValid(base.Current())
      ensures threw
    {
      base.Destroy();
      threw := true;
    }
  }

  /** The text `onDisconnect` appends to a title: " (connection lost)". */
  const DisconnectedSuffix: string := " (连接已断开)"

  /** `Plotter3D`. */
  class Plotter3D {
    const base: SceneRegistry
    const page: Page
    var gridVisible: bool
    var axesVisible: bool

    function State(): State3D
      reads this, base, page
    {
      State3D(base.Current(), gridVisible, axesVisible, page.title)
    }

    function Repr(): set<object>
      reads this
    {
      {this, base, page}
    }

    /** `new Plotter3D(document.body)`: grid and axes helpers shown, no objects. */
    constructor(page: Page)
      ensures this.page == page && fresh(base)
      ensures State() == State3D(EmptyRegistry, true, true, page.title)
    {
      base := new SceneRegistry();
      this.page := page;
      gridVisible := true;
      axesVisible := true;
    }

    /** `dispatch(command)`. */
    method Dispatch(cmd: Command)
      modifies this, base, page
      ensures State() == Dispatch3D(old(State()), cmd)
    {
      match cmd {
        case AddObject(id, g, _) =>
          if Creates3D(g) {
            base.Add(id, g);
          }
        case UpdateObjectGeometry(id, g) =>
          base.Update(id, g);
        case DeleteObject(id) =>
          base.RemoveObject(id);
        case SetGridVisible(visible) =>
          gridVisible := visible;
        case SetAxesVisible(visible) =>
          axesVisible := visible;
        case SetAxisProperties(_, _, _, _) =>
        case SetTitle(title) =>
          page.title := title;
      }
    }

    /** `onDisconnect()`: the page title is marked as disconnected. */
    method OnDisconnect()
      modifies page
      ensures page.title == old(page.title) + DisconnectedSuffix
    {
      page.title := page.title + DisconnectedSuffix;
    }

    /** `BasePlotter.destroy()`: every object is removed from the scene and disposed. */
    method Destroy()
      requires RegistryValid(base.Current())
      modifies base
      ensures base.Current() == Cleared(old(base.Current())) && RegistryValid(base.Current())
    {
      base.Destroy();
    }
  }

  /** `AppManager.activePlotter`. */
  datatype Active = NoPlotter | Active2D(p2: Plotter2D) | Active3D(p3: Plotter3D)
  {
    function Kind(): Option<Kind>
    {
      match this
      case NoPlotter => None
      case Active2D(_) => Some(Plot2D)
      case Active3D(_) => Some(Plot3D)
    }
  }

  /**
   * The kind of plotter `handleUpdate` leaves active. With no plotter, or one
   * of the other kind, `createPlotter` runs; a 2D plotter's `destroy` throws
   * before the new plotter is built, so an active 2D plotter stays.
   */
  function NextKind(current: Option<Kind>, requested: Kind): (k: Option<Kind>)
    ensures k == Some(requested) <==> current != Some(Plot2D) || requested == Plot2D
    ensures k != Some(requested) ==> k == current
  {
    if current == Some(requested) then current
    else if current == Some(Plot2D) then current
    else Some(requested)
  }

  /** The kind of plotter active after updates of the given kinds, in order. */
  function KindAfter(current: Option<Kind>, kinds: seq<Kind>): Option<Kind>
  {
    if kinds == [] then current else NextKind(KindAfter(current, kinds[..|kinds| - 1]), kinds[|kinds| - 1])
  }

  /** Once a 2D plotter is active, no later update replaces it. */
  lemma {:induction false} TwoDPlotterIsNeverReplaced(kinds: seq<Kind>)
    ensures KindAfter(Some(Plot2D), kinds) == Some(Plot2D)
  {
    if kinds != [] {
      TwoDPlotterIsNeverReplaced(kinds[..|kinds| - 1]);
    }
  }

  /** Until the first 2D update, every update leaves a plotter of its own kind active. */
  lemma {:induction false} KindAfterFollowsUntil2D(current: Option<Kind>, kinds: seq<Kind>)
    requires current != Some(Plot2D) && kinds != []
    requires forall i :: 0 <= i < |kinds| - 1 ==> kinds[i] == Plot3D
    ensures KindAfter(current, kinds) == Some(kinds[|kinds| - 1])
  {
    if |kinds| > 1 {
      KindAfterFollowsUntil2D(current, kinds[..|kinds| - 1]);
    }
  }

  /** `AppManager`: one active plotter, replaced when an update of the other kind arrives. */
  class AppManager {
    const page: Page
    var active: Active

    constructor(page: Page)
      ensures this.page == page && active == NoPlotter && Valid()
    {
      this.page := page;
      active := NoPlotter;
    }

    /** The objects of the active plotter. */
    function Repr(): set<object>
      reads this, (if active.Active2D? then {active.p2} else {}), (if active.Active3D? then {active.p3} else {})
    {
      match active
      case NoPlotter => {}
      case Active2D(p) => p.Repr()
      case Active3D(p) => p.Repr()
    }

    /**
     * The active plot is sound and a 3D plotter titles this page. A 2D plot is
     * not always well formed: a failed `destroy` leaves legend rows for the
     * objects it removed.
     */
    ghost predicate Valid()
      reads this, Repr()
    {
      match active
      case NoPlotter => true
      case Active2D(p) => p.coords.Valid() && Sound2D(p.State())
      case Active3D(p) => p.page == page && RegistryValid(p.State().registry)
    }

    /**
     * `handleUpdate(sceneUpdate, updateType)` as written: with no plotter, or
     * one of the other kind, `createPlotter` runs, and when it throws (the
     * active plotter is a 2D one) the exception leaves `handleUpdate` before
     * any command is dispatched; otherwise every command is dispatched in
     * order. `threw` reports the exception.
     */
    method HandleUpdate(update: SceneUpdate, width: real, height: real) returns (threw: bool)
      requires Valid() && width > 0.0 && height > 0.0
      modifies this, Repr(), page
      ensures Valid() && active.Kind() == NextKind(old(active.Kind()), update.kind)
      ensures threw <==> old(active).Active2D? && update.kind == Plot3D
      ensures threw ==> (active == old(active) && page.title == old(page.title) &&
        active.p2.State() == old(active.p2.State()).(registry := Cleared(old(active.p2.State().registry))))
      ensures old(active.Kind()) == Some(update.kind) ==> active == old(active)
      ensures old(active.Kind()) == Some(update.kind) && active.Active2D? ==>
        active.p2.State() == DispatchAll2D(old(active.p2.State()), update.commands, active.p2.coords.canvasAspect)
      ensures old(active.Kind()) == Some(update.kind) && active.Active3D? ==>
        active.p3.State() == DispatchAll3D(old(active.p3.State()), update.commands)
      ensures old(active.Kind()) == None && active.Active2D? ==>
        fresh(active.p2) && active.p2.State() == DispatchAll2D(Initial2D, update.commands, active.p2.coords.canvasAspect)
      ensures old(active.Kind()) != Some(Plot3D) && active.Active3D? ==>
        fresh(active.p3) &&
        active.p3.State() == DispatchAll3D(State3D(EmptyRegistry, true, true, old(page.title)), update.commands)
      ensures old(active).Active3D? && update.kind == Plot2D ==>
        fresh(active.p2) && active.p2.State() == DispatchAll2D(Initial2D, update.commands, active.p2.coords.canvasAspect) &&
        old(active).p3.base.Current() == Cleared(old(active.p3.base.Current()))
    {
      threw := false;
      if active.Kind() != Some(update.kind) {
        threw := Replace(update, width, height);
      } else {
        RunActive(update.commands);
      }
    }

    /** `handleUpdate` as written when the kind changes: `createPlotter`, then the commands unless it threw. */
    method Replace(update: SceneUpdate, width: real, height: real) returns (threw: bool)
      requires Valid() && width > 0.0 && height > 0.0
      modifies this, Repr(), page
      ensures Valid()
      ensures threw <==> old(active).Active2D?
      ensures threw ==> (active == old(active) && page.title == old(page.title) &&
        active.p2.State() == old(active.p2.State()).(registry := Cleared(old(active.p2.State().registry))))
      ensures !threw ==> active.Kind() == Some(update.kind)
      ensures !threw && active.Active2D? ==>
        fresh(active.p2) && active.p2.State() == DispatchAll2D(Initial2D, update.commands, active.p2.coords.canvasAspect)
      ensures !threw && active.Active3D? ==>
        fresh(active.p3) &&
        active.p3.State() == DispatchAll3D(State3D(EmptyRegistry, true, true, old(page.title)), update.commands)
      ensures old(active).Active3D? ==> old(active).p3.base.Current() == Cleared(old(active.p3.base.Current()))
    {
      threw := CreatePlotter(update.kind, width, height);
      if !threw {
        RunActive(update.commands);
      }
    }

    /**
     * `handleUpdate` as evidently intended: the old plotter's `destroy`
     * completes, so an update of the other kind always gets a new plotter of
     * its own kind, which runs the update's commands in order.
     */
    method HandleUpdateIntended(update: SceneUpdate, width: real, height: real)
      requires Valid() && width > 0.0 && height > 0.0
      modifies this, Repr(), page
      ensures Valid() && active.Kind() == Some(update.kind)
      ensures old(active.Kind()) == Some(update.kind) ==> active == old(active)
      ensures old(active.Kind()) == Some(update.kind) && active.Active2D? ==>
        active.p2.State() == DispatchAll2D(old(active.p2.State()), update.commands, active.p2.coords.canvasAspect)
      ensures old(active.Kind()) == Some(update.kind) && active.Active3D? ==>
        active.p3.State() == DispatchAll3D(old(active.p3.State()), update.commands)
      ensures old(active.Kind()) != Some(update.kind) && active.Active2D? ==>
        fresh(active.p2) && Valid2D(active.p2.State()) &&
        active.p2.State() == DispatchAll2D(Initial2D, update.commands, active.p2.coords.canvasAspect)
      ensures old(active.Kind()) != Some(update.kind) && active.Active3D? ==>
        fresh(active.p3) &&
        active.p3.State() == DispatchAll3D(State3D(EmptyRegistry, true, true, old(page.title)), update.commands)
      ensures old(active).Active2D? && update.kind != Plot2D ==>
        old(active).p2.base.Current() == Cleared(old(active.p2.base.Current()))
      ensures old(active).Active3D? && update.kind != Plot3D ==>
        old(active).p3.base.Current() == Cleared(old(active.p3.base.Current()))
    {
      if active.Kind() != Some(update.kind) {
        ReplaceIntended(update, width, height);
      } else {
        RunActive(update.commands);
      }
    }

    /** `handleUpdate` as intended when the kind changes: a new plotter replaces the active one and runs the commands. */
    method ReplaceIntended(update: SceneUpdate, width: real, height: real)
      requires Valid() && width > 0.0 && height > 0.0
      modifies this, Repr(), page
      ensures Valid() && active.Kind() == Some(update.kind)
      ensures active.Active2D? ==>
        fresh(active.p2) && Valid2D(active.p2.State()) &&
        active.p2.State() == DispatchAll2D(Initial2D, update.commands, active.p2.coords.canvasAspect)
      ensures active.Active3D? ==>
        fresh(active.p3) &&
        active.p3.State() == DispatchAll3D(State3D(EmptyRegistry, true, true, old(page.title)), update.commands)
      ensures old(active).Active2D? ==> old(active).p2.base.Current() == Cleared(old(active.p2.base.Current()))
      ensures old(active).Active3D? ==> old(active).p3.base.Current() == Cleared(old(active.p3.base.Current()))
    {
      CreatePlotterIntended(update.kind, width, height);
      if active.Active2D? {
        InitialValid();
        DispatchAll2DKeepsValid(active.p2.State(), update.commands, active.p2.coords.canvasAspect);
      }
      RunActive(update.commands);
    }

    /** The `forEach` of `handleUpdate`: every command goes to the active plotter, in order. */
    method RunActive(cmds: seq<Command>)
      requires Valid() && !active.NoPlotter?
      modifies Repr()
      ensures Valid()
      ensures active.Active2D? ==> active.p2.coords.canvasAspect == old(active.p2.coords.canvasAspect)
      ensures active.Active2D? ==> active.p2.State() == DispatchAll2D(old(active.p2.State()), cmds, active.p2.coords.canvasAspect)
      ensures active.Active3D? ==> active.p3.State() == DispatchAll3D(old(active.p3.State()), cmds)
    {
      match active {
        case Active2D(p) =>
          DispatchAll2DKeepsValid(p.State(), cmds, p.coords.canvasAspect);
          Run2D(p, cmds);
        case Active3D(p) =>
          DispatchAll3DKeepsValid(p.State(), cmds);
          Run3D(p, cmds);
      }
    }

    /** The `forEach` of `handleUpdate` over a 2D plotter. */
    method Run2D(p: Plotter2D, cmds: seq<Command>)
      requires p.coords.Valid()
      modifies p.Repr()
      ensures p.coords.canvasAspect == old(p.coords.canvasAspect) && p.coords.Valid()
      ensures p.State() == DispatchAll2D(old(p.State()), cmds, p.coords.canvasAspect)
    {
      ghost var s0 := p.State();
      ghost var aspect := p.coords.canvasAspect;
      var i := 0;
      while i < |cmds|
        invariant 0 <= i <= |cmds|
        invariant p.coords.Valid() && p.coords.canvasAspect == aspect
        invariant p.State() == DispatchAll2D(s0, cmds[..i], aspect)
      {
        assert cmds[..i + 1][..i] == cmds[..i];
        p.Dispatch(cmds[i]);
        i := i + 1;
      }
      assert cmds[..i] == cmds;
    }

    /** The `forEach` of `handleUpdate` over a 3D plotter. */
    method Run3D(p: Plotter3D, cmds: seq<Command>)
      modifies p.Repr()
      ensures p.State() == DispatchAll3D(old(p.State()), cmds)
    {
      ghost var s0 := p.State();
      var i := 0;
      while i < |cmds|
        invariant 0 <= i <= |cmds|
        invariant p.State() == DispatchAll3D(s0, cmds[..i])
      {
        assert cmds[..i + 1][..i] == cmds[..i];
        p.Dispatch(cmds[i]);
        i := i + 1;
      }
      assert cmds[..i] == cmds;
    }

    /**
     * `createPlotter(type)` as written: destroy the active plotter, then build
     * one of the requested kind. A 2D plotter's `destroy` throws, and then
     * nothing is built and the destroyed plotter stays active.
     */
    method CreatePlotter(kind: Kind, width: real, height: real) returns (threw: bool)
      requires Valid() && width > 0.0 && height > 0.0
      modifies this, Repr()
      ensures Valid() && page.title == old(page.title)
      ensures threw <==> old(active).Active2D?
      ensures threw ==> (active == old(active) &&
        active.p2.State() == old(active.p2.State()).(registry := Cleared(old(active.p2.State().registry))))
      ensures !threw ==> active.Kind() == Some(kind)
      ensures !threw && active.Active2D? ==> fresh(active.p2) && fresh(active.p2.Repr()) && active.p2.State() == Initial2D
      ensures !threw && active.Active3D? ==> fresh(active.p3) && fresh(active.p3.Repr() - {page}) && active.p3.page == page
      ensures !threw && active.Active3D? ==> active.p3.State() == State3D(EmptyRegistry, true, true, page.title)
      ensures old(active).Active3D? ==> old(active).p3.base.Current() == Cleared(old(active.p3.base.Current()))
    {
      threw := DestroyActive();
      if threw {
        return;
      }
      Build(kind, width, height);
    }

    /** `createPlotter(type)` as intended: the active plotter is destroyed and one of the requested kind is built. */
    method CreatePlotterIntended(kind: Kind, width: real, height: real)
      requires Valid() && width > 0.0 && height > 0.0
      modifies this, Repr()
      ensures active.Kind() == Some(kind) && Valid()
      ensures active.Active2D? ==> fresh(active.p2) && fresh(active.p2.Repr()) && active.p2.State() == Initial2D
      ensures active.Active3D? ==> fresh(active.p3) && fresh(active.p3.Repr() - {page}) && active.p3.page == page
      ensures active.Active3D? ==> active.p3.State() == State3D(EmptyRegistry, true, true, page.title)
      ensures old(active).Active2D? ==> old(active).p2.base.Current() == Cleared(old(active.p2.base.Current()))
      ensures old(active).Active3D? ==> old(active).p3.base.Current() == Cleared(old(active.p3.base.Current()))
      ensures page.title == old(page.title)
    {
      var _ := DestroyActive();
      Build(kind, width, height);
    }

    /**
     * The first half of `createPlotter`: the active plotter, if any, is
     * destroyed; `threw` reports the exception a 2D plotter's `destroy` throws.
     */
    method DestroyActive() returns (threw: bool)
      requires Valid()
      modifies Repr()
      ensures Valid() && page.title == old(page.title)
      ensures threw <==> active.Active2D?
      ensures active.Active2D? ==>
        active.p2.State() == old(active.p2.State()).(registry := Cleared(old(active.p2.State().registry)))
      ensures active.Active3D? ==> active.p3.base.Current() == Cleared(old(active.p3.base.Current()))
    {
      threw := false;
      match active {
        case NoPlotter =>
        case Active2D(p) => threw := p.Destroy();
        case Active3D(p) => p.Destroy();
      }
    }

    /** The second half of `createPlotter`: a new plotter of the requested kind becomes active. */
    method Build(kind: Kind, width: real, height: real)
      requires width > 0.0 && height > 0.0
      modifies this
      ensures active.Kind() == Some(kind) && Valid()
      ensures active.Active2D? ==> fresh(active.p2) && fresh(active.p2.Repr()) && active.p2.State() == Initial2D
      ensures active.Active3D? ==> fresh(active.p3) && fresh(active.p3.Repr() - {page}) && active.p3.page == page
      ensures active.Active3D? ==> active.p3.State() == State3D(EmptyRegistry, true, true, page.title)
    {
      match kind {
        case Plot2D =>
          var p := new Plotter2D(width, height);
          active := Active2D(p);
          InitialValid();
        case Plot3D =>
          var p := new Plotter3D(page);
          active := Active3D(p);
          InitialValid();
      }
    }
  }

  /** A new plot is well formed. */
  lemma InitialValid()
    ensures Valid2D(Initial2D) && RegistryValid(EmptyRegistry)
  {
    assert Handles(map[]) == {};
  }
}
