/**
 * The backend's window objects (cpp_backend/src/window_2d.cpp,
 * window_3d.cpp and window_3d.h): display properties plus two independent
 * collections of observables, one of raw pointers and one of shared
 * pointers. A pointer is an `Observable?` reference; null is `null`.
 */
module Windows {
  import opened Primitives

  /** `Window2D`. */
  class Window2D {
    var title: string
    var name: string
    var width: int
    var height: int
    var visible: bool
    var gridVisible: bool
    var axesVisible: bool
    var legendVisible: bool
    var raw: set<Observable>
    var shared: set<Observable>

    /** `Window2D(name, width, height)`: titled by its name, everything visible, no observables. */
    constructor(name: string, width: int, height: int)
      ensures title == name && this.name == name && this.width == width && this.height == height
      ensures visible && gridVisible && axesVisible && legendVisible
      ensures raw == {} && shared == {} && ObservableCount() == 0
    {
      title := name;
      this.name := name;
      this.width := width;
      this.height := height;
      visible := true;
      gridVisible := true;
      axesVisible := true;
      legendVisible := true;
      raw := {};
      shared := {};
    }

    /** `getObservableCount()`: raw and shared observables together. */
    function ObservableCount(): nat
      reads this
    {
      |raw| + |shared|
    }

    /** `containsObservable(Observable*)`. */
    predicate ContainsRaw(obs: Observable?)
      reads this
    {
      obs in raw
    }

    /** `containsObservable(shared_ptr<Observable>)`. */
    predicate ContainsShared(obs: Observable?)
      reads this
    {
      obs in shared
    }

    /**
     * `addObservable(Observable*)`: false, and nothing changes, for null or
     * an observable already held; otherwise it is inserted.
     */
    method AddRaw(obs: Observable?) returns (added: bool)
      modifies this
      ensures added <==> obs != null && obs !in old(raw)
      ensures raw == old(raw) + (if added then {obs} else {}) && shared == old(shared)
      ensures ObservableCount() == old(ObservableCount()) + (if added then 1 else 0)
      ensures Properties() == old(Properties())
    {
      if obs == null || ContainsRaw(obs) {
        return false;
      }
      raw := raw + {obs};
      return true;
    }

    /** `addObservable(shared_ptr<Observable>)`: the same on the shared collection. */
    method AddShared(obs: Observable?) returns (added: bool)
      modifies this
      ensures added <==> obs != null && obs !in old(shared)
      ensures shared == old(shared) + (if added then {obs} else {}) && raw == old(raw)
      ensures ObservableCount() == old(ObservableCount()) + (if added then 1 else 0)
      ensures Properties() == old(Properties())
    {
      if obs == null || ContainsShared(obs) {
        return false;
      }
      shared := shared + {obs};
      return true;
    }

    /** `removeObservable(Observable*)`: true exactly when it was held; afterwards it is not. */
    method RemoveRaw(obs: Observable?) returns (removed: bool)
      modifies this
      ensures removed <==> obs in old(raw)
      ensures raw == old(raw) - {obs} && shared == old(shared)
      ensures ObservableCount() == old(ObservableCount()) - (if removed then 1 else 0)
      ensures Properties() == old(Properties())
    {
      removed := obs in raw;
      raw := raw - {obs};
    }

    /** `removeObservable(shared_ptr<Observable>)`. */
    method RemoveShared(obs: Observable?) returns (removed: bool)
      modifies this
      ensures removed <==> obs in old(shared)
      ensures shared == old(shared) - {obs} && raw == old(raw)
      ensures ObservableCount() == old(ObservableCount()) - (if removed then 1 else 0)
      ensures Properties() == old(Properties())
    {
      removed := obs in shared;
      shared := shared - {obs};
    }

    /** `clearObservables()`: both collections become empty. */
    method ClearObservables()
      modifies this
      ensures raw == {} && shared == {} && ObservableCount() == 0
      ensures Properties() == old(Properties())
    {
      raw := {};
      shared := {};
    }

    /** The display properties, which the observable operations leave alone. */
    function Properties(): WindowProperties
      reads this
    {
      WindowProperties(title, name, width, height, visible, gridVisible, axesVisible, legendVisible)
    }
  }

  /** The display properties of a window. */
  datatype WindowProperties = WindowProperties(
    title: string, name: string, width: int, height: int,
    visible: bool, gridVisible: bool, axesVisible: bool, legendVisible: bool)

  /** `Window3D`. */
  class Window3D {
    var title: string
    var name: string
    var width: int
    var height: int
    var visible: bool
    var gridVisible: bool
    var axesVisible: bool
    var legendVisible: bool
    var raw: set<Observable>
    var shared: set<Observable>

    /**
     * `Window3D(name = "", width = 800, height = 600)`: titled by its name,
     * visible with axes and legend but without grid, no observables.
     */
    constructor(name: string := "", width: int := 800, height: int := 600)
      ensures Properties() == WindowProperties(name, name, width, height, true, false, true, true)
      ensures raw == {} && shared == {} && ObservableCount() == 0
    {
      title := name;
      this.name := name;
      this.width := width;
      this.height := height;
      visible := true;
      gridVisible := false;
      axesVisible := true;
      legendVisible := true;
      raw := {};
      shared := {};
    }

    function Properties(): WindowProperties
      reads this
    {
      WindowProperties(title, name, width, height, visible, gridVisible, axesVisible, legendVisible)
    }

    /** `getObservableCount()`: raw and shared observables together. */
    function ObservableCount(): nat
      reads this
    {
      |raw| + |shared|
    }

    /** `setTitle(title)`: `getTitle()` returns it; nothing else changes. */
    method SetTitle(title: string)
      modifies this
      ensures Properties() == old(Properties()).(title := title)
      ensures raw == old(raw) && shared == old(shared)
    {
      this.title := title;
    }

    /** `setName(name)`. */
    method SetName(name: string)
      modifies this
      ensures Properties() == old(Properties()).(name := name)
      ensures raw == old(raw) && shared == old(shared)
    {
      this.name := name;
    }

    /** `setSize(width, height)`: both dimensions, nothing else. */
    method SetSize(width: int, height: int)
      modifies this
      ensures Properties() == old(Properties()).(width := width, height := height)
      ensures raw == old(raw) && shared == old(shared)
    {
      this.width := width;
      this.height := height;
    }

    /** `setVisible(visible)`. */
    method SetVisible(visible: bool)
      modifies this
      ensures Properties() == old(Properties()).(visible := visible)
      ensures raw == old(raw) && shared == old(shared)
    {
      this.visible := visible;
    }

    /** `setGridVisible(visible)`. */
    method SetGridVisible(visible: bool)
      modifies this
      ensures Properties() == old(Properties()).(gridVisible := visible)
      ensures raw == old(raw) && shared == old(shared)
    {
      gridVisible := visible;
    }

    /** `setAxesVisible(visible)`. */
    method SetAxesVisible(visible: bool)
      modifies this
      ensures Properties() == old(Properties()).(axesVisible := visible)
      ensures raw == old(raw) && shared == old(shared)
    {
      axesVisible := visible;
    }

    /** `setLegendVisible(visible)`. */
    method SetLegendVisible(visible: bool)
      modifies this
      ensures Properties() == old(Properties()).(legendVisible := visible)
      ensures raw == old(raw) && shared == old(shared)
    {
      legendVisible := visible;
    }

    /** `containsObservable(Observable*)`. */
    predicate ContainsRaw(obs: Observable?)
      reads this
    {
      obs in raw
    }

    /** `containsObservable(shared_ptr<Observable>)`. */
    predicate ContainsShared(obs: Observable?)
      reads this
    {
      obs in shared
    }

    /** `addObservable(Observable*)`: false for null or a duplicate, else inserted. */
    method AddRaw(obs: Observable?) returns (added: bool)
      modifies this
      ensures added <==> obs != null && obs !in old(raw)
      ensures raw == old(raw) + (if added then {obs} else {}) && shared == old(shared)
      ensures ObservableCount() == old(ObservableCount()) + (if added then 1 else 0)
      ensures Properties() == old(Properties())
    {
      if obs == null || ContainsRaw(obs) {
        return false;
      }
      raw := raw + {obs};
      return true;
    }

    /** `addObservable(shared_ptr<Observable>)`. */
    method AddShared(obs: Observable?) returns (added: bool)
      modifies this
      ensures added <==> obs != null && obs !in old(shared)
      ensures shared == old(shared) + (if added then {obs} else {}) && raw == old(raw)
      ensures ObservableCount() == old(ObservableCount()) + (if added then 1 else 0)
      ensures Properties() == old(Properties())
    {
      if obs == null || ContainsShared(obs) {
        return false;
      }
      shared := shared + {obs};
      return true;
    }

    /** `removeObservable(Observable*)`: true exactly when it was held; afterwards it is not. */
    method RemoveRaw(obs: Observable?) returns (removed: bool)
      modifies this
      ensures removed <==> obs in old(raw)
      ensures raw == old(raw) - {obs} && shared == old(shared)
      ensures ObservableCount() == old(ObservableCount()) - (if removed then 1 else 0)
      ensures Properties() == old(Properties())
    {
      removed := obs in raw;
      raw := raw - {obs};
    }

    /** `removeObservable(shared_ptr<Observable>)`. */
    method RemoveShared(obs: Observable?) returns (removed: bool)
      modifies this
      ensures removed <==> obs in old(shared)
      ensures shared == old(shared) - {obs} && raw == old(raw)
      ensures ObservableCount() == old(ObservableCount()) - (if removed then 1 else 0)
      ensures Properties() == old(Properties())
    {
      removed := obs in shared;
      shared := shared - {obs};
    }

    /** `clearObservables()`: both collections become empty. */
    method ClearObservables()
      modifies this
      ensures raw == {} && shared == {} && ObservableCount() == 0
      ensures Properties() == old(Properties())
    {
      raw := {};
      shared := {};
    }
  }
}
