/**
 * The backend's object and window bookkeeping (class ServerImpl in
 * cpp_backend/src/visualization_server.cpp): the tracked-object table, the
 * pointer-to-id map, per-window membership and dirty sets, the id and
 * window-index counters, the window table, and the updates it sends.
 *
 * Every operation is atomic (the server's mutex is not modelled). A
 * `weak_ptr` is the `Observable` it points to; it has expired once that
 * object is in `released`, the set of objects whose last owner let them go.
 * Sending is an append to `outbox`; the connection table is its list of
 * keys in the map's order. Iteration over an unordered container visits its
 * elements in an unspecified order, which the operations return as a ghost
 * sequence.
 */
module Server {
  import opened Primitives
  import Protocol
  import opened Decimal

  /** `TrackedObject` (its `window_idx` is always 0 and never read, so it is left out). */
  datatype TrackedObject = TrackedObject(ptr: Observable, is3d: bool, windowName: string, material: Protocol.Material)

  /** `WindowInfo`. */
  datatype WindowInfo = WindowInfo(name: string, is3d: bool, displayName: string)

  /** A command inside an outgoing scene update; geometry payloads are not modelled. */
  datatype ServerCommand =
    | AddObject(id: string, material: Protocol.Material)
    | UpdateObjectGeometry(id: string)
    | DeleteObject(id: string)

  /** A `Scene2DUpdate` or `Scene3DUpdate` for the connection `windowId`. */
  datatype Message = Message(windowId: string, is3d: bool, commands: seq<ServerCommand>)

  /** The tables the object operations change, and everything sent so far. */
  datatype ServerState = ServerState(
    tracked: map<string, TrackedObject>,
    ptrToId: map<Observable, string>,
    windowObjects: map<string, set<string>>,
    dirty2d: map<string, set<string>>,
    dirty3d: map<string, set<string>>,
    outbox: seq<Message>)

  const EmptyState := ServerState(map[], map[], map[], map[], map[], [])

  /** What the object operations read but do not change: windows, connections, and which objects have expired. */
  datatype Env = Env(windows: map<string, WindowInfo>, connections: seq<string>, released: set<Observable>)

  /** `m[w]` of a map of sets, where a missing entry reads as the empty set. */
  function Members(m: map<string, set<string>>, w: string): set<string>
  {
    if w in m then m[w] else {}
  }

  /** The dirty sets of one kind. */
  function Dirty(s: ServerState, is3d: bool): map<string, set<string>>
  {
    if is3d then s.dirty3d else s.dirty2d
  }

  predicate Distinct<T(==)>(s: seq<T>)
  {
    forall i, j :: 0 <= i < j < |s| ==> s[i] != s[j]
  }

  /** `order` lists the elements of `elems`, each once. */
  ghost predicate Enumerates(order: seq<string>, elems: set<string>)
  {
    Distinct(order) && (forall x :: x in order <==> x in elems)
  }

  /** Appending an element not yet listed extends an enumeration by it. */
  lemma EnumeratesAppend(order: seq<string>, elems: set<string>, x: string)
    requires Enumerates(order, elems) && x !in elems
    ensures Enumerates(order + [x], elems + {x})
  {
    var o := order + [x];
    forall i, j | 0 <= i < j < |o|
      ensures o[i] != o[j]
    {
      if j == |o| - 1 {
        assert o[i] in order;
      }
    }
  }

  /** The ids `add` has handed out while its counter went from 1 to `next`. */
  ghost function Issued(next: nat): set<string>
  {
    if next <= 1 then {} else Issued(next - 1) + {ObjectId(next - 1)}
  }

  /** No id the counter has yet to reach was handed out. */
  lemma {:induction false} NotYetIssued(next: nat, m: nat)
    requires m >= next
    ensures ObjectId(m) !in Issued(next)
  {
    if next > 1 {
      ObjectIdInjective(m, next - 1);
      NotYetIssued(next - 1, m);
    }
  }

  /** Every tracked id is in its window's membership set, and membership sets hold only tracked ids of their window. */
  ghost predicate WindowsAgree(tracked: map<string, TrackedObject>, windowObjects: map<string, set<string>>)
  {
    && (forall id :: id in tracked ==> id in Members(windowObjects, tracked[id].windowName))
    && (forall w, id :: w in windowObjects && id in windowObjects[w] ==> id in tracked && tracked[id].windowName == w)
  }

  /** A dirty-set map of one kind holds only tracked ids of that kind, under their own window. */
  ghost predicate DirtyAgrees(tracked: map<string, TrackedObject>, dirty: map<string, set<string>>, is3d: bool)
  {
    forall w, id :: w in dirty && id in dirty[w] ==> id in tracked && tracked[id].is3d == is3d && tracked[id].windowName == w
  }

  /** A pointer maps only to an id already handed out, and to one tracking that pointer while it is tracked. */
  ghost predicate PointersAgree(tracked: map<string, TrackedObject>, ptrToId: map<Observable, string>, next: nat)
  {
    forall p :: p in ptrToId ==> ptrToId[p] in Issued(next) && (ptrToId[p] in tracked ==> tracked[ptrToId[p]].ptr == p)
  }

  /** Every tracked id was handed out by the counter. */
  ghost predicate IdsIssued(tracked: map<string, TrackedObject>, next: nat)
  {
    forall id :: id in tracked ==> id in Issued(next)
  }

  /** The tables agree with each other and with the id counter. */
  ghost predicate Consistent(s: ServerState, next: nat)
  {
    && WindowsAgree(s.tracked, s.windowObjects)
    && DirtyAgrees(s.tracked, s.dirty2d, false)
    && DirtyAgrees(s.tracked, s.dirty3d, true)
    && PointersAgree(s.tracked, s.ptrToId, next)
    && IdsIssued(s.tracked, next)
  }

  lemma WindowsWithout(tracked: map<string, TrackedObject>, windowObjects: map<string, set<string>>, id: string)
    requires WindowsAgree(tracked, windowObjects) && id in tracked
    ensures var w := tracked[id].windowName;
      WindowsAgree(tracked - {id}, windowObjects[w := Members(windowObjects, w) - {id}])
  {
    var w := tracked[id].windowName;
    var wo := windowObjects[w := Members(windowObjects, w) - {id}];
    forall w', x | w' in wo && x in wo[w']
      ensures x in tracked - {id} && tracked[x].windowName == w'
    {
      if w' != w {
        assert x in windowObjects[w'];
      }
    }
  }

  lemma DirtyWithout(tracked: map<string, TrackedObject>, dirty: map<string, set<string>>, is3d: bool, id: string)
    requires DirtyAgrees(tracked, dirty, is3d) && id in tracked
    ensures var w := tracked[id].windowName;
      DirtyAgrees(tracked - {id}, if tracked[id].is3d == is3d then dirty[w := Members(dirty, w) - {id}] else dirty, is3d)
  {
    var w := tracked[id].windowName;
    var d := if tracked[id].is3d == is3d then dirty[w := Members(dirty, w) - {id}] else dirty;
    forall w', x | w' in d && x in d[w']
      ensures x in tracked - {id} && tracked[x].is3d == is3d && tracked[x].windowName == w'
    {
      if tracked[id].is3d != is3d || w' != w {
        assert x in dirty[w'];
      }
    }
  }

  /** Removing dirty ids from one window keeps a dirty-set map in agreement. */
  lemma DirtyShrinks(tracked: map<string, TrackedObject>, dirty: map<string, set<string>>, is3d: bool, w: string, gone: set<string>)
    requires DirtyAgrees(tracked, dirty, is3d)
    ensures DirtyAgrees(tracked, dirty[w := Members(dirty, w) - gone], is3d)
  {
    var d := dirty[w := Members(dirty, w) - gone];
    forall w', x | w' in d && x in d[w']
      ensures x in tracked && tracked[x].is3d == is3d && tracked[x].windowName == w'
    {
      assert x in dirty[w'];
    }
  }

  /** Marking a tracked id of the right kind dirty under its own window keeps a dirty-set map in agreement. */
  lemma DirtyGrows(tracked: map<string, TrackedObject>, dirty: map<string, set<string>>, is3d: bool, id: string)
    requires DirtyAgrees(tracked, dirty, is3d) && id in tracked && tracked[id].is3d == is3d
    ensures var w := tracked[id].windowName; DirtyAgrees(tracked, dirty[w := Members(dirty, w) + {id}], is3d)
  {
    var w := tracked[id].windowName;
    var d := dirty[w := Members(dirty, w) + {id}];
    forall w', x | w' in d && x in d[w']
      ensures x in tracked && tracked[x].is3d == is3d && tracked[x].windowName == w'
    {
      if x != id || w' != w {
        assert x in dirty[w'];
      }
    }
  }

  /** Pointer agreement survives dropping tracked entries and pointer entries. */
  lemma PointersShrink(tracked: map<string, TrackedObject>, ptrToId: map<Observable, string>,
                       tracked': map<string, TrackedObject>, ptrToId': map<Observable, string>, next: nat)
    requires PointersAgree(tracked, ptrToId, next)
    requires forall id :: id in tracked' ==> id in tracked && tracked'[id] == tracked[id]
    requires forall p :: p in ptrToId' ==> p in ptrToId && ptrToId'[p] == ptrToId[p]
    ensures PointersAgree(tracked', ptrToId', next)
  {
  }

  /**
   * `get_window_id_for_name(name, is3d)`: the first connection's key when
   * the window exists with that kind and a client is connected, else "".
   */
  function WindowIdFor(e: Env, name: string, is3d: bool): (id: string)
    ensures id != "" ==> name in e.windows && e.windows[name].is3d == is3d && e.connections != [] && id == e.connections[0]
    ensures name in e.windows && e.windows[name].is3d == is3d && e.connections != [] ==> id == e.connections[0]
    ensures name !in e.windows || e.windows[name].is3d != is3d || e.connections == [] ==> id == ""
  {
    if name !in e.windows || e.windows[name].is3d != is3d then ""
    else if e.connections == [] then ""
    else e.connections[0]
  }

  /** `send_update(update)`: appended only for a non-empty window id that is a connection key. */
  function Send(outbox: seq<Message>, e: Env, msg: Message): (out: seq<Message>)
    ensures msg.windowId != "" && msg.windowId in e.connections ==> out == outbox + [msg]
    ensures msg.windowId == "" || msg.windowId !in e.connections ==> out == outbox
  {
    if e.connections == [] || msg.windowId == "" || msg.windowId !in e.connections then outbox
    else outbox + [msg]
  }

  /** Whether the object tracked as `o` has expired. */
  predicate Expired(e: Env, o: TrackedObject)
  {
    o.ptr in e.released
  }

  /**
   * `remove_object_internal(id)`: nothing for an unknown id; otherwise the
   * pointer entry goes when the object is live, the id leaves its window's
   * membership and its kind's dirty set, a delete command is sent when the
   * window has an id, and the tracking entry goes.
   */
  function Removal(s: ServerState, e: Env, id: string): (t: ServerState)
    ensures t.tracked == s.tracked - {id}
    ensures id !in s.tracked ==> t == s
  {
    if id !in s.tracked then s
    else
      var o := s.tracked[id];
      var w := o.windowName;
      var wid := WindowIdFor(e, w, o.is3d);
      ServerState(
        s.tracked - {id},
        if Expired(e, o) then s.ptrToId else s.ptrToId - {o.ptr},
        s.windowObjects[w := Members(s.windowObjects, w) - {id}],
        if o.is3d == false then s.dirty2d[w := Members(s.dirty2d, w) - {id}] else s.dirty2d,
        if o.is3d == true then s.dirty3d[w := Members(s.dirty3d, w) - {id}] else s.dirty3d,
        if wid == "" then s.outbox else Send(s.outbox, e, Message(wid, o.is3d, [DeleteObject(id)])))
  }

  /** Removing the ids of `ids` in order. */
  function RemoveAll(s: ServerState, e: Env, ids: seq<string>): ServerState
  {
    if ids == [] then s else Removal(RemoveAll(s, e, ids[..|ids| - 1]), e, ids[|ids| - 1])
  }

  /** Removal keeps the tables consistent. */
  lemma RemovalKeepsConsistent(s: ServerState, e: Env, id: string, next: nat)
    requires Consistent(s, next)
    ensures Consistent(Removal(s, e, id), next)
  {
    if id in s.tracked {
      var t := Removal(s, e, id);
      WindowsWithout(s.tracked, s.windowObjects, id);
      DirtyWithout(s.tracked, s.dirty2d, false, id);
      DirtyWithout(s.tracked, s.dirty3d, true, id);
      PointersShrink(s.tracked, s.ptrToId, t.tracked, t.ptrToId, next);
    }
  }

  /**
   * After removal the id is in no table: not tracked, in no window's
   * membership or dirty set, and no longer a pointer's target when the
   * object was live; every other tracked object is untouched.
   */
  lemma RemovalForgets(s: ServerState, e: Env, id: string, next: nat)
    requires Consistent(s, next)
    ensures var t := Removal(s, e, id);
      && id !in t.tracked
      && (forall w :: id !in Members(t.windowObjects, w) && id !in Members(t.dirty2d, w) && id !in Members(t.dirty3d, w))
      && (id in s.tracked && !Expired(e, s.tracked[id]) ==> s.tracked[id].ptr !in t.ptrToId)
      && (forall other :: other in s.tracked && other != id ==> other in t.tracked && t.tracked[other] == s.tracked[other])
  {
    RemovalKeepsConsistent(s, e, id, next);
  }

  /** A delete command is sent exactly when the removed object's window has an id. */
  lemma RemovalNotifies(s: ServerState, e: Env, id: string)
    requires id in s.tracked
    ensures var o := s.tracked[id]; var wid := WindowIdFor(e, o.windowName, o.is3d);
      Removal(s, e, id).outbox ==
        if wid != "" then s.outbox + [Message(wid, o.is3d, [DeleteObject(id)])] else s.outbox
  {
    var o := s.tracked[id];
    var wid := WindowIdFor(e, o.windowName, o.is3d);
    if wid != "" {
      assert wid == e.connections[0] && wid in e.connections;
    }
  }

  /** Removing a list of ids drops exactly those ids from the tracked table and leaves every other entry as it was. */
  lemma {:induction false} RemoveAllTracked(s: ServerState, e: Env, ids: seq<string>)
    ensures forall id :: id in RemoveAll(s, e, ids).tracked <==> id in s.tracked && id !in ids
    ensures forall id :: id in RemoveAll(s, e, ids).tracked ==> RemoveAll(s, e, ids).tracked[id] == s.tracked[id]
  {
    if ids != [] {
      var init := ids[..|ids| - 1];
      RemoveAllTracked(s, e, init);
      assert ids == init + [ids[|ids| - 1]];
    }
  }

  /** Removing a list of ids keeps the tables consistent. */
  lemma {:induction false} RemoveAllKeepsConsistent(s: ServerState, e: Env, ids: seq<string>, next: nat)
    requires Consistent(s, next)
    ensures Consistent(RemoveAll(s, e, ids), next)
  {
    if ids != [] {
      var init := ids[..|ids| - 1];
      RemoveAllKeepsConsistent(s, e, init, next);
      RemovalKeepsConsistent(RemoveAll(s, e, init), e, ids[|ids| - 1], next);
    }
  }

  /** The expired tracked ids, which `cleanup_expired_objects` removes. */
  ghost function ExpiredIds(s: ServerState, e: Env): set<string>
  {
    set id | id in s.tracked && Expired(e, s.tracked[id])
  }

  /** After `cleanup_expired_objects` no tracked object has expired, and every live one is still tracked as before. */
  lemma CleanupLeavesNoExpired(s: ServerState, e: Env, order: seq<string>, next: nat)
    requires Consistent(s, next) && Enumerates(order, ExpiredIds(s, e))
    ensures Consistent(RemoveAll(s, e, order), next)
    ensures forall id :: id in RemoveAll(s, e, order).tracked ==> !Expired(e, RemoveAll(s, e, order).tracked[id])
    ensures forall id :: id in s.tracked && !Expired(e, s.tracked[id]) ==>
      id in RemoveAll(s, e, order).tracked && RemoveAll(s, e, order).tracked[id] == s.tracked[id]
  {
    RemoveAllTracked(s, e, order);
    RemoveAllKeepsConsistent(s, e, order, next);
  }

  /**
   * `add(obj, window_name, material, is3d)` on a non-null object, once the
   * expired objects are gone: the next id is tracked, the pointer maps to it,
   * it joins the window, and an add command is sent when the window has an id.
   */
  function Added(s: ServerState, e: Env, obj: Observable, w: string, material: Protocol.Material, is3d: bool, next: nat): ServerState
  {
    var id := ObjectId(next);
    var wid := WindowIdFor(e, w, is3d);
    ServerState(
      s.tracked[id := TrackedObject(obj, is3d, w, material)],
      s.ptrToId[obj := id],
      s.windowObjects[w := Members(s.windowObjects, w) + {id}],
      s.dirty2d, s.dirty3d,
      if wid == "" then s.outbox else Send(s.outbox, e, Message(wid, is3d, [AddObject(id, material)])))
  }

  /**
   * Adding hands out a fresh id: no table held it before; afterwards it is
   * tracked under the object, which now maps to it; the tables stay
   * consistent with the counter advanced, and no earlier entry changes.
   */
  lemma AddedEffect(s: ServerState, e: Env, obj: Observable, w: string, material: Protocol.Material, is3d: bool, next: nat)
    requires Consistent(s, next) && next >= 1
    ensures var id := ObjectId(next); var t := Added(s, e, obj, w, material, is3d, next);
      && id !in s.tracked && (forall p :: p in s.ptrToId ==> s.ptrToId[p] != id)
      && t.tracked[id] == TrackedObject(obj, is3d, w, material) && t.ptrToId[obj] == id
      && id in Members(t.windowObjects, w)
      && (forall x :: x in s.tracked ==> x in t.tracked && t.tracked[x] == s.tracked[x])
      && Consistent(t, next + 1)
  {
    NotYetIssued(next, next);
    var id := ObjectId(next);
    var o := TrackedObject(obj, is3d, w, material);
    WindowsGrow(s.tracked, s.windowObjects, id, o);
    DirtyUntouched(s.tracked, s.dirty2d, false, id, o);
    DirtyUntouched(s.tracked, s.dirty3d, true, id, o);
    PointersGrow(s.tracked, s.ptrToId, next, o);
  }

  /** Tracking a new id under its window keeps window membership in agreement. */
  lemma WindowsGrow(tracked: map<string, TrackedObject>, windowObjects: map<string, set<string>>, id: string, o: TrackedObject)
    requires WindowsAgree(tracked, windowObjects) && id !in tracked
    ensures WindowsAgree(tracked[id := o], windowObjects[o.windowName := Members(windowObjects, o.windowName) + {id}])
  {
    var t := tracked[id := o];
    var wo := windowObjects[o.windowName := Members(windowObjects, o.windowName) + {id}];
    forall w', x | w' in wo && x in wo[w']
      ensures x in t && t[x].windowName == w'
    {
      if w' != o.windowName || x != id {
        assert x in windowObjects[w'];
      }
    }
  }

  /** Tracking a new id leaves a dirty-set map in agreement. */
  lemma DirtyUntouched(tracked: map<string, TrackedObject>, dirty: map<string, set<string>>, is3d: bool, id: string, o: TrackedObject)
    requires DirtyAgrees(tracked, dirty, is3d) && id !in tracked
    ensures DirtyAgrees(tracked[id := o], dirty, is3d)
  {
    forall w', x | w' in dirty && x in dirty[w']
      ensures x in tracked[id := o] && tracked[id := o][x] == tracked[x]
    {
    }
  }

  /** Pointing the new object at the next id keeps pointer agreement, with the counter advanced. */
  lemma PointersGrow(tracked: map<string, TrackedObject>, ptrToId: map<Observable, string>, next: nat, o: TrackedObject)
    requires PointersAgree(tracked, ptrToId, next) && IdsIssued(tracked, next) && next >= 1
    ensures var id := ObjectId(next);
      && id !in tracked && (forall p :: p in ptrToId ==> ptrToId[p] != id)
      && PointersAgree(tracked[id := o], ptrToId[o.ptr := id], next + 1)
      && IdsIssued(tracked[id := o], next + 1)
  {
    NotYetIssued(next, next);
    var id := ObjectId(next);
    assert Issued(next + 1) == Issued(next) + {id};
    var t := tracked[id := o];
    var q := ptrToId[o.ptr := id];
    forall p | p in q
      ensures q[p] in Issued(next + 1) && (q[p] in t ==> t[q[p]].ptr == p)
    {
      if p != o.ptr {
        assert ptrToId[p] in Issued(next);
      }
    }
  }

  /**
   * Adding the same object twice re-targets its pointer at the second id: no
   * pointer leads to the first id any more, so `on_update` can never mark it,
   * though it stays tracked in its window.
   */
  lemma AddTwiceOrphansFirst(s: ServerState, e: Env, obj: Observable, w1: string, m1: Protocol.Material, k1: bool,
                              w2: string, m2: Protocol.Material, k2: bool, next: nat)
    requires Consistent(s, next) && next >= 1
    ensures var t := Added(Added(s, e, obj, w1, m1, k1, next), e, obj, w2, m2, k2, next + 1);
      && ObjectId(next) in t.tracked && ObjectId(next) in Members(t.windowObjects, w1)
      && t.ptrToId[obj] == ObjectId(next + 1)
      && (forall p :: p in t.ptrToId ==> t.ptrToId[p] != ObjectId(next))
  {
    AddedEffect(s, e, obj, w1, m1, k1, next);
    var s1 := Added(s, e, obj, w1, m1, k1, next);
    AddedEffect(s1, e, obj, w2, m2, k2, next + 1);
    ObjectIdInjective(next, next + 1);
  }

  /** The live, tracked ids among a window's dirty ids of one kind: what a flush sends. */
  ghost function LiveDirty(s: ServerState, e: Env, w: string, is3d: bool): set<string>
  {
    set id | id in Members(Dirty(s, is3d), w) && id in s.tracked && !Expired(e, s.tracked[id])
  }

  /** One geometry-update command per id, in order. */
  function UpdateCommands(ids: seq<string>): (cmds: seq<ServerCommand>)
    ensures |cmds| == |ids| && forall i :: 0 <= i < |ids| ==> cmds[i] == UpdateObjectGeometry(ids[i])
  {
    if ids == [] then [] else UpdateCommands(ids[..|ids| - 1]) + [UpdateObjectGeometry(ids[|ids| - 1])]
  }

  /** Whether a flush of that window and kind gets past its two early returns. */
  predicate FlushProceeds(s: ServerState, e: Env, w: string, is3d: bool)
  {
    Members(Dirty(s, is3d), w) != {} && WindowIdFor(e, w, is3d) != ""
  }

  /** `order` is an order a flush can visit the live dirty ids in; nothing when the flush returns early. */
  ghost predicate FlushOrder(s: ServerState, e: Env, w: string, is3d: bool, order: seq<string>)
  {
    if FlushProceeds(s, e, w, is3d) then Enumerates(order, LiveDirty(s, e, w, is3d)) else order == []
  }

  /**
   * `flush_dirty_set_*_unlocked(w)`, visiting the live dirty ids in `order`:
   * they leave the dirty set and one message carries an update command for
   * each, sent only when there is at least one.
   */
  function Flushed(s: ServerState, e: Env, w: string, is3d: bool, order: seq<string>): ServerState
  {
    if !FlushProceeds(s, e, w, is3d) then s
    else
      var rest := Members(Dirty(s, is3d), w) - (set x | x in order);
      var out := if order == [] then s.outbox
                 else Send(s.outbox, e, Message(WindowIdFor(e, w, is3d), is3d, UpdateCommands(order)));
      if is3d then s.(dirty3d := s.dirty3d[w := rest], outbox := out)
      else s.(dirty2d := s.dirty2d[w := rest], outbox := out)
  }

  /** The update commands of `ids` name exactly the ids in it. */
  lemma UpdateCommandsFor(ids: seq<string>)
    ensures forall id :: UpdateObjectGeometry(id) in UpdateCommands(ids) <==> id in ids
  {
    forall id
      ensures UpdateObjectGeometry(id) in UpdateCommands(ids) <==> id in ids
    {
      if UpdateObjectGeometry(id) in UpdateCommands(ids) {
        var i :| 0 <= i < |ids| && UpdateCommands(ids)[i] == UpdateObjectGeometry(id);
        assert ids[i] == id;
      }
      if id in ids {
        var i :| 0 <= i < |ids| && ids[i] == id;
        assert UpdateCommands(ids)[i] == UpdateObjectGeometry(id);
      }
    }
  }

  /** A sequence without repeats has as many elements as the set of its elements. */
  lemma {:induction false} DistinctCard(order: seq<string>)
    requires Distinct(order)
    ensures |set x | x in order| == |order|
  {
    if order != [] {
      var init := order[..|order| - 1];
      var last := order[|order| - 1];
      DistinctCard(init);
      assert order == init + [last];
      assert (set x | x in order) == (set x | x in init) + {last};
      assert last !in init by {
        forall i | 0 <= i < |init|
          ensures init[i] != last
        {
          assert init[i] == order[i];
        }
      }
    }
  }

  /**
   * A flush keeps the tables consistent and tracks the same objects. When it
   * proceeds it removes exactly the ids it sends, the live tracked ones, from
   * the dirty set, so ids that are expired stay. When some id is live it
   * sends one message to the window's connection with one update command per
   * such id; otherwise it sends nothing.
   */
  lemma FlushedEffect(s: ServerState, e: Env, w: string, is3d: bool, order: seq<string>, next: nat)
    requires Consistent(s, next) && FlushOrder(s, e, w, is3d, order)
    ensures Consistent(Flushed(s, e, w, is3d, order), next)
    ensures Flushed(s, e, w, is3d, order).tracked == s.tracked
    ensures FlushProceeds(s, e, w, is3d) ==>
      && Members(Dirty(Flushed(s, e, w, is3d, order), is3d), w) == Members(Dirty(s, is3d), w) - LiveDirty(s, e, w, is3d)
      && Dirty(Flushed(s, e, w, is3d, order), !is3d) == Dirty(s, !is3d)
      && |order| == |LiveDirty(s, e, w, is3d)|
    ensures FlushProceeds(s, e, w, is3d) && LiveDirty(s, e, w, is3d) != {} ==>
      && Flushed(s, e, w, is3d, order).outbox
         == Send(s.outbox, e, Message(WindowIdFor(e, w, is3d), is3d, UpdateCommands(order)))
      && Flushed(s, e, w, is3d, order).outbox
         == s.outbox + [Message(WindowIdFor(e, w, is3d), is3d, UpdateCommands(order))]
      && |UpdateCommands(order)| == |LiveDirty(s, e, w, is3d)|
      && (forall id :: UpdateObjectGeometry(id) in UpdateCommands(order) <==> id in LiveDirty(s, e, w, is3d))
    ensures LiveDirty(s, e, w, is3d) == {} ==> Flushed(s, e, w, is3d, order).outbox == s.outbox
    ensures !FlushProceeds(s, e, w, is3d) ==> Flushed(s, e, w, is3d, order) == s
  {
    FlushedDirty(s, e, w, is3d, order, next);
    FlushedOutbox(s, e, w, is3d, order);
  }

  /** The dirty-set half of `FlushedEffect`. */
  lemma FlushedDirty(s: ServerState, e: Env, w: string, is3d: bool, order: seq<string>, next: nat)
    requires Consistent(s, next) && FlushOrder(s, e, w, is3d, order)
    ensures Consistent(Flushed(s, e, w, is3d, order), next)
    ensures Flushed(s, e, w, is3d, order).tracked == s.tracked
    ensures FlushProceeds(s, e, w, is3d) ==>
      && Members(Dirty(Flushed(s, e, w, is3d, order), is3d), w) == Members(Dirty(s, is3d), w) - LiveDirty(s, e, w, is3d)
      && Dirty(Flushed(s, e, w, is3d, order), !is3d) == Dirty(s, !is3d)
      && |order| == |LiveDirty(s, e, w, is3d)|
    ensures !FlushProceeds(s, e, w, is3d) ==> Flushed(s, e, w, is3d, order) == s
  {
    if FlushProceeds(s, e, w, is3d) {
      assert (set x | x in order) == LiveDirty(s, e, w, is3d);
      DistinctCard(order);
      if is3d {
        DirtyShrinks(s.tracked, s.dirty3d, true, w, LiveDirty(s, e, w, is3d));
      } else {
        DirtyShrinks(s.tracked, s.dirty2d, false, w, LiveDirty(s, e, w, is3d));
      }
    }
  }

  /** The outbox half of `FlushedEffect`. */
  lemma FlushedOutbox(s: ServerState, e: Env, w: string, is3d: bool, order: seq<string>)
    requires FlushOrder(s, e, w, is3d, order)
    ensures FlushProceeds(s, e, w, is3d) && LiveDirty(s, e, w, is3d) != {} ==>
      && Flushed(s, e, w, is3d, order).outbox
         == Send(s.outbox, e, Message(WindowIdFor(e, w, is3d), is3d, UpdateCommands(order)))
      && Flushed(s, e, w, is3d, order).outbox
         == s.outbox + [Message(WindowIdFor(e, w, is3d), is3d, UpdateCommands(order))]
      && |UpdateCommands(order)| == |LiveDirty(s, e, w, is3d)|
      && (forall id :: UpdateObjectGeometry(id) in UpdateCommands(order) <==> id in LiveDirty(s, e, w, is3d))
    ensures LiveDirty(s, e, w, is3d) == {} ==> Flushed(s, e, w, is3d, order).outbox == s.outbox
  {
    if FlushProceeds(s, e, w, is3d) {
      assert (set x | x in order) == LiveDirty(s, e, w, is3d);
      DistinctCard(order);
      UpdateCommandsFor(order);
    }
  }

  /** `static_cast<size_t>(threshold)` of a 32-bit `int` on a 64-bit size_t: a negative threshold wraps around. */
  function SizeT(threshold: int): (n: nat)
    requires -0x8000_0000 <= threshold < 0x8000_0000
    ensures threshold >= 0 ==> n == threshold
    ensures threshold < 0 ==> n >= 0x1_0000_0000_0000_0000 - 0x8000_0000
  {
    if threshold >= 0 then threshold else threshold + 0x1_0000_0000_0000_0000
  }

  /** Whether `subject` is a pointer to a tracked object. */
  predicate Known(s: ServerState, subject: Observable)
  {
    subject in s.ptrToId && s.ptrToId[subject] in s.tracked
  }

  /** The first half of `on_update(subject)` after the cleanup: the id tracking `subject`, if any, is marked dirty. */
  function Marked(s: ServerState, subject: Observable): (t: ServerState)
    ensures !Known(s, subject) ==> t == s
    ensures t.tracked == s.tracked && t.ptrToId == s.ptrToId && t.windowObjects == s.windowObjects && t.outbox == s.outbox
  {
    if !Known(s, subject) then s
    else
      var id := s.ptrToId[subject];
      var o := s.tracked[id];
      if o.is3d then s.(dirty3d := s.dirty3d[o.windowName := Members(s.dirty3d, o.windowName) + {id}])
      else s.(dirty2d := s.dirty2d[o.windowName := Members(s.dirty2d, o.windowName) + {id}])
  }

  /** The object `subject` is tracked as. */
  function TrackedAs(s: ServerState, subject: Observable): TrackedObject
    requires Known(s, subject)
  {
    s.tracked[s.ptrToId[subject]]
  }

  /** Whether `on_update(subject)` goes on to flush: auto-update is on and the marked set has reached the threshold. */
  predicate Triggers(s: ServerState, subject: Observable, autoUpdate: bool, threshold: int)
    requires -0x8000_0000 <= threshold < 0x8000_0000
  {
    Known(s, subject) && autoUpdate &&
    var o := TrackedAs(s, subject);
    |Members(Dirty(Marked(s, subject), o.is3d), o.windowName)| >= SizeT(threshold)
  }

  /** `on_update(subject)` after the cleanup, with a flush visiting `flushed` when it triggers. */
  function AfterUpdate(s: ServerState, e: Env, subject: Observable, autoUpdate: bool, threshold: int, flushed: seq<string>): ServerState
    requires -0x8000_0000 <= threshold < 0x8000_0000
  {
    if Triggers(s, subject, autoUpdate, threshold) then
      var o := TrackedAs(s, subject);
      Flushed(Marked(s, subject), e, o.windowName, o.is3d, flushed)
    else Marked(s, subject)
  }

  /** The flush order `on_update` may use. */
  ghost predicate UpdateOrder(s: ServerState, e: Env, subject: Observable, autoUpdate: bool, threshold: int, flushed: seq<string>)
    requires -0x8000_0000 <= threshold < 0x8000_0000
  {
    if Triggers(s, subject, autoUpdate, threshold) then
      var o := TrackedAs(s, subject);
      FlushOrder(Marked(s, subject), e, o.windowName, o.is3d, flushed)
    else flushed == []
  }

  /** Marking keeps the tables consistent and puts the subject's id in the dirty set of its window and kind only. */
  lemma MarkedEffect(s: ServerState, subject: Observable, next: nat)
    requires Consistent(s, next)
    ensures Consistent(Marked(s, subject), next)
    ensures Known(s, subject) ==>
      var id := s.ptrToId[subject]; var o := s.tracked[id];
      && o.ptr == subject
      && Members(Dirty(Marked(s, subject), o.is3d), o.windowName) == Members(Dirty(s, o.is3d), o.windowName) + {id}
      && Dirty(Marked(s, subject), !o.is3d) == Dirty(s, !o.is3d)
  {
    if Known(s, subject) {
      var id := s.ptrToId[subject];
      if s.tracked[id].is3d {
        DirtyGrows(s.tracked, s.dirty3d, true, id);
      } else {
        DirtyGrows(s.tracked, s.dirty2d, false, id);
      }
    }
  }

  /** `on_update` keeps the tables consistent; an unknown subject changes nothing, and without auto-update nothing is flushed. */
  lemma AfterUpdateEffect(s: ServerState, e: Env, subject: Observable, autoUpdate: bool, threshold: int, flushed: seq<string>, next: nat)
    requires -0x8000_0000 <= threshold < 0x8000_0000
    requires Consistent(s, next) && UpdateOrder(s, e, subject, autoUpdate, threshold, flushed)
    ensures Consistent(AfterUpdate(s, e, subject, autoUpdate, threshold, flushed), next)
    ensures AfterUpdate(s, e, subject, autoUpdate, threshold, flushed).tracked == s.tracked
    ensures !Known(s, subject) ==> AfterUpdate(s, e, subject, autoUpdate, threshold, flushed) == s
    ensures !autoUpdate ==> AfterUpdate(s, e, subject, autoUpdate, threshold, flushed) == Marked(s, subject)
  {
    MarkedEffect(s, subject, next);
    if Triggers(s, subject, autoUpdate, threshold) {
      var o := TrackedAs(s, subject);
      FlushedEffect(Marked(s, subject), e, o.windowName, o.is3d, flushed, next);
    }
  }

  /** A subset is no larger than its superset. */
  lemma {:induction false} SubsetCard(a: set<string>, b: set<string>)
    requires a <= b
    ensures |a| <= |b|
  {
    if a != {} {
      var x :| x in a;
      SubsetCard(a - {x}, b - {x});
    }
  }

  /**
   * With a negative threshold `on_update` never flushes while fewer than
   * 2^32 objects are tracked: the wrapped threshold exceeds any dirty set.
   */
  lemma NegativeThresholdNeverFlushes(s: ServerState, e: Env, subject: Observable, autoUpdate: bool, threshold: int, next: nat)
    requires -0x8000_0000 <= threshold < 0 && Consistent(s, next) && |s.tracked| < 0x1_0000_0000
    ensures !Triggers(s, subject, autoUpdate, threshold)
    ensures AfterUpdate(s, e, subject, autoUpdate, threshold, []) == Marked(s, subject)
  {
    if Known(s, subject) {
      MarkedEffect(s, subject, next);
      var o := TrackedAs(s, subject);
      DirtyWithinTracked(Marked(s, subject).tracked, Dirty(Marked(s, subject), o.is3d), o.is3d, o.windowName);
    }
  }

  /** A dirty set holds only tracked ids, so it is no larger than the tracked table. */
  lemma DirtyWithinTracked(tracked: map<string, TrackedObject>, dirty: map<string, set<string>>, is3d: bool, w: string)
    requires DirtyAgrees(tracked, dirty, is3d)
    ensures |Members(dirty, w)| <= |tracked|
  {
    var d := Members(dirty, w);
    assert d <= tracked.Keys by {
      forall x | x in d
        ensures x in tracked
      {
        assert w in dirty;
      }
    }
    SubsetCard(d, tracked.Keys);
  }

  /** The ids `clear_dynamic(w)` collects: the window's tracked ids whose object is live. */
  ghost function LiveMembers(s: ServerState, e: Env, w: string): set<string>
  {
    set id | id in Members(s.windowObjects, w) && id in s.tracked && !Expired(e, s.tracked[id])
  }

  /** The ids `clear_static(w)` collects: the window's tracked ids whose object has expired. */
  ghost function ExpiredMembers(s: ServerState, e: Env, w: string): set<string>
  {
    set id | id in Members(s.windowObjects, w) && id in s.tracked && Expired(e, s.tracked[id])
  }

  /**
   * The three clears compared once the expired objects are gone, which each
   * of them ensures first: `clear_static` finds nothing left to remove, and
   * `clear_dynamic` removes the same ids as `clear`.
   */
  lemma ClearsAfterCleanup(s: ServerState, e: Env, order: seq<string>, w: string, next: nat)
    requires Consistent(s, next) && Enumerates(order, ExpiredIds(s, e))
    ensures ExpiredMembers(RemoveAll(s, e, order), e, w) == {}
    ensures LiveMembers(RemoveAll(s, e, order), e, w) == Members(RemoveAll(s, e, order).windowObjects, w)
  {
    CleanupLeavesNoExpired(s, e, order, next);
    AllLive(RemoveAll(s, e, order), e, w);
  }

  /** When nothing tracked has expired, a window's members are all live. */
  lemma AllLive(t: ServerState, e: Env, w: string)
    requires WindowsAgree(t.tracked, t.windowObjects)
    requires forall id :: id in t.tracked ==> !Expired(e, t.tracked[id])
    ensures ExpiredMembers(t, e, w) == {}
    ensures LiveMembers(t, e, w) == Members(t.windowObjects, w)
  {
    forall id | id in Members(t.windowObjects, w)
      ensures id in LiveMembers(t, e, w)
    {
      assert w in t.windowObjects;
    }
  }

  /** After removing every member of `w`, as `clear(w)` does, no tracked object belongs to `w`, and every other one stays. */
  lemma ClearEmptiesWindow(s: ServerState, e: Env, removed: seq<string>, w: string, next: nat)
    requires Consistent(s, next) && Enumerates(removed, Members(s.windowObjects, w))
    ensures forall id :: id in RemoveAll(s, e, removed).tracked ==> RemoveAll(s, e, removed).tracked[id].windowName != w
    ensures forall id :: id in s.tracked && s.tracked[id].windowName != w ==> id in RemoveAll(s, e, removed).tracked
    ensures Consistent(RemoveAll(s, e, removed), next)
  {
    RemoveAllTracked(s, e, removed);
    RemoveAllKeepsConsistent(s, e, removed, next);
    forall id | id in RemoveAll(s, e, removed).tracked
      ensures RemoveAll(s, e, removed).tracked[id].windowName != w
    {
      assert id in s.tracked && id !in removed;
    }
  }

  /** `set_auto_update_policy` asks the timer to start, to stop, or neither. */
  datatype TimerRequest = StartTimer | CancelTimer | LeaveTimer

  /** Whether periodic flushing runs: auto-update on with a positive interval. */
  predicate Periodic(autoUpdate: bool, interval: int)
  {
    autoUpdate && interval > 0
  }

  /**
   * `ServerImpl`; `self` is the observer it registers with the objects it
   * tracks. It is the identity the objects hold; it is not linked to
   * `OnUpdate`, so a notification reaches the server only when `OnUpdate`
   * is called with its subject.
   */
  class ServerImpl {
    const self: Observer
    var tracked: map<string, TrackedObject>
    var ptrToId: map<Observable, string>
    var windowObjects: map<string, set<string>>
    var dirty2d: map<string, set<string>>
    var dirty3d: map<string, set<string>>
    var outbox: seq<Message>
    var windows: map<string, WindowInfo>
    var connections: seq<string>
    var released: set<Observable>
    var nextObjectId: nat
    var nextWindowIndex: nat
    var autoUpdate: bool
    var threshold: int
    var interval: int

    function State(): ServerState
      reads this
    {
      ServerState(tracked, ptrToId, windowObjects, dirty2d, dirty3d, outbox)
    }

    function Environment(): Env
      reads this
    {
      Env(windows, connections, released)
    }

    /** The objects the server may detach itself from. */
    function Pointers(): set<Observable>
      reads this
    {
      set id | id in tracked :: tracked[id].ptr
    }

    ghost predicate Valid()
      reads this
    {
      Consistent(State(), nextObjectId) && nextObjectId >= 1
      && -0x8000_0000 <= threshold < 0x8000_0000
    }

    /** `ServerImpl(port)`: nothing tracked, no windows, auto-update off with threshold and interval 0. */
    constructor(observer: Observer)
      ensures Valid() && State() == EmptyState && Environment() == Env(map[], [], {})
      ensures self == observer && nextObjectId == 1 && nextWindowIndex == 0
      ensures !autoUpdate && threshold == 0 && interval == 0
    {
      self := observer;
      tracked := map[];
      ptrToId := map[];
      windowObjects := map[];
      dirty2d := map[];
      dirty3d := map[];
      outbox := [];
      windows := map[];
      connections := [];
      released := {};
      nextObjectId := 1;
      nextWindowIndex := 0;
      autoUpdate := false;
      threshold := 0;
      interval := 0;
    }

    /** The environment: the last owner of `obj` lets it go, so every weak pointer to it expires. */
    method Release(obj: Observable)
      requires Valid()
      modifies this
      ensures Valid() && released == old(released) + {obj}
      ensures State() == old(State()) && windows == old(windows) && connections == old(connections)
      ensures unchanged(`nextObjectId, `nextWindowIndex, `autoUpdate, `threshold, `interval)
    {
      released := released + {obj};
    }

    /** The environment: the connection table's keys, in its order, after clients connected or left. */
    method SetConnections(keys: seq<string>)
      requires Valid()
      modifies this
      ensures Valid() && connections == keys
      ensures State() == old(State()) && windows == old(windows) && released == old(released)
      ensures unchanged(`nextObjectId, `nextWindowIndex, `autoUpdate, `threshold, `interval)
    {
      connections := keys;
    }

    /** `remove_object_internal(id)`; a live object's observer is detached. */
    method RemoveObjectInternal(id: string)
      modifies this, if id in tracked && !Expired(Environment(), tracked[id]) then {tracked[id].ptr} else {}
      ensures State() == Removal(old(State()), old(Environment()), id)
      ensures unchanged(`windows, `connections, `released, `nextObjectId, `nextWindowIndex, `autoUpdate, `threshold, `interval)
      ensures id in old(tracked) && !Expired(old(Environment()), old(tracked[id])) ==> old(tracked[id].ptr).observer == null
    {
      if id !in tracked {
        return;
      }
      var o := tracked[id];
      if o.ptr !in released {
        o.ptr.SetObserver(null);
      }
      Forget(id);
    }

    /** The table updates of `remove_object_internal(id)`, for a tracked id. */
    method Forget(id: string)
      requires id in tracked
      modifies this
      ensures State() == Removal(old(State()), old(Environment()), id)
      ensures unchanged(`windows, `connections, `released, `nextObjectId, `nextWindowIndex, `autoUpdate, `threshold, `interval)
    {
      Unlink(id);
      var o := tracked[id];
      var wid := WindowIdFor(Environment(), o.windowName, o.is3d);
      if wid != "" {
        outbox := Send(outbox, Environment(), Message(wid, o.is3d, [DeleteObject(id)]));
      }
      tracked := tracked - {id};
    }

    /** The pointer entry of a live object goes, and the id leaves its window and its kind's dirty set. */
    method Unlink(id: string)
      requires id in tracked
      modifies this
      ensures var t := Removal(old(State()), old(Environment()), id);
        ptrToId == t.ptrToId && windowObjects == t.windowObjects && dirty2d == t.dirty2d && dirty3d == t.dirty3d
      ensures unchanged(`tracked, `outbox, `windows, `connections, `released, `nextObjectId, `nextWindowIndex, `autoUpdate, `threshold, `interval)
    {
      var o := tracked[id];
      var w := o.windowName;
      if o.ptr !in released {
        ptrToId := ptrToId - {o.ptr};
      }
      windowObjects := windowObjects[w := Members(windowObjects, w) - {id}];
      if o.is3d {
        dirty3d := dirty3d[w := Members(dirty3d, w) - {id}];
      } else {
        dirty2d := dirty2d[w := Members(dirty2d, w) - {id}];
      }
    }

    /** The objects of live tracked ids listed in `ids`: those whose removal detaches the server. */
    function LivePointers(ids: seq<string>): set<Observable>
      reads this
    {
      set id | id in ids && id in tracked && tracked[id].ptr !in released :: tracked[id].ptr
    }

    /**
     * The first loop of `cleanup_expired_objects` and of the clears: the
     * selected ids are copied into a vector, in the container's order.
     */
    method Collect(ids: set<string>) returns (order: seq<string>)
      ensures Enumerates(order, ids)
    {
      var remaining := ids;
      order := [];
      while remaining != {}
        invariant remaining <= ids && Enumerates(order, ids - remaining)
        decreases |remaining|
      {
        var id :| id in remaining;
        EnumeratesAppend(order, ids - remaining, id);
        remaining := remaining - {id};
        order := order + [id];
        assert ids - remaining == (ids - (remaining + {id})) + {id};
      }
    }

    /**
     * The second loop of `cleanup_expired_objects` and of the clears: remove
     * each collected id, in order.
     */
    method RemoveEach(ids: seq<string>)
      modifies this, LivePointers(ids)
      ensures State() == RemoveAll(old(State()), old(Environment()), ids)
      ensures unchanged(`windows, `connections, `released, `nextObjectId, `nextWindowIndex, `autoUpdate, `threshold, `interval)
    {
      ghost var s0 := State();
      ghost var e := Environment();
      for i := 0 to |ids|
        invariant unchanged(`windows, `connections, `released, `nextObjectId, `nextWindowIndex, `autoUpdate, `threshold, `interval)
        invariant State() == RemoveAll(s0, e, ids[..i])
      {
        var id := ids[i];
        RemoveAllTracked(s0, e, ids[..i]);
        if id in tracked && tracked[id].ptr !in released {
          assert tracked[id].ptr in old(LivePointers(ids));
        }
        RemoveObjectInternal(id);
        assert ids[..i + 1] == ids[..i] + [id];
      }
      assert ids[..|ids|] == ids;
    }

    /**
     * `cleanup_expired_objects()`: collect the expired ids, then remove each;
     * no tracked object has expired afterwards.
     */
    method CleanupExpiredObjects() returns (order: seq<string>)
      modifies this
      ensures Enumerates(order, ExpiredIds(old(State()), old(Environment())))
      ensures State() == RemoveAll(old(State()), old(Environment()), order)
      ensures forall id :: id in tracked ==> !Expired(Environment(), tracked[id])
      ensures unchanged(`windows, `connections, `released, `nextObjectId, `nextWindowIndex, `autoUpdate, `threshold, `interval)
    {
      order := Collect(set id | id in tracked && tracked[id].ptr in released);
      assert LivePointers(order) == {};
      RemoveEach(order);
      RemoveAllTracked(old(State()), old(Environment()), order);
    }

    /**
     * `add(obj, window_name, material, is_3d)`: a null object changes
     * nothing; otherwise, after the cleanup, the object is tracked under the
     * next id and the server becomes its observer.
     */
    method Add(obj: Observable?, w: string, material: Protocol.Material, is3d: bool) returns (ghost cleaned: seq<string>)
      requires Valid() && obj !in released
      modifies this, obj
      ensures Valid() && Environment() == old(Environment())
      ensures obj == null ==> State() == old(State()) && nextObjectId == old(nextObjectId)
      ensures obj != null ==>
        && Enumerates(cleaned, ExpiredIds(old(State()), old(Environment())))
        && State() == Added(RemoveAll(old(State()), old(Environment()), cleaned), old(Environment()), obj, w, material, is3d, old(nextObjectId))
        && nextObjectId == old(nextObjectId) + 1
        && obj.observer == self
      ensures unchanged(`nextWindowIndex, `autoUpdate, `threshold, `interval)
    {
      cleaned := [];
      if obj == null {
        return;
      }
      cleaned := CleanupExpiredObjects();
      ghost var s1 := State();
      RemoveAllKeepsConsistent(old(State()), Environment(), cleaned, nextObjectId);
      AddedEffect(s1, Environment(), obj, w, material, is3d, nextObjectId);
      Register(obj, w, material, is3d);
    }

    /** The part of `add` after the cleanup: the object is tracked under the next id and announced. */
    method Register(obj: Observable, w: string, material: Protocol.Material, is3d: bool)
      modifies this, obj
      ensures State() == Added(old(State()), old(Environment()), obj, w, material, is3d, old(nextObjectId))
      ensures nextObjectId == old(nextObjectId) + 1 && obj.observer == self
      ensures unchanged(`windows, `connections, `released, `nextWindowIndex, `autoUpdate, `threshold, `interval)
    {
      var id := Track(obj, w, material, is3d);
      obj.SetObserver(self);
      var wid := WindowIdFor(Environment(), w, is3d);
      if wid == "" {
        return;
      }
      outbox := Send(outbox, Environment(), Message(wid, is3d, [AddObject(id, material)]));
    }

    /** The bookkeeping of `add`: the next id is taken and tracked, the pointer maps to it, and it joins the window. */
    method Track(obj: Observable, w: string, material: Protocol.Material, is3d: bool) returns (id: string)
      modifies this
      ensures id == ObjectId(old(nextObjectId)) && nextObjectId == old(nextObjectId) + 1
      ensures tracked == old(tracked)[id := TrackedObject(obj, is3d, w, material)]
      ensures ptrToId == old(ptrToId)[obj := id]
      ensures windowObjects == old(windowObjects)[w := Members(old(windowObjects), w) + {id}]
      ensures unchanged(`dirty2d, `dirty3d, `outbox, `windows, `connections, `released, `nextWindowIndex, `autoUpdate, `threshold, `interval)
    {
      id := ObjectId(nextObjectId);
      nextObjectId := nextObjectId + 1;
      tracked := tracked[id := TrackedObject(obj, is3d, w, material)];
      ptrToId := ptrToId[obj := id];
      windowObjects := windowObjects[w := Members(windowObjects, w) + {id}];
    }

    /**
     * `add(const Observable&, ...)`: the object is cloned and the clone added;
     * the clone's only owner is gone when the call returns, so it has expired
     * and the next cleanup removes it again.
     */
    method AddCopy(original: Observable, w: string, material: Protocol.Material, is3d: bool) returns (copy: Observable, ghost cleaned: seq<string>)
      requires Valid()
      modifies this
      ensures fresh(copy) && copy.observer == self && released == old(released) + {copy}
      ensures Valid() && windows == old(windows) && connections == old(connections)
      ensures Enumerates(cleaned, ExpiredIds(old(State()), old(Environment())))
      ensures State() == Added(RemoveAll(old(State()), old(Environment()), cleaned), old(Environment()), copy, w, material, is3d, old(nextObjectId))
      ensures ObjectId(old(nextObjectId)) in ExpiredIds(State(), Environment())
      ensures nextObjectId == old(nextObjectId) + 1
      ensures unchanged(`nextWindowIndex, `autoUpdate, `threshold, `interval)
    {
      copy := new Observable();
      copy.SetObserver(original.observer);
      cleaned := Add(copy, w, material, is3d);
      released := released + {copy};
    }

    /**
     * `clear(window_name)`: after the cleanup, every member of the window is
     * removed, so no tracked object belongs to it.
     */
    method Clear(w: string) returns (cleaned: seq<string>, removed: seq<string>)
      requires Valid()
      modifies this, Pointers()
      ensures Valid() && Environment() == old(Environment())
      ensures unchanged(`nextObjectId, `nextWindowIndex, `autoUpdate, `threshold, `interval)
      ensures Enumerates(cleaned, ExpiredIds(old(State()), old(Environment())))
      ensures var s1 := RemoveAll(old(State()), old(Environment()), cleaned);
        Enumerates(removed, Members(s1.windowObjects, w)) && State() == RemoveAll(s1, old(Environment()), removed)
      ensures forall id :: id in tracked ==> tracked[id].windowName != w
    {
      cleaned := CleanupExpiredObjects();
      ghost var s1 := State();
      RemoveAllKeepsConsistent(old(State()), Environment(), cleaned, nextObjectId);
      removed := [];
      if w in windowObjects {
        removed := Collect(windowObjects[w]);
        assert LivePointers(removed) <= old(Pointers()) by {
          RemoveAllTracked(old(State()), Environment(), cleaned);
        }
        RemoveEach(removed);
      }
      ClearEmptiesWindow(s1, Environment(), removed, w, nextObjectId);
    }

    /** `clear_dynamic(window_name)`: after the cleanup, the window's live objects are removed. */
    method ClearDynamic(w: string) returns (cleaned: seq<string>, removed: seq<string>)
      requires Valid()
      modifies this, Pointers()
      ensures Valid() && Environment() == old(Environment())
      ensures unchanged(`nextObjectId, `nextWindowIndex, `autoUpdate, `threshold, `interval)
      ensures Enumerates(cleaned, ExpiredIds(old(State()), old(Environment())))
      ensures var s1 := RemoveAll(old(State()), old(Environment()), cleaned);
        Enumerates(removed, LiveMembers(s1, old(Environment()), w)) && State() == RemoveAll(s1, old(Environment()), removed)
    {
      cleaned := CleanupExpiredObjects();
      ghost var s1 := State();
      RemoveAllKeepsConsistent(old(State()), Environment(), cleaned, nextObjectId);
      removed := [];
      if w in windowObjects {
        removed := Collect(set id | id in windowObjects[w] && id in tracked && tracked[id].ptr !in released);
        assert LivePointers(removed) <= old(Pointers()) by {
          RemoveAllTracked(old(State()), Environment(), cleaned);
        }
        RemoveEach(removed);
      }
      RemoveAllKeepsConsistent(s1, Environment(), removed, nextObjectId);
    }

    /** `clear_static(window_name)`: after the cleanup, the window's expired objects are removed. */
    method ClearStatic(w: string) returns (cleaned: seq<string>, removed: seq<string>)
      requires Valid()
      modifies this, Pointers()
      ensures Valid() && Environment() == old(Environment())
      ensures unchanged(`nextObjectId, `nextWindowIndex, `autoUpdate, `threshold, `interval)
      ensures Enumerates(cleaned, ExpiredIds(old(State()), old(Environment())))
      ensures var s1 := RemoveAll(old(State()), old(Environment()), cleaned);
        Enumerates(removed, ExpiredMembers(s1, old(Environment()), w)) && State() == RemoveAll(s1, old(Environment()), removed)
    {
      cleaned := CleanupExpiredObjects();
      ghost var s1 := State();
      RemoveAllKeepsConsistent(old(State()), Environment(), cleaned, nextObjectId);
      removed := [];
      if w in windowObjects {
        removed := Collect(set id | id in windowObjects[w] && id in tracked && tracked[id].ptr in released);
        assert LivePointers(removed) <= old(Pointers()) by {
          RemoveAllTracked(old(State()), Environment(), cleaned);
        }
        RemoveEach(removed);
      }
      RemoveAllKeepsConsistent(s1, Environment(), removed, nextObjectId);
    }

    /**
     * `flush_dirty_set_2d_unlocked(w)` and `flush_dirty_set_3d_unlocked(w)`:
     * the dirty set is visited in its container's order, an update command is
     * built for each live tracked id, those ids are erased from the set, and
     * the commands are sent when there is at least one.
     */
    method FlushDirtySet(w: string, is3d: bool) returns (order: seq<string>)
      modifies this
      ensures unchanged(`windows, `connections, `released, `nextObjectId, `nextWindowIndex, `autoUpdate, `threshold, `interval)
      ensures FlushOrder(old(State()), old(Environment()), w, is3d, order)
      ensures State() == Flushed(old(State()), old(Environment()), w, is3d, order)
    {
      order := [];
      var dirty := Members(if is3d then dirty3d else dirty2d, w);
      if dirty == {} {
        return;
      }
      var wid := WindowIdFor(Environment(), w, is3d);
      if wid == "" {
        return;
      }
      var visit := Collect(dirty);
      var commands;
      order, commands := UpdatesFor(visit);
      assert (set x | x in visit && x in tracked && !Expired(Environment(), tracked[x])) == LiveDirty(State(), Environment(), w, is3d);
      var rest := EraseEach(dirty, order);
      Commit(w, is3d, rest, wid, order, commands);
    }

    /** The end of a flush: the erased dirty set is stored and the commands are sent when there is at least one. */
    method Commit(w: string, is3d: bool, rest: set<string>, wid: string, order: seq<string>, commands: seq<ServerCommand>)
      requires FlushProceeds(State(), Environment(), w, is3d) && wid == WindowIdFor(Environment(), w, is3d)
      requires forall x :: x in rest <==> x in Members(Dirty(State(), is3d), w) && x !in order
      requires commands == UpdateCommands(order)
      modifies this
      ensures unchanged(`windows, `connections, `released, `nextObjectId, `nextWindowIndex, `autoUpdate, `threshold, `interval)
      ensures State() == Flushed(old(State()), old(Environment()), w, is3d, order)
    {
      assert rest == Members(Dirty(State(), is3d), w) - (set x | x in order);
      if is3d {
        dirty3d := dirty3d[w := rest];
      } else {
        dirty2d := dirty2d[w := rest];
      }
      if |commands| > 0 {
        outbox := Send(outbox, Environment(), Message(wid, is3d, commands));
      }
    }

    /**
     * The first loop of a flush: an update command for each id of `visit`
     * that is tracked and live, in the order visited.
     */
    method UpdatesFor(visit: seq<string>) returns (order: seq<string>, commands: seq<ServerCommand>)
      requires Distinct(visit)
      ensures Enumerates(order, set x | x in visit && x in tracked && !Expired(Environment(), tracked[x]))
      ensures commands == UpdateCommands(order)
    {
      ghost var live := set x | x in visit && x in tracked && !Expired(Environment(), tracked[x]);
      order := [];
      commands := [];
      for i := 0 to |visit|
        invariant Enumerates(order, live * (set x | x in visit[..i]))
        invariant commands == UpdateCommands(order)
      {
        var id := visit[i];
        assert visit[..i + 1] == visit[..i] + [id];
        if id in tracked && tracked[id].ptr !in released {
          assert id !in visit[..i] by {
            forall k | 0 <= k < i
              ensures visit[k] != id
            {
            }
          }
          EnumeratesAppend(order, live * (set x | x in visit[..i]), id);
          commands := commands + [UpdateObjectGeometry(id)];
          order := order + [id];
        }
      }
      assert visit[..|visit|] == visit;
    }

    /** The second loop of a flush: each processed id is erased from the dirty set. */
    static method EraseEach(dirty: set<string>, processed: seq<string>) returns (rest: set<string>)
      ensures forall x :: x in rest <==> x in dirty && x !in processed
    {
      rest := dirty;
      for j := 0 to |processed|
        invariant forall x :: x in rest <==> x in dirty && x !in processed[..j]
      {
        assert processed[..j + 1] == processed[..j] + [processed[j]];
        rest := rest - {processed[j]};
      }
      assert processed[..|processed|] == processed;
    }

    /**
     * `on_update(subject)`: after the cleanup, a known subject's id is marked
     * dirty and its window flushed when auto-update is on and the dirty set
     * has reached the threshold.
     */
    method OnUpdate(subject: Observable) returns (ghost cleaned: seq<string>, ghost flushed: seq<string>)
      requires Valid()
      modifies this
      ensures Valid() && Environment() == old(Environment())
      ensures unchanged(`nextObjectId, `nextWindowIndex, `autoUpdate, `threshold, `interval)
      ensures Enumerates(cleaned, ExpiredIds(old(State()), old(Environment())))
      ensures var s1 := RemoveAll(old(State()), old(Environment()), cleaned);
        && UpdateOrder(s1, old(Environment()), subject, autoUpdate, threshold, flushed)
        && State() == AfterUpdate(s1, old(Environment()), subject, autoUpdate, threshold, flushed)
    {
      cleaned := CleanupExpiredObjects();
      ghost var s1 := State();
      RemoveAllKeepsConsistent(old(State()), Environment(), cleaned, nextObjectId);
      flushed := Mark(subject);
      AfterUpdateEffect(s1, Environment(), subject, autoUpdate, threshold, flushed, nextObjectId);
    }

    /** The part of `on_update` after the cleanup. */
    method Mark(subject: Observable) returns (ghost flushed: seq<string>)
      requires -0x8000_0000 <= threshold < 0x8000_0000
      modifies this
      ensures Environment() == old(Environment())
      ensures unchanged(`nextObjectId, `nextWindowIndex, `autoUpdate, `threshold, `interval)
      ensures UpdateOrder(old(State()), old(Environment()), subject, autoUpdate, threshold, flushed)
      ensures State() == AfterUpdate(old(State()), old(Environment()), subject, autoUpdate, threshold, flushed)
    {
      flushed := [];
      if subject !in ptrToId {
        return;
      }
      var id := ptrToId[subject];
      if id !in tracked {
        return;
      }
      var o := tracked[id];
      if o.is3d {
        dirty3d := dirty3d[o.windowName := Members(dirty3d, o.windowName) + {id}];
        if autoUpdate && |dirty3d[o.windowName]| >= SizeT(threshold) {
          flushed := FlushDirtySet(o.windowName, true);
        }
      } else {
        dirty2d := dirty2d[o.windowName := Members(dirty2d, o.windowName) + {id}];
        if autoUpdate && |dirty2d[o.windowName]| >= SizeT(threshold) {
          flushed := FlushDirtySet(o.windowName, false);
        }
      }
    }

    /** `drawnow(name, is_3d)`: after the cleanup, the window's dirty set of that kind is flushed. */
    method Drawnow(w: string, is3d: bool) returns (ghost cleaned: seq<string>, ghost flushed: seq<string>)
      requires Valid()
      modifies this
      ensures Valid() && Environment() == old(Environment())
      ensures unchanged(`nextObjectId, `nextWindowIndex, `autoUpdate, `threshold, `interval)
      ensures Enumerates(cleaned, ExpiredIds(old(State()), old(Environment())))
      ensures var s1 := RemoveAll(old(State()), old(Environment()), cleaned);
        && FlushOrder(s1, old(Environment()), w, is3d, flushed)
        && State() == Flushed(s1, old(Environment()), w, is3d, flushed)
    {
      cleaned := CleanupExpiredObjects();
      ghost var s1 := State();
      RemoveAllKeepsConsistent(old(State()), Environment(), cleaned, nextObjectId);
      flushed := FlushDirtySet(w, is3d);
      FlushedEffect(s1, Environment(), w, is3d, flushed, nextObjectId);
    }

    /**
     * `set_auto_update_policy(enabled, threshold, interval_ms)`: stores the
     * policy and asks the timer to start when periodic flushing turns on, to
     * stop when it turns off.
     */
    method SetAutoUpdatePolicy(enabled: bool, threshold: int, interval: int) returns (request: TimerRequest)
      requires Valid() && -0x8000_0000 <= threshold < 0x8000_0000
      modifies this
      ensures Valid() && State() == old(State()) && Environment() == old(Environment())
      ensures autoUpdate == enabled && this.threshold == threshold && this.interval == interval
      ensures unchanged(`nextObjectId, `nextWindowIndex)
      ensures request == StartTimer <==> !Periodic(old(autoUpdate), old(this.interval)) && Periodic(enabled, interval)
      ensures request == CancelTimer <==> Periodic(old(autoUpdate), old(this.interval)) && !Periodic(enabled, interval)
    {
      var wasOn := autoUpdate && this.interval > 0;
      autoUpdate := enabled;
      this.threshold := threshold;
      this.interval := interval;
      var isOn := autoUpdate && this.interval > 0;
      if !wasOn && isOn {
        request := StartTimer;
      } else if wasOn && !isOn {
        request := CancelTimer;
      } else {
        request := LeaveTimer;
      }
    }

    /**
     * `create_window(name, is_3d)`: an empty name becomes the next
     * `"window_" + k`; the entry for the name is set, replacing any earlier one.
     */
    method CreateWindow(name: string, is3d: bool) returns (windowName: string)
      requires Valid()
      modifies this
      ensures Valid() && State() == old(State())
      ensures name != "" ==> windowName == name && nextWindowIndex == old(nextWindowIndex)
      ensures name == "" ==> windowName == WindowName(old(nextWindowIndex)) && nextWindowIndex == old(nextWindowIndex) + 1
      ensures windows == old(windows)[windowName := WindowInfo(windowName, is3d, windowName)]
      ensures connections == old(connections) && released == old(released)
      ensures unchanged(`nextObjectId, `autoUpdate, `threshold, `interval)
    {
      if name == "" {
        windowName := WindowName(nextWindowIndex);
        nextWindowIndex := nextWindowIndex + 1;
      } else {
        windowName := name;
      }
      windows := windows[windowName := WindowInfo(windowName, is3d, windowName)];
    }

    /**
     * `remove_window(name, is_3d)`: false, changing nothing, when the window
     * is absent or of the other kind; otherwise the window is cleared and
     * erased, and the result is true.
     */
    method RemoveWindow(name: string, is3d: bool) returns (ok: bool, ghost cleaned: seq<string>, ghost removed: seq<string>)
      requires Valid()
      modifies this, Pointers()
      ensures Valid()
      ensures ok <==> name in old(windows) && old(windows)[name].is3d == is3d
      ensures !ok ==> State() == old(State()) && Environment() == old(Environment())
      ensures ok ==>
        && windows == old(windows) - {name}
        && Enumerates(cleaned, ExpiredIds(old(State()), old(Environment())))
        && var s1 := RemoveAll(old(State()), old(Environment()), cleaned);
          Enumerates(removed, Members(s1.windowObjects, name)) && State() == RemoveAll(s1, old(Environment()), removed)
      ensures ok ==> forall id :: id in tracked ==> tracked[id].windowName != name
      ensures connections == old(connections) && released == old(released)
      ensures unchanged(`nextObjectId, `nextWindowIndex, `autoUpdate, `threshold, `interval)
    {
      cleaned, removed := [], [];
      if name !in windows || windows[name].is3d != is3d {
        return false, cleaned, removed;
      }
      cleaned, removed := Clear(name);
      windows := windows - {name};
      ok := true;
    }

    /** `get_windows_name(is_3d)`: the names of the windows of that kind, each once. */
    method GetWindowsName(is3d: bool) returns (names: seq<string>)
      ensures Distinct(names)
      ensures forall n :: n in names <==> n in windows && windows[n].is3d == is3d
    {
      names := [];
      var rest := windows.Keys;
      while rest != {}
        invariant rest <= windows.Keys && Distinct(names)
        invariant forall n :: n in names <==> n in windows.Keys - rest && windows[n].is3d == is3d
        decreases |rest|
      {
        var n :| n in rest;
        if windows[n].is3d == is3d {
          names := names + [n];
        }
        rest := rest - {n};
      }
    }
  }
}
