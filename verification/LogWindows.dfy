/** The state machine of the floating log windows
    (frontend/src/hooks/logWindowsState.ts), without positions: whatever the
    user does, no container has two tabs and no window is without one. */
module LogWindows {
  import opened Common

  datatype Tab = Tab(container: nat, title: nat, search: nat)

  /** A window; the ID `lw-n` is the number n. */
  datatype Window = Window(id: nat, tabs: seq<Tab>, active: int, w: int, h: int, z: nat, minimized: bool)

  datatype State = State(windows: seq<Window>, nextZ: nat, nextId: nat)

  const INITIAL := State([], 1, 1)

  const DEFAULT_W := 460
  const DEFAULT_H := 340
  const MIN_W := 280
  const MIN_H := 160

  function Max(a: int, b: int): int { if a < b then b else a }

  function Min(a: int, b: int): int { if a < b then a else b }

  /** `Math.round`. */
  function Round(r: real): int { (r + 0.5).Floor }

  // ------------------------------------------------------------ transitions

  /** The first window with the ID. */
  function Find(ws: seq<Window>, id: nat): Option<Window> {
    if ws == [] then None
    else if Find(Init(ws), id).Some? then Find(Init(ws), id)
    else if Last(ws).id == id then Some(Last(ws)) else None
  }

  /** The position of the first tab of a container. */
  function IndexOf(tabs: seq<Tab>, c: nat): (i: nat)
    ensures i <= |tabs| && (i < |tabs| ==> tabs[i].container == c)
    ensures i < |tabs| <==> exists t :: t in tabs && t.container == c
  {
    if tabs == [] then 0 else if tabs[0].container == c then 0 else 1 + IndexOf(tabs[1..], c)
  }

  function FindContainer(ws: seq<Window>, c: nat): Option<Window> {
    if ws == [] then None
    else if FindContainer(Init(ws), c).Some? then FindContainer(Init(ws), c)
    else if IndexOf(Last(ws).tabs, c) < |Last(ws).tabs| then Some(Last(ws)) else None
  }

  function UpdateAt(ws: seq<Window>, id: nat, f: Window -> Window): seq<Window> {
    if ws == [] then [] else UpdateAt(Init(ws), id, f) + [if Last(ws).id == id then f(Last(ws)) else Last(ws)]
  }

  function Without(ws: seq<Window>, id: nat): seq<Window> {
    if ws == [] then [] else if Last(ws).id != id then Without(Init(ws), id) + [Last(ws)] else Without(Init(ws), id)
  }

  /** The tabs but the one at `i`; all of them when there is none at `i`. */
  function Remaining(tabs: seq<Tab>, i: int): seq<Tab> {
    if 0 <= i < |tabs| then tabs[..i] + tabs[i + 1..] else tabs
  }

  function WithSearch(tabs: seq<Tab>, i: int, query: nat): seq<Tab> {
    if 0 <= i < |tabs| then tabs[i := tabs[i].(search := query)] else tabs
  }

  datatype Action =
    | Focus(id: nat)
    | Open(container: nat, title: nat)
    | CloseWindow(id: nat)
    | Resize(id: nat, w: real, h: real)
    | Minimize(id: nat)
    | Restore(id: nat)
    | SetActive(id: nat, index: int)
    | SetSearch(id: nat, index: int, query: nat)
    | Merge(source: nat, target: nat)
    | Detach(id: nat, index: int)
    | CloseTab(id: nat, index: int)

  function FocusWindow(s: State, id: nat): State {
    s.(nextZ := s.nextZ + 1, windows := UpdateAt(s.windows, id, (w: Window) => w.(z := s.nextZ)))
  }

  function OpenLogs(s: State, c: nat, title: nat): State {
    var existing := FindContainer(s.windows, c);
    if existing.Some? then
      var i := IndexOf(existing.value.tabs, c);
      s.(nextZ := s.nextZ + 1,
         windows := UpdateAt(s.windows, existing.value.id, (w: Window) => w.(z := s.nextZ, minimized := false, active := i)))
    else
      State(s.windows + [Window(s.nextId, [Tab(c, title, 0)], 0, DEFAULT_W, DEFAULT_H, s.nextZ, false)],
            s.nextZ + 1, s.nextId + 1)
  }

  function CloseAll(s: State, id: nat): State {
    s.(windows := Without(s.windows, id))
  }

  function ResizeWindow(s: State, id: nat, w: real, h: real): State {
    s.(windows := UpdateAt(s.windows, id, (v: Window) => v.(w := Max(MIN_W, Round(w)), h := Max(MIN_H, Round(h)))))
  }

  function MinimizeWindow(s: State, id: nat): State {
    s.(windows := UpdateAt(s.windows, id, (w: Window) => w.(minimized := true)))
  }

  function RestoreWindow(s: State, id: nat): State {
    s.(nextZ := s.nextZ + 1,
       windows := UpdateAt(s.windows, id, (w: Window) => w.(minimized := false, z := s.nextZ)))
  }

  function SetActiveTab(s: State, id: nat, index: int): State {
    s.(windows := UpdateAt(s.windows, id, (w: Window) => w.(active := Min(Max(0, index), |w.tabs| - 1))))
  }

  function SetTabSearch(s: State, id: nat, index: int, query: nat): State {
    s.(windows := UpdateAt(s.windows, id, (w: Window) => w.(tabs := WithSearch(w.tabs, index, query))))
  }

  /** All tabs of `from` behind those of `to`, which comes to the front. */
  function Appended(rest: seq<Window>, to: Window, from: Window, z: nat): seq<Window> {
    UpdateAt(rest, to.id, (w: Window) =>
      w.(tabs := to.tabs + from.tabs, active := |to.tabs|, z := z, minimized := false))
  }

  function MergeWindows(s: State, source: nat, target: nat): State {
    if source == target then s
    else
      var from, to := Find(s.windows, source), Find(s.windows, target);
      if from.None? || to.None? then s
      else
        s.(nextZ := s.nextZ + 1, windows := Appended(Without(s.windows, source), to.value, from.value, s.nextZ))
  }

  function DetachTab(s: State, id: nat, index: int): State {
    var win := Find(s.windows, id);
    if win.None? || |win.value.tabs| <= 1 || !(0 <= index < |win.value.tabs|) then s
    else
      var remaining := Remaining(win.value.tabs, index);
      State(UpdateAt(s.windows, id, (w: Window) => w.(tabs := remaining, active := Min(w.active, |remaining| - 1)))
              + [Window(s.nextId, [win.value.tabs[index]], 0, win.value.w, win.value.h, s.nextZ, false)],
            s.nextZ + 1, s.nextId + 1)
  }

  function CloseOne(s: State, id: nat, index: int): State {
    var win := Find(s.windows, id);
    if win.None? then s
    else if |win.value.tabs| <= 1 then CloseAll(s, id)
    else
      var remaining := Remaining(win.value.tabs, index);
      s.(windows := UpdateAt(s.windows, id, (w: Window) => w.(tabs := remaining, active := Min(w.active, |remaining| - 1))))
  }

  function Step(s: State, a: Action): State {
    match a
    case Focus(id) => FocusWindow(s, id)
    case Open(c, title) => OpenLogs(s, c, title)
    case CloseWindow(id) => CloseAll(s, id)
    case Resize(id, w, h) => ResizeWindow(s, id, w, h)
    case Minimize(id) => MinimizeWindow(s, id)
    case Restore(id) => RestoreWindow(s, id)
    case SetActive(id, index) => SetActiveTab(s, id, index)
    case SetSearch(id, index, query) => SetTabSearch(s, id, index, query)
    case Merge(source, target) => MergeWindows(s, source, target)
    case Detach(id, index) => DetachTab(s, id, index)
    case CloseTab(id, index) => CloseOne(s, id, index)
  }

  function Run(actions: seq<Action>): State {
    if actions == [] then INITIAL else Step(Run(Init(actions)), Last(actions))
  }

  // ------------------------------------------------------------- invariants

  /** A window below the counters, with a tab, an active one and a size. */
  predicate Fits(w: Window, nextId: nat, nextZ: nat) {
    w.id < nextId && w.z < nextZ && 0 <= w.active < |w.tabs| && w.w >= MIN_W && w.h >= MIN_H
  }

  function Ids(ws: seq<Window>): set<nat> {
    if ws == [] then {} else Ids(Init(ws)) + {Last(ws).id}
  }

  function Zs(ws: seq<Window>): set<nat> {
    if ws == [] then {} else Zs(Init(ws)) + {Last(ws).z}
  }

  /** Every window fits, and no two share an ID or a z value. */
  predicate Windows(ws: seq<Window>, nextId: nat, nextZ: nat) {
    ws == [] || (Windows(Init(ws), nextId, nextZ) && Fits(Last(ws), nextId, nextZ)
                 && Last(ws).id !in Ids(Init(ws)) && Last(ws).z !in Zs(Init(ws)))
  }

  /** How many tabs a container has. */
  function Tabs(tabs: seq<Tab>, c: nat): nat {
    if tabs == [] then 0 else Tabs(Init(tabs), c) + if Last(tabs).container == c then 1 else 0
  }

  function AllTabs(ws: seq<Window>, c: nat): nat {
    if ws == [] then 0 else AllTabs(Init(ws), c) + Tabs(Last(ws).tabs, c)
  }

  lemma {:induction false} Below(ws: seq<Window>, nextId: nat, nextZ: nat, n: nat)
    requires Windows(ws, nextId, nextZ)
    ensures n in Ids(ws) ==> n < nextId
    ensures n in Zs(ws) ==> n < nextZ
  {
    if ws != [] {
      Below(Init(ws), nextId, nextZ, n);
    }
  }

  lemma {:induction false} Later(ws: seq<Window>, nextId: nat, nextZ: nat, id: nat, z: nat)
    requires Windows(ws, nextId, nextZ) && nextId <= id && nextZ <= z
    ensures Windows(ws, id, z)
  {
    if ws != [] {
      Later(Init(ws), nextId, nextZ, id, z);
    }
  }

  lemma {:induction false} Found(ws: seq<Window>, nextId: nat, nextZ: nat, id: nat)
    requires Windows(ws, nextId, nextZ)
    ensures Find(ws, id).Some? <==> id in Ids(ws)
    ensures Find(ws, id).Some? ==> Find(ws, id).value.id == id && Fits(Find(ws, id).value, nextId, nextZ)
  {
    if ws != [] {
      Found(Init(ws), nextId, nextZ, id);
    }
  }

  /** What a window may turn into: the same window, moved to the front or not. */
  predicate Replaces(w: Window, v: Window, nextId: nat, nextZ: nat, top: nat) {
    v.id == w.id && Fits(v, nextId, top) && (v.z == w.z || nextZ == v.z < top)
  }

  lemma {:induction false} Absent(ws: seq<Window>, id: nat, f: Window -> Window)
    requires id !in Ids(ws)
    ensures UpdateAt(ws, id, f) == ws && Without(ws, id) == ws && Find(ws, id) == None
  {
    if ws != [] {
      Absent(Init(ws), id, f);
      assert ws == Init(ws) + [Last(ws)];
    }
  }

  lemma {:induction false} Updated(ws: seq<Window>, id: nat, f: Window -> Window, nextId: nat, nextZ: nat, top: nat)
    requires Windows(ws, nextId, nextZ) && nextZ <= top
    requires Find(ws, id).Some? ==> Replaces(Find(ws, id).value, f(Find(ws, id).value), nextId, nextZ, top)
    ensures Windows(UpdateAt(ws, id, f), nextId, top) && Ids(UpdateAt(ws, id, f)) == Ids(ws)
    ensures Zs(UpdateAt(ws, id, f)) <= Zs(ws) + {nextZ}
  {
    if ws != [] {
      var init, w := Init(ws), Last(ws);
      Found(init, nextId, nextZ, id);
      if w.id == id {
        Absent(init, id, f);
        Later(init, nextId, nextZ, nextId, top);
        Below(init, nextId, nextZ, nextZ);
        InitMore(init, f(w));
      } else {
        Updated(init, id, f, nextId, nextZ, top);
        InitMore(UpdateAt(init, id, f), w);
      }
    }
  }

  lemma AllTabsMore(ws: seq<Window>, w: Window, c: nat)
    ensures AllTabs(ws + [w], c) == AllTabs(ws, c) + Tabs(w.tabs, c)
  {
    InitMore(ws, w);
  }

  lemma {:induction false} UpdatedTabs(ws: seq<Window>, id: nat, f: Window -> Window, nextId: nat, nextZ: nat, c: nat)
    requires Windows(ws, nextId, nextZ) && Find(ws, id).Some?
    ensures var w := Find(ws, id).value; AllTabs(UpdateAt(ws, id, f), c) + Tabs(w.tabs, c) == AllTabs(ws, c) + Tabs(f(w).tabs, c)
  {
    var init, w := Init(ws), Last(ws);
    Found(init, nextId, nextZ, id);
    if w.id == id {
      Absent(init, id, f);
      AllTabsMore(init, f(w), c);
    } else {
      UpdatedTabs(init, id, f, nextId, nextZ, c);
      AllTabsMore(UpdateAt(init, id, f), w, c);
    }
  }

  lemma {:induction false} Removed(ws: seq<Window>, id: nat, nextId: nat, nextZ: nat)
    requires Windows(ws, nextId, nextZ)
    ensures Windows(Without(ws, id), nextId, nextZ)
    ensures Ids(Without(ws, id)) <= Ids(ws) && Zs(Without(ws, id)) <= Zs(ws)
  {
    if ws != [] {
      Removed(Init(ws), id, nextId, nextZ);
      if Last(ws).id != id {
        InitMore(Without(Init(ws), id), Last(ws));
      }
    }
  }

  lemma {:induction false} RemovedTabs(ws: seq<Window>, id: nat, nextId: nat, nextZ: nat, c: nat)
    requires Windows(ws, nextId, nextZ) && Find(ws, id).Some?
    ensures AllTabs(Without(ws, id), c) + Tabs(Find(ws, id).value.tabs, c) == AllTabs(ws, c)
  {
    var init, w := Init(ws), Last(ws);
    Found(init, nextId, nextZ, id);
    if w.id == id {
      Absent(init, id, x => x);
    } else {
      RemovedTabs(init, id, nextId, nextZ, c);
      AllTabsMore(Without(init, id), w, c);
    }
  }

  lemma {:induction false} FindOther(ws: seq<Window>, id: nat, other: nat)
    requires id != other
    ensures Find(Without(ws, id), other) == Find(ws, other)
  {
    if ws != [] {
      FindOther(Init(ws), id, other);
      if Last(ws).id != id {
        InitMore(Without(Init(ws), id), Last(ws));
      }
    }
  }

  lemma Added(ws: seq<Window>, w: Window, nextId: nat, nextZ: nat)
    requires Windows(ws, nextId, nextZ) && w.id == nextId && w.z == nextZ && Fits(w, nextId + 1, nextZ + 1)
    ensures Windows(ws + [w], nextId + 1, nextZ + 1)
  {
    InitMore(ws, w);
    Later(ws, nextId, nextZ, nextId + 1, nextZ + 1);
    Below(ws, nextId, nextZ, nextId);
    Below(ws, nextId, nextZ, nextZ);
  }

  // -------------------------------------------------------------------- tabs

  lemma {:induction false} HasTab(tabs: seq<Tab>, c: nat)
    ensures IndexOf(tabs, c) < |tabs| <==> Tabs(tabs, c) > 0
  {
    if tabs != [] {
      HasTab(Init(tabs), c);
      assert tabs == Init(tabs) + [Last(tabs)];
      assert (exists t :: t in tabs && t.container == c) <==>
             (Last(tabs).container == c || exists t :: t in Init(tabs) && t.container == c);
    }
  }

  lemma {:induction false} FoundContainer(ws: seq<Window>, c: nat, nextId: nat, nextZ: nat)
    requires Windows(ws, nextId, nextZ)
    ensures match FindContainer(ws, c)
            case None => AllTabs(ws, c) == 0
            case Some(w) => Find(ws, w.id) == Some(w) && IndexOf(w.tabs, c) < |w.tabs| && AllTabs(ws, c) > 0
  {
    if ws != [] {
      FoundContainer(Init(ws), c, nextId, nextZ);
      Found(Init(ws), nextId, nextZ, Last(ws).id);
      HasTab(Last(ws).tabs, c);
    }
  }

  lemma {:induction false} TabsConcat(a: seq<Tab>, b: seq<Tab>, c: nat)
    ensures Tabs(a + b, c) == Tabs(a, c) + Tabs(b, c)
  {
    if b == [] {
      assert a + b == a;
    } else {
      TabsConcat(a, Init(b), c);
      InitMore(a + Init(b), Last(b));
      assert a + b == a + Init(b) + [Last(b)];
    }
  }

  lemma TabsAround(a: seq<Tab>, t: Tab, b: seq<Tab>, c: nat)
    ensures Tabs(a + [t] + b, c) == Tabs(a + b, c) + if t.container == c then 1 else 0
  {
    TabsConcat(a + [t], b, c);
    TabsConcat(a, b, c);
    InitMore(a, t);
  }

  lemma RemainingTabs(tabs: seq<Tab>, i: nat, c: nat)
    requires i < |tabs|
    ensures Tabs(Remaining(tabs, i), c) + (if tabs[i].container == c then 1 else 0) == Tabs(tabs, c)
  {
    assert tabs == tabs[..i] + [tabs[i]] + tabs[i + 1..];
    TabsAround(tabs[..i], tabs[i], tabs[i + 1..], c);
  }

  lemma SearchedTabs(tabs: seq<Tab>, i: int, query: nat, c: nat)
    ensures Tabs(WithSearch(tabs, i, query), c) == Tabs(tabs, c)
  {
    if 0 <= i < |tabs| {
      var a, t, b := tabs[..i], tabs[i].(search := query), tabs[i + 1..];
      assert tabs == a + [tabs[i]] + b && WithSearch(tabs, i, query) == a + [t] + b;
      TabsAround(a, tabs[i], b, c);
      TabsAround(a, t, b, c);
    }
  }

  function OneOf(t: Tab, c: nat): nat { if t.container == c then 1 else 0 }

  /** How many tabs the container has after an action, from those before: only
      opening adds one, to a container without, and only closing takes some. */
  function After(s: State, a: Action, c: nat): int {
    var before := AllTabs(s.windows, c);
    match a
    case Open(d, _) => if d == c && before == 0 then 1 else before
    case CloseWindow(id) =>
      (match Find(s.windows, id)
       case None => before
       case Some(w) => before - Tabs(w.tabs, c))
    case CloseTab(id, index) =>
      (match Find(s.windows, id)
       case None => before
       case Some(w) =>
         if |w.tabs| <= 1 then before - Tabs(w.tabs, c)
         else if 0 <= index < |w.tabs| then before - OneOf(w.tabs[index], c) else before)
    case _ => before
  }

  // --------------------------------------------------------------- each action

  ghost predicate InShape(s: State) {
    Windows(s.windows, s.nextId, s.nextZ)
  }

  ghost predicate Accounted(s: State, a: Action, c: nat) {
    AllTabs(Step(s, a).windows, c) == After(s, a, c)
  }

  /** An action that changes one window, and no tabs of it. */
  lemma OneWindow(ws: seq<Window>, id: nat, f: Window -> Window, nextId: nat, nextZ: nat, top: nat, c: nat)
    requires Windows(ws, nextId, nextZ) && nextZ <= top
    requires Find(ws, id).Some? ==>
               var w := Find(ws, id).value; Replaces(w, f(w), nextId, nextZ, top) && Tabs(f(w).tabs, c) == Tabs(w.tabs, c)
    ensures Windows(UpdateAt(ws, id, f), nextId, top) && AllTabs(UpdateAt(ws, id, f), c) == AllTabs(ws, c)
  {
    Updated(ws, id, f, nextId, nextZ, top);
    if Find(ws, id).Some? {
      UpdatedTabs(ws, id, f, nextId, nextZ, c);
    } else {
      Found(ws, nextId, nextZ, id);
      Absent(ws, id, f);
    }
  }

  lemma FocusKeeps(s: State, id: nat, c: nat)
    requires InShape(s)
    ensures InShape(FocusWindow(s, id)) && AllTabs(FocusWindow(s, id).windows, c) == AllTabs(s.windows, c)
    ensures InShape(RestoreWindow(s, id)) && AllTabs(RestoreWindow(s, id).windows, c) == AllTabs(s.windows, c)
  {
    Found(s.windows, s.nextId, s.nextZ, id);
    OneWindow(s.windows, id, (w: Window) => w.(z := s.nextZ), s.nextId, s.nextZ, s.nextZ + 1, c);
    OneWindow(s.windows, id, (w: Window) => w.(minimized := false, z := s.nextZ), s.nextId, s.nextZ, s.nextZ + 1, c);
  }

  lemma ShapeKeeps(s: State, id: nat, width: real, height: real, index: int, c: nat)
    requires InShape(s)
    ensures InShape(MinimizeWindow(s, id)) && AllTabs(MinimizeWindow(s, id).windows, c) == AllTabs(s.windows, c)
    ensures InShape(ResizeWindow(s, id, width, height))
            && AllTabs(ResizeWindow(s, id, width, height).windows, c) == AllTabs(s.windows, c)
    ensures InShape(SetActiveTab(s, id, index)) && AllTabs(SetActiveTab(s, id, index).windows, c) == AllTabs(s.windows, c)
  {
    Found(s.windows, s.nextId, s.nextZ, id);
    OneWindow(s.windows, id, (w: Window) => w.(minimized := true), s.nextId, s.nextZ, s.nextZ, c);
    OneWindow(s.windows, id, (v: Window) => v.(w := Max(MIN_W, Round(width)), h := Max(MIN_H, Round(height))),
              s.nextId, s.nextZ, s.nextZ, c);
    OneWindow(s.windows, id, (w: Window) => w.(active := Min(Max(0, index), |w.tabs| - 1)), s.nextId, s.nextZ, s.nextZ, c);
  }

  lemma SearchKeeps(s: State, id: nat, index: int, query: nat, c: nat)
    requires InShape(s)
    ensures var t := SetTabSearch(s, id, index, query); InShape(t) && AllTabs(t.windows, c) == AllTabs(s.windows, c)
  {
    Found(s.windows, s.nextId, s.nextZ, id);
    var f := (w: Window) => w.(tabs := WithSearch(w.tabs, index, query));
    if Find(s.windows, id).Some? {
      SearchedTabs(Find(s.windows, id).value.tabs, index, query, c);
    }
    OneWindow(s.windows, id, f, s.nextId, s.nextZ, s.nextZ, c);
  }

  lemma OpenKeeps(s: State, d: nat, title: nat, c: nat)
    requires InShape(s)
    ensures InShape(OpenLogs(s, d, title)) && Accounted(s, Open(d, title), c)
  {
    FoundContainer(s.windows, d, s.nextId, s.nextZ);
    var existing := FindContainer(s.windows, d);
    if existing.Some? {
      var i := IndexOf(existing.value.tabs, d);
      Found(s.windows, s.nextId, s.nextZ, existing.value.id);
      OneWindow(s.windows, existing.value.id, (w: Window) => w.(z := s.nextZ, minimized := false, active := i),
                s.nextId, s.nextZ, s.nextZ + 1, c);
    } else {
      var t := Tab(d, title, 0);
      var w := Window(s.nextId, [t], 0, DEFAULT_W, DEFAULT_H, s.nextZ, false);
      OneTab(t, c);
      AllTabsMore(s.windows, w, c);
      Added(s.windows, w, s.nextId, s.nextZ);
    }
  }

  lemma OneTab(t: Tab, c: nat)
    ensures Tabs([t], c) == OneOf(t, c)
  {
    InitMore([], t);
  }

  lemma CloseKeeps(s: State, id: nat, c: nat)
    requires InShape(s)
    ensures InShape(CloseAll(s, id)) && Accounted(s, CloseWindow(id), c)
  {
    Found(s.windows, s.nextId, s.nextZ, id);
    Removed(s.windows, id, s.nextId, s.nextZ);
    if Find(s.windows, id).Some? {
      RemovedTabs(s.windows, id, s.nextId, s.nextZ, c);
    } else {
      Absent(s.windows, id, x => x);
    }
  }

  lemma AppendTabs(rest: seq<Window>, to: Window, from: Window, nextId: nat, nextZ: nat, c: nat)
    requires Windows(rest, nextId, nextZ) && Find(rest, to.id) == Some(to) && from.tabs != []
    ensures Windows(Appended(rest, to, from, nextZ), nextId, nextZ + 1)
    ensures AllTabs(Appended(rest, to, from, nextZ), c) == AllTabs(rest, c) + Tabs(from.tabs, c)
  {
    var f := (w: Window) => w.(tabs := to.tabs + from.tabs, active := |to.tabs|, z := nextZ, minimized := false);
    Found(rest, nextId, nextZ, to.id);
    Updated(rest, to.id, f, nextId, nextZ, nextZ + 1);
    UpdatedTabs(rest, to.id, f, nextId, nextZ, c);
    TabsConcat(to.tabs, from.tabs, c);
  }

  lemma MergeKeeps(s: State, source: nat, target: nat, c: nat)
    requires InShape(s)
    ensures var t := MergeWindows(s, source, target); InShape(t) && AllTabs(t.windows, c) == AllTabs(s.windows, c)
  {
    var from, to := Find(s.windows, source), Find(s.windows, target);
    if source != target && from.Some? && to.Some? {
      Found(s.windows, s.nextId, s.nextZ, source);
      Found(s.windows, s.nextId, s.nextZ, target);
      Removed(s.windows, source, s.nextId, s.nextZ);
      RemovedTabs(s.windows, source, s.nextId, s.nextZ, c);
      FindOther(s.windows, source, target);
      AppendTabs(Without(s.windows, source), to.value, from.value, s.nextId, s.nextZ, c);
    }
  }

  /** The windows once the tab at `index` is taken out of its window. */
  function Taken(s: State, id: nat, r: seq<Tab>): seq<Window> {
    UpdateAt(s.windows, id, (w: Window) => w.(tabs := r, active := Min(w.active, |r| - 1)))
  }

  lemma TakeTab(s: State, id: nat, r: seq<Tab>, c: nat)
    requires InShape(s) && Find(s.windows, id).Some? && r != []
    ensures var w := Find(s.windows, id).value;
            Windows(Taken(s, id, r), s.nextId, s.nextZ)
            && AllTabs(Taken(s, id, r), c) + Tabs(w.tabs, c) == AllTabs(s.windows, c) + Tabs(r, c)
  {
    var f := (w: Window) => w.(tabs := r, active := Min(w.active, |r| - 1));
    Found(s.windows, s.nextId, s.nextZ, id);
    Updated(s.windows, id, f, s.nextId, s.nextZ, s.nextZ);
    UpdatedTabs(s.windows, id, f, s.nextId, s.nextZ, c);
  }

  lemma DetachKeeps(s: State, id: nat, index: int, c: nat)
    requires InShape(s)
    ensures var t := DetachTab(s, id, index); InShape(t) && AllTabs(t.windows, c) == AllTabs(s.windows, c)
  {
    var win := Find(s.windows, id);
    if win.Some? && |win.value.tabs| > 1 && 0 <= index < |win.value.tabs| {
      var tab, r := win.value.tabs[index], Remaining(win.value.tabs, index);
      var w := Window(s.nextId, [tab], 0, win.value.w, win.value.h, s.nextZ, false);
      Found(s.windows, s.nextId, s.nextZ, id);
      TakeTab(s, id, r, c);
      RemainingTabs(win.value.tabs, index, c);
      OneTab(tab, c);
      AllTabsMore(Taken(s, id, r), w, c);
      Added(Taken(s, id, r), w, s.nextId, s.nextZ);
    }
  }

  lemma CloseTabKeeps(s: State, id: nat, index: int, c: nat)
    requires InShape(s)
    ensures InShape(CloseOne(s, id, index)) && Accounted(s, CloseTab(id, index), c)
  {
    var win := Find(s.windows, id);
    if win.Some? {
      Found(s.windows, s.nextId, s.nextZ, id);
      if |win.value.tabs| <= 1 {
        CloseKeeps(s, id, c);
      } else {
        TakeTab(s, id, Remaining(win.value.tabs, index), c);
        if 0 <= index < |win.value.tabs| {
          RemainingTabs(win.value.tabs, index, c);
        }
      }
    }
  }

  /** Every action keeps the shape of the windows, and changes how many tabs a
      container has only as `After` says: merging and detaching conserve them. */
  lemma ActionKeeps(s: State, a: Action, c: nat)
    requires InShape(s)
    ensures InShape(Step(s, a)) && Accounted(s, a, c)
  {
    match a
    case Focus(id) => FocusKeeps(s, id, c);
    case Restore(id) => FocusKeeps(s, id, c);
    case Open(d, title) => OpenKeeps(s, d, title, c);
    case CloseWindow(id) => CloseKeeps(s, id, c);
    case Resize(id, w, h) => ShapeKeeps(s, id, w, h, 0, c);
    case Minimize(id) => ShapeKeeps(s, id, 0.0, 0.0, 0, c);
    case SetActive(id, index) => ShapeKeeps(s, id, 0.0, 0.0, index, c);
    case SetSearch(id, index, query) => SearchKeeps(s, id, index, query, c);
    case Merge(source, target) => MergeKeeps(s, source, target, c);
    case Detach(id, index) => DetachKeeps(s, id, index, c);
    case CloseTab(id, index) => CloseTabKeeps(s, id, index, c);
  }

  // ------------------------------------------------------------- what is shown

  lemma {:induction false} FindUpdated(ws: seq<Window>, id: nat, f: Window -> Window)
    requires Find(ws, id).Some? && f(Find(ws, id).value).id == id
    ensures Find(UpdateAt(ws, id, f), id) == Some(f(Find(ws, id).value))
  {
    var init, w := Init(ws), Last(ws);
    if Find(init, id).Some? {
      FindUpdated(init, id, f);
    } else {
      NotUpdated(init, id, f);
    }
    InitMore(UpdateAt(init, id, f), if w.id == id then f(w) else w);
  }

  lemma {:induction false} NotUpdated(ws: seq<Window>, id: nat, f: Window -> Window)
    requires Find(ws, id).None?
    ensures Find(UpdateAt(ws, id, f), id).None?
  {
    if ws != [] {
      NotUpdated(Init(ws), id, f);
      InitMore(UpdateAt(Init(ws), id, f), Last(ws));
    }
  }

  /** The window is shown, in front of every other. */
  predicate InFront(w: Window, ws: seq<Window>) {
    w in ws && !w.minimized && forall v :: v in ws && v != w ==> v.z < w.z
  }

  lemma {:induction false} BelowTop(ws: seq<Window>, nextId: nat, nextZ: nat, v: Window)
    requires Windows(ws, nextId, nextZ) && v in ws
    ensures v.z in Zs(ws) && v.z < nextZ
  {
    if v != Last(ws) {
      assert ws == Init(ws) + [Last(ws)];
      BelowTop(Init(ws), nextId, nextZ, v);
    }
  }

  lemma {:induction false} OwnZ(ws: seq<Window>, nextId: nat, nextZ: nat, v: Window, w: Window)
    requires Windows(ws, nextId, nextZ) && v in ws && w in ws && v != w
    ensures v.z != w.z
  {
    var init, last := Init(ws), Last(ws);
    assert ws == init + [last];
    if v == last {
      BelowTop(init, nextId, nextZ, w);
    } else if w == last {
      BelowTop(init, nextId, nextZ, v);
    } else {
      OwnZ(init, nextId, nextZ, v, w);
    }
  }

  lemma {:induction false} FoundIn(ws: seq<Window>, id: nat)
    ensures Find(ws, id).Some? ==> Find(ws, id).value in ws
  {
    if ws != [] {
      assert ws == Init(ws) + [Last(ws)];
      FoundIn(Init(ws), id);
    }
  }

  /** All others are behind the window that was given the last z value. */
  lemma OthersBehind(ws: seq<Window>, id: nat, z: nat, nextId: nat)
    requires Windows(ws, nextId, z + 1) && Find(ws, id).Some?
    requires Find(ws, id).value.z == z && !Find(ws, id).value.minimized
    ensures InFront(Find(ws, id).value, ws)
  {
    var w := Find(ws, id).value;
    FoundIn(ws, id);
    forall v | v in ws && v != w ensures v.z < w.z {
      BelowTop(ws, nextId, z + 1, v);
      OwnZ(ws, nextId, z + 1, v, w);
    }
  }

  /** Opening a container's logs brings a window to the front that shows them. */
  lemma OpenShows(s: State, c: nat, title: nat)
    requires InShape(s)
    ensures var existing, t := FindContainer(s.windows, c), OpenLogs(s, c, title);
            var shown := Find(t.windows, if existing.Some? then existing.value.id else s.nextId);
            shown.Some? && InFront(shown.value, t.windows)
            && 0 <= shown.value.active < |shown.value.tabs| && shown.value.tabs[shown.value.active].container == c
  {
    FoundContainer(s.windows, c, s.nextId, s.nextZ);
    OpenKeeps(s, c, title, c);
    var existing, t := FindContainer(s.windows, c), OpenLogs(s, c, title);
    if existing.Some? {
      var i := IndexOf(existing.value.tabs, c);
      FindUpdated(s.windows, existing.value.id, (w: Window) => w.(z := s.nextZ, minimized := false, active := i));
      OthersBehind(t.windows, existing.value.id, s.nextZ, t.nextId);
    } else {
      var w := Window(s.nextId, [Tab(c, title, 0)], 0, DEFAULT_W, DEFAULT_H, s.nextZ, false);
      Found(s.windows, s.nextId, s.nextZ, s.nextId);
      Below(s.windows, s.nextId, s.nextZ, s.nextId);
      InitMore(s.windows, w);
      OthersBehind(t.windows, s.nextId, s.nextZ, t.nextId);
    }
  }

  lemma AppendShows(rest: seq<Window>, to: Window, from: Window, nextId: nat, nextZ: nat)
    requires Windows(rest, nextId, nextZ) && Find(rest, to.id) == Some(to) && from.tabs != []
    ensures var ws := Appended(rest, to, from, nextZ);
            var shown := Find(ws, to.id);
            shown.Some? && InFront(shown.value, ws) && shown.value.tabs == to.tabs + from.tabs
            && shown.value.active == |to.tabs| && Ids(ws) == Ids(rest)
  {
    var f := (w: Window) => w.(tabs := to.tabs + from.tabs, active := |to.tabs|, z := nextZ, minimized := false);
    Found(rest, nextId, nextZ, to.id);
    FindUpdated(rest, to.id, f);
    Updated(rest, to.id, f, nextId, nextZ, nextZ + 1);
    OthersBehind(UpdateAt(rest, to.id, f), to.id, nextZ, nextId);
  }

  /** Changing one window leaves all others as they are. */
  lemma {:induction false} UpdatedAlone(ws: seq<Window>, id: nat, f: Window -> Window, other: nat)
    requires other != id && forall w: Window :: w.id == id ==> f(w).id == id
    ensures Find(UpdateAt(ws, id, f), other) == Find(ws, other)
  {
    if ws != [] {
      UpdatedAlone(Init(ws), id, f, other);
      InitMore(UpdateAt(Init(ws), id, f), if Last(ws).id == id then f(Last(ws)) else Last(ws));
    }
  }

  /** Only the window `id` differs, and it is now `v`. */
  ghost predicate Became(before: seq<Window>, after: seq<Window>, id: nat, v: Window) {
    Find(after, id) == Some(v) && forall other :: other != id ==> Find(after, other) == Find(before, other)
  }

  lemma Becomes(ws: seq<Window>, id: nat, f: Window -> Window)
    requires Find(ws, id).Some? && forall w: Window :: w.id == id ==> f(w).id == id
    requires Find(ws, id).value.id == id
    ensures Became(ws, UpdateAt(ws, id, f), id, f(Find(ws, id).value))
  {
    FindUpdated(ws, id, f);
    forall other | other != id ensures Find(UpdateAt(ws, id, f), other) == Find(ws, other) {
      UpdatedAlone(ws, id, f, other);
    }
  }

  /** Minimizing hides one window and nothing else; its place in the order stays. */
  lemma MinimizeHides(s: State, id: nat)
    requires InShape(s) && Find(s.windows, id).Some?
    ensures Became(s.windows, MinimizeWindow(s, id).windows, id, Find(s.windows, id).value.(minimized := true))
  {
    Found(s.windows, s.nextId, s.nextZ, id);
    Becomes(s.windows, id, (w: Window) => w.(minimized := true));
  }

  lemma RestoreChanges(s: State, id: nat)
    requires InShape(s) && Find(s.windows, id).Some?
    ensures var v := Find(s.windows, id).value.(minimized := false, z := s.nextZ);
            Became(s.windows, RestoreWindow(s, id).windows, id, v)
  {
    Found(s.windows, s.nextId, s.nextZ, id);
    Becomes(s.windows, id, (w: Window) => w.(minimized := false, z := s.nextZ));
  }

  lemma Frontmost(ws: seq<Window>, id: nat, v: Window, z: nat, nextId: nat)
    requires Windows(ws, nextId, z + 1) && Find(ws, id) == Some(v) && v.z == z && !v.minimized
    ensures InFront(v, ws)
  {
    OthersBehind(ws, id, z, nextId);
  }

  lemma RestoreRaises(s: State, id: nat, v: Window)
    requires InShape(s) && Became(s.windows, RestoreWindow(s, id).windows, id, v) && v.z == s.nextZ && !v.minimized
    ensures InFront(v, RestoreWindow(s, id).windows)
  {
    FocusKeeps(s, id, 0);
    Frontmost(RestoreWindow(s, id).windows, id, v, s.nextZ, s.nextId);
  }

  /** Restoring a window shows it in front of every other, its tabs and size as they
      were. */
  lemma RestoreShows(s: State, id: nat)
    requires InShape(s) && Find(s.windows, id).Some?
    ensures var v, ws := Find(s.windows, id).value.(minimized := false, z := s.nextZ), RestoreWindow(s, id).windows;
            Became(s.windows, ws, id, v) && InFront(v, ws)
  {
    RestoreChanges(s, id);
    RestoreRaises(s, id, Find(s.windows, id).value.(minimized := false, z := s.nextZ));
  }

  /** Focusing a window brings it in front of every other, and changes nothing else. */
  lemma FocusRaises(s: State, id: nat)
    requires InShape(s) && Find(s.windows, id).Some?
    ensures var v, ws := Find(s.windows, id).value.(z := s.nextZ), FocusWindow(s, id).windows;
            Became(s.windows, ws, id, v) && (!v.minimized ==> InFront(v, ws))
  {
    Found(s.windows, s.nextId, s.nextZ, id);
    FocusKeeps(s, id, 0);
    Becomes(s.windows, id, (w: Window) => w.(z := s.nextZ));
    if !Find(s.windows, id).value.minimized {
      OthersBehind(FocusWindow(s, id).windows, id, s.nextZ, s.nextId);
    }
  }

  /** Choosing a tab makes it the active one; a number out of range, the nearest. */
  lemma SetActiveShows(s: State, id: nat, index: int)
    requires InShape(s) && Find(s.windows, id).Some?
    ensures var w := Find(s.windows, id).value;
            var last := |w.tabs| - 1;
            Became(s.windows, SetActiveTab(s, id, index).windows, id,
                   w.(active := if index < 0 then 0 else if index > last then last else index))
  {
    Found(s.windows, s.nextId, s.nextZ, id);
    Becomes(s.windows, id, (w: Window) => w.(active := Min(Max(0, index), |w.tabs| - 1)));
  }

  /** The whole number nearest to a size, but no less than the least size. */
  predicate Fitted(asked: real, least: int, size: int) {
    if size > least then asked - 0.5 < size as real <= asked + 0.5 else size == least && asked < least as real + 0.5
  }

  /** Resizing sets both sides to what was asked for, in whole pixels and no less
      than 280 by 160. */
  lemma ResizeFits(s: State, id: nat, width: real, height: real)
    requires InShape(s) && Find(s.windows, id).Some?
    ensures var ws := ResizeWindow(s, id, width, height).windows;
            && Find(ws, id).Some? && Fitted(width, 280, Find(ws, id).value.w) && Fitted(height, 160, Find(ws, id).value.h)
            && Became(s.windows, ws, id, Find(s.windows, id).value.(w := Find(ws, id).value.w, h := Find(ws, id).value.h))
  {
    Found(s.windows, s.nextId, s.nextZ, id);
    Becomes(s.windows, id, (v: Window) => v.(w := Max(MIN_W, Round(width)), h := Max(MIN_H, Round(height))));
  }

  /** A query is kept with its tab, and with no other. */
  lemma SearchIsKept(s: State, id: nat, index: int, query: nat)
    requires InShape(s) && Find(s.windows, id).Some?
    ensures var w, ws := Find(s.windows, id).value, SetTabSearch(s, id, index, query).windows;
            && Find(ws, id).Some? && Became(s.windows, ws, id, w.(tabs := Find(ws, id).value.tabs))
            && var tabs := Find(ws, id).value.tabs;
            && |tabs| == |w.tabs|
            && forall i :: 0 <= i < |tabs| ==>
                 tabs[i] == if i == index then Tab(w.tabs[i].container, w.tabs[i].title, query) else w.tabs[i]
  {
    Found(s.windows, s.nextId, s.nextZ, id);
    Becomes(s.windows, id, (w: Window) => w.(tabs := WithSearch(w.tabs, index, query)));
  }

  /** The two windows that detaching leaves. */
  lemma DetachChanges(s: State, id: nat, index: int)
    requires InShape(s) && Find(s.windows, id).Some?
    requires |Find(s.windows, id).value.tabs| > 1 && 0 <= index < |Find(s.windows, id).value.tabs|
    ensures var w, ws := Find(s.windows, id).value, DetachTab(s, id, index).windows;
            && Find(ws, s.nextId) == Some(Window(s.nextId, [w.tabs[index]], 0, w.w, w.h, s.nextZ, false))
            && Find(ws, id).Some? && Find(ws, id).value.tabs == w.tabs[..index] + w.tabs[index + 1..]
  {
    var w := Find(s.windows, id).value;
    var r := Remaining(w.tabs, index);
    Found(s.windows, s.nextId, s.nextZ, id);
    Found(s.windows, s.nextId, s.nextZ, s.nextId);
    Below(s.windows, s.nextId, s.nextZ, s.nextId);
    AddedFound(s.windows, id, (v: Window) => v.(tabs := r, active := Min(v.active, |r| - 1)),
               Window(s.nextId, [w.tabs[index]], 0, w.w, w.h, s.nextZ, false));
  }

  /** A detached tab is the only one of a new window in front, as large as the one
      it comes from, which keeps its other tabs in order. */
  lemma DetachShows(s: State, id: nat, index: int)
    requires InShape(s) && Find(s.windows, id).Some?
    requires |Find(s.windows, id).value.tabs| > 1 && 0 <= index < |Find(s.windows, id).value.tabs|
    ensures var w, ws := Find(s.windows, id).value, DetachTab(s, id, index).windows;
            var shown := Find(ws, s.nextId);
            && shown.Some? && InFront(shown.value, ws) && shown.value.tabs == [w.tabs[index]]
            && shown.value.w == w.w && shown.value.h == w.h
            && Find(ws, id).Some? && Find(ws, id).value.tabs == w.tabs[..index] + w.tabs[index + 1..]
  {
    var w, t := Find(s.windows, id).value, DetachTab(s, id, index);
    DetachChanges(s, id, index);
    DetachKeeps(s, id, index, 0);
    Frontmost(t.windows, s.nextId, Window(s.nextId, [w.tabs[index]], 0, w.w, w.h, s.nextZ, false), s.nextZ, t.nextId);
  }

  lemma AddedFound(ws: seq<Window>, id: nat, f: Window -> Window, more: Window)
    requires Find(ws, id).Some? && Find(ws, id).value.id == id && Find(ws, more.id).None?
    requires forall w: Window :: w.id == id ==> f(w).id == id
    ensures var after := UpdateAt(ws, id, f) + [more];
            Find(after, id) == Some(f(Find(ws, id).value)) && Find(after, more.id) == Some(more)
  {
    FindUpdated(ws, id, f);
    UpdatedAlone(ws, id, f, more.id);
    InitMore(UpdateAt(ws, id, f), more);
  }

  /** Merging shows the first tab moved, behind the target's own tabs, and the
      source is gone. */
  lemma MergeShows(s: State, source: nat, target: nat)
    requires InShape(s) && source != target && Find(s.windows, source).Some? && Find(s.windows, target).Some?
    ensures var t, from, to := MergeWindows(s, source, target), Find(s.windows, source).value, Find(s.windows, target).value;
            var shown := Find(t.windows, target);
            shown.Some? && InFront(shown.value, t.windows) && shown.value.tabs == to.tabs + from.tabs
            && shown.value.active == |to.tabs| && source !in Ids(t.windows)
  {
    var from, to := Find(s.windows, source).value, Find(s.windows, target).value;
    var rest := Without(s.windows, source);
    Found(s.windows, s.nextId, s.nextZ, source);
    Found(s.windows, s.nextId, s.nextZ, target);
    FindOther(s.windows, source, target);
    Removed(s.windows, source, s.nextId, s.nextZ);
    NotLeft(s.windows, source);
    AppendShows(rest, to, from, s.nextId, s.nextZ);
  }

  lemma {:induction false} NotLeft(ws: seq<Window>, id: nat)
    ensures id !in Ids(Without(ws, id))
  {
    if ws != [] {
      NotLeft(Init(ws), id);
      if Last(ws).id != id {
        InitMore(Without(Init(ws), id), Last(ws));
      }
    }
  }

  /** In every run each container has at most one tab, IDs and z values are
      distinct and below their counters, and every window has a tab, an active
      tab in range and at least the least size. */
  lemma {:induction false} RunKeeps(actions: seq<Action>, c: nat)
    ensures InShape(Run(actions)) && AllTabs(Run(actions).windows, c) <= 1
  {
    if actions != [] {
      RunKeeps(Init(actions), c);
      ActionKeeps(Run(Init(actions)), Last(actions), c);
    }
  }
}
