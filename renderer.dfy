/** The renderer's list logic: the bounded log feed, drag-and-drop
    reordering, the start-all sequence, kill-all and the settings form. */
module Renderer {
  import opened Wrappers
  import opened AppModel
  import opened Catalog
  import Supervision

  // ---------------------------------------------------------------- log feed

  const MAX_LOGS: nat := 100

  /** The `setLogs` updater of `addLog`. */
  function AddLog(logs: seq<string>, msg: string): (r: seq<string>)
    ensures |r| > 0 && r[|r| - 1] == msg
    ensures |logs| < MAX_LOGS ==> r == logs + [msg]
    ensures |logs| >= MAX_LOGS ==> |r| == MAX_LOGS && r[..|r| - 1] == logs[|logs| - MAX_LOGS + 1..]
    ensures |logs| <= MAX_LOGS ==> |r| <= MAX_LOGS
  {
    var newLogs := logs + [msg];
    if |newLogs| > MAX_LOGS then newLogs[|newLogs| - MAX_LOGS..] else newLogs
  }

  /** The last `n` entries of `s` (all of them when there are fewer). */
  function Recent(s: seq<string>, n: nat): (r: seq<string>)
    ensures |r| <= n && |r| <= |s|
  {
    if |s| <= n then s else s[|s| - n..]
  }

  /** `addLog` called with each message of `msgs` in turn. */
  function AddLogs(logs: seq<string>, msgs: seq<string>): seq<string>
    decreases |msgs|
  {
    if msgs == [] then logs else AddLogs(AddLog(logs, msgs[0]), msgs[1..])
  }

  /** However many messages arrive, the feed shows the most recent 100 of
      everything logged, oldest first. */
  lemma {:induction false} AddLogsKeepsRecent(history: seq<string>, msgs: seq<string>)
    ensures AddLogs(Recent(history, MAX_LOGS), msgs) == Recent(history + msgs, MAX_LOGS)
    decreases |msgs|
  {
    if msgs == [] {
      assert history + msgs == history;
    } else {
      var h := history + [msgs[0]];
      assert AddLog(Recent(history, MAX_LOGS), msgs[0]) == Recent(h, MAX_LOGS);
      AddLogsKeepsRecent(h, msgs[1..]);
      assert h + msgs[1..] == history + msgs;
    }
  }

  // ------------------------------------------------------------ drag and drop

  /** `items.findIndex(item => item.name === id)`: the first match, or -1. */
  function FindIndex(items: seq<AppData>, id: string): (i: int)
    ensures -1 <= i < |items|
    ensures i >= 0 ==> items[i].name == id && forall j :: 0 <= j < i ==> items[j].name != id
    ensures i == -1 <==> id !in Names(items)
    decreases |items|
  {
    if items == [] then -1
    else if items[0].name == id then 0
    else
      var j := FindIndex(items[1..], id);
      assert Names(items[1..]) == Names(items)[1..];
      if j == -1 then -1 else j + 1
  }

  /** `s` without its element at `i`. */
  function RemoveAt<T>(s: seq<T>, i: nat): seq<T>
    requires i < |s|
  {
    s[..i] + s[i + 1..]
  }

  /** dnd-kit's `arrayMove(items, from, to)`: take the element at `from` out
      and insert it so that it ends up at index `to`. */
  function ArrayMove<T>(s: seq<T>, from: nat, to: nat): (r: seq<T>)
    requires from < |s| && to < |s|
    ensures |r| == |s|
    ensures r[to] == s[from]
    ensures RemoveAt(r, to) == RemoveAt(s, from)
  {
    var rest := RemoveAt(s, from);
    var r := rest[..to] + [s[from]] + rest[to..];
    assert r[..to] == rest[..to] && r[to + 1..] == rest[to..];
    r
  }

  /** Moving an element permutes the sequence. */
  lemma ArrayMovePermutes<T>(s: seq<T>, from: nat, to: nat)
    requires from < |s| && to < |s|
    ensures multiset(ArrayMove(s, from, to)) == multiset(s)
  {
    var rest := RemoveAt(s, from);
    assert ArrayMove(s, from, to) == rest[..to] + [s[from]] + rest[to..];
    assert multiset(ArrayMove(s, from, to)) == multiset(rest[..to]) + multiset{s[from]} + multiset(rest[to..]);
    assert rest == rest[..to] + rest[to..];
    assert multiset(rest) == multiset(rest[..to]) + multiset(rest[to..]);
    assert multiset(rest) == multiset(s[..from]) + multiset(s[from + 1..]);
    assert s == s[..from] + [s[from]] + s[from + 1..];
    assert multiset(s) == multiset(s[..from]) + multiset{s[from]} + multiset(s[from + 1..]);
    assert multiset(ArrayMove(s, from, to)) == multiset(rest) + multiset{s[from]};
    assert multiset(s) == multiset(rest) + multiset{s[from]};
  }

  /** Index by index: moving forward shifts the elements in between one place
      back, moving backward shifts them one place forward, and the rest stay. */
  lemma ArrayMoveAt<T>(s: seq<T>, from: nat, to: nat, i: nat)
    requires from < |s| && to < |s| && i < |s|
    ensures var r := ArrayMove(s, from, to);
      && (i == to ==> r[i] == s[from])
      && (i < from && i < to ==> r[i] == s[i])
      && (i > from && i > to ==> r[i] == s[i])
      && (from <= i < to ==> r[i] == s[i + 1])
      && (to < i <= from ==> r[i] == s[i - 1])
  {
  }

  /** `newOrder.map((app, idx) => ({ ...app, order: idx + 1 }))` */
  function Renumber(apps: seq<AppData>): (r: seq<AppData>)
    ensures |r| == |apps|
    ensures forall i :: 0 <= i < |apps| ==> r[i] == apps[i].(order := Some(i + 1))
  {
    seq(|apps|, i requires 0 <= i < |apps| => apps[i].(order := Some(i + 1)))
  }

  /** A renumbered list is in strictly increasing order from 1, so sorting it
      by order (as start-all and the next scan do) leaves it as it is. */
  lemma RenumberedIsSorted(apps: seq<AppData>)
    ensures Names(Renumber(apps)) == Names(apps)
    ensures Sorted(Renumber(apps))
    ensures SortByOrder(Renumber(apps)) == Renumber(apps)
  {
    var r := Renumber(apps);
    assert Sorted(r) by {
      forall i, j | 0 <= i < j < |r|
        ensures OrderKey(r[i]) <= OrderKey(r[j])
      {
        assert OrderKey(r[i]) == i + 1 && OrderKey(r[j]) == j + 1;
      }
    }
    SortSortedIsIdentity(r);
  }

  /** What a drop changes: the new list, the names sent to `save-app-orders`
      (none when the list is left alone) and the reset `activeId`. */
  datatype DragOutcome = DragOutcome(apps: seq<AppData>, savedOrder: Option<seq<string>>, activeId: Option<string>)

  /** `handleDragEnd` for a drag of the card `activeId` dropped over `overId`;
      both are names of cards on the board. */
  function DragEnd(apps: seq<AppData>, activeId: string, overId: string): (d: DragOutcome)
    requires activeId in Names(apps) && overId in Names(apps)
    ensures d.activeId == None
    ensures activeId == overId ==> d.apps == apps && d.savedOrder == None
    ensures activeId != overId ==>
      && d.apps == Renumber(ArrayMove(apps, FindIndex(apps, activeId), FindIndex(apps, overId)))
      && d.savedOrder == Some(Names(d.apps))
      && (forall i :: 0 <= i < |d.apps| ==> d.apps[i].order == Some(i + 1))
  {
    if activeId != overId then
      var newOrder := ArrayMove(apps, FindIndex(apps, activeId), FindIndex(apps, overId));
      RenumberedIsSorted(newOrder);
      DragOutcome(Renumber(newOrder), Some(Names(newOrder)), None)
    else
      DragOutcome(apps, None, None)
  }

  /** The apps with their `order` cleared: everything a renumbering leaves alone. */
  function Unnumbered(apps: seq<AppData>): (r: seq<AppData>)
    ensures |r| == |apps|
    ensures forall i :: 0 <= i < |apps| ==> r[i] == apps[i].(order := None)
  {
    seq(|apps|, i requires 0 <= i < |apps| => apps[i].(order := None))
  }

  /** Renumbering changes nothing but the `order` fields. */
  lemma UnnumberedRenumber(apps: seq<AppData>)
    ensures Unnumbered(Renumber(apps)) == Unnumbered(apps)
  {
  }

  /** Clearing the orders and moving an app can be done in either order. */
  lemma UnnumberedMove(apps: seq<AppData>, from: nat, to: nat)
    requires from < |apps| && to < |apps|
    ensures Unnumbered(ArrayMove(apps, from, to)) == ArrayMove(Unnumbered(apps), from, to)
  {
    var u := Unnumbered(apps);
    forall i | 0 <= i < |apps|
      ensures Unnumbered(ArrayMove(apps, from, to))[i] == ArrayMove(u, from, to)[i]
    {
      ArrayMoveAt(apps, from, to, i);
      ArrayMoveAt(u, from, to, i);
    }
  }

  /** Taking the names and moving an app can be done in either order. */
  lemma NamesMove(apps: seq<AppData>, from: nat, to: nat)
    requires from < |apps| && to < |apps|
    ensures Names(ArrayMove(apps, from, to)) == ArrayMove(Names(apps), from, to)
  {
    var n := Names(apps);
    forall i | 0 <= i < |apps|
      ensures Names(ArrayMove(apps, from, to))[i] == ArrayMove(n, from, to)[i]
    {
      ArrayMoveAt(apps, from, to, i);
      ArrayMoveAt(n, from, to, i);
    }
  }

  /** A drop onto another card is a move: apart from the new `order` numbers,
      the board holds the same app records; the dragged one lands at the
      target's index, and the others keep their relative order. */
  lemma DragEndMoves(apps: seq<AppData>, activeId: string, overId: string)
    requires activeId in Names(apps) && overId in Names(apps) && activeId != overId
    ensures var d := DragEnd(apps, activeId, overId);
      var from, to := FindIndex(apps, activeId), FindIndex(apps, overId);
      && 0 <= from < |apps| && 0 <= to < |apps|
      && d.apps[to] == apps[from].(order := Some(to + 1))
      && multiset(Unnumbered(d.apps)) == multiset(Unnumbered(apps))
      && RemoveAt(Unnumbered(d.apps), to) == RemoveAt(Unnumbered(apps), from)
      && multiset(Names(d.apps)) == multiset(Names(apps))
      && RemoveAt(Names(d.apps), to) == RemoveAt(Names(apps), from)
  {
    var from, to := FindIndex(apps, activeId), FindIndex(apps, overId);
    var moved := ArrayMove(apps, from, to);
    var d := DragEnd(apps, activeId, overId);
    UnnumberedRenumber(moved);
    UnnumberedMove(apps, from, to);
    ArrayMovePermutes(Unnumbered(apps), from, to);
    RenumberedIsSorted(moved);
    NamesMove(apps, from, to);
    ArrayMovePermutes(Names(apps), from, to);
  }

  /** After a drop and its `save-app-orders`, the stored order of every app
      on the board equals the order the renderer shows for it. */
  lemma DragEndPersistsOrder(apps: seq<AppData>, activeId: string, overId: string, m: map<string, Settings>, i: nat)
    requires activeId in Names(apps) && overId in Names(apps) && activeId != overId
    requires forall x, y :: 0 <= x < y < |apps| ==> apps[x].name != apps[y].name
    requires i < |apps|
    ensures var d := DragEnd(apps, activeId, overId);
      && d.apps[i].name in Supervision.Reordered(m, d.savedOrder.value)
      && Supervision.Reordered(m, d.savedOrder.value)[d.apps[i].name].order == d.apps[i].order
  {
    var d := DragEnd(apps, activeId, overId);
    DragEndMoves(apps, activeId, overId);
    var names := d.savedOrder.value;
    assert names[i] !in names[i + 1..] by {
      var from, to := FindIndex(apps, activeId), FindIndex(apps, overId);
      forall j | i < j < |names|
        ensures names[j] != names[i]
      {
        // distinct names stay distinct under a move
        ArrayMoveDistinct(apps, from, to, i, j);
      }
    }
    Supervision.ReorderedOrder(m, names, i);
  }

  /** A move maps distinct positions to distinct source positions. */
  lemma ArrayMoveDistinct(apps: seq<AppData>, from: nat, to: nat, i: nat, j: nat)
    requires from < |apps| && to < |apps| && i < j < |apps|
    requires forall x, y :: 0 <= x < y < |apps| ==> apps[x].name != apps[y].name
    ensures ArrayMove(apps, from, to)[i].name != ArrayMove(apps, from, to)[j].name
  {
    ArrayMoveAt(apps, from, to, i);
    ArrayMoveAt(apps, from, to, j);
  }

  // ----------------------------------------------------------- start and kill

  /** One step of the start-all sequence: a launch request or a wait in milliseconds. */
  datatype StartAction = Launch(path: string) | Wait(ms: nat)

  /** `app.launchDelay && app.launchDelay > 0`, with the delay it waits. */
  function WaitAfter(a: AppData): (w: Option<nat>)
    ensures w.Some? <==> a.launchDelay.Some? && a.launchDelay.value > 0
    ensures w.Some? ==> w.value == a.launchDelay.value * 1000
  {
    if a.launchDelay.Some? && a.launchDelay.value > 0 then Some(a.launchDelay.value * 1000) else None
  }

  /** The actions one app contributes: its launch, then its wait if it has one. */
  function Step(a: AppData): seq<StartAction> {
    [Launch(a.path)] + (if WaitAfter(a).Some? then [Wait(WaitAfter(a).value)] else [])
  }

  /** The actions of a sequence of launches from the first app to the last. */
  function StartSequence(apps: seq<AppData>): seq<StartAction>
    decreases |apps|
  {
    if apps == [] then [] else StartSequence(apps[..|apps| - 1]) + Step(apps[|apps| - 1])
  }

  /** `handleStartAll`: a sorted copy of `apps` launched one after another. */
  method StartAll(apps: seq<AppData>) returns (actions: seq<StartAction>)
    ensures actions == StartSequence(SortByOrder(apps))
  {
    var sortedApps := SortByOrder(apps);
    actions := [];
    for i := 0 to |sortedApps|
      invariant actions == StartSequence(sortedApps[..i])
    {
      var app := sortedApps[i];
      actions := actions + [Launch(app.path)];
      if app.launchDelay.Some? && app.launchDelay.value > 0 {
        actions := actions + [Wait(app.launchDelay.value * 1000)];
      }
      assert sortedApps[..i + 1][..i] == sortedApps[..i];
    }
    assert sortedApps[..|sortedApps|] == sortedApps;
  }

  /** The paths launched by a sequence of actions, in order. */
  function Launches(actions: seq<StartAction>): seq<string>
    decreases |actions|
  {
    if actions == [] then []
    else (if actions[0].Launch? then [actions[0].path] else []) + Launches(actions[1..])
  }

  lemma {:induction false} LaunchesConcat(a: seq<StartAction>, b: seq<StartAction>)
    ensures Launches(a + b) == Launches(a) + Launches(b)
    decreases |a|
  {
    if a == [] {
      assert a + b == b;
    } else {
      assert (a + b)[1..] == a[1..] + b;
      LaunchesConcat(a[1..], b);
    }
  }

  /** The sequence launches each app once, in list order. */
  lemma {:induction false} StartSequenceLaunches(apps: seq<AppData>)
    ensures Launches(StartSequence(apps)) == Paths(apps)
    decreases |apps|
  {
    if apps != [] {
      var init := apps[..|apps| - 1];
      StartSequenceLaunches(init);
      LaunchesConcat(StartSequence(init), Step(apps[|apps| - 1]));
      var last := apps[|apps| - 1];
      assert Launches(Step(last)) == [last.path] by {
        var tail := if WaitAfter(last).Some? then [Wait(WaitAfter(last).value)] else [];
        assert Launches(tail) == [] by {
          if tail != [] {
            assert tail[1..] == [];
          }
        }
        assert [Launch(last.path)][1..] == [];
        LaunchesConcat([Launch(last.path)], tail);
      }
      assert Paths(apps) == Paths(init) + [last.path];
    }
  }

  lemma {:induction false} StartSequenceConcat(a: seq<AppData>, b: seq<AppData>)
    ensures StartSequence(a + b) == StartSequence(a) + StartSequence(b)
    decreases |b|
  {
    if b == [] {
      assert a + b == a;
    } else {
      var init := b[..|b| - 1];
      assert (a + b)[..|a + b| - 1] == a + init;
      StartSequenceConcat(a, init);
    }
  }

  /** Where app `i` of the list is launched within the sequence. */
  function LaunchPosition(apps: seq<AppData>, i: nat): nat
    requires i <= |apps|
  {
    |StartSequence(apps[..i])|
  }

  /** App `i`'s launch is at its position, and the action right after it is a
      wait of `launchDelay` seconds exactly when its `launchDelay` is positive. */
  lemma StartSequenceWaits(apps: seq<AppData>, i: nat)
    requires i < |apps|
    ensures var actions, p := StartSequence(apps), LaunchPosition(apps, i);
      && p < |actions| && actions[p] == Launch(apps[i].path)
      && (apps[i].launchDelay.Some? && apps[i].launchDelay.value > 0 <==> p + 1 < |actions| && actions[p + 1].Wait?)
      && (p + 1 < |actions| && actions[p + 1].Wait? ==> actions[p + 1].ms == apps[i].launchDelay.value * 1000)
  {
    var pre, post := apps[..i], apps[i + 1..];
    assert apps == pre + [apps[i]] + post;
    StartSequenceConcat(pre + [apps[i]], post);
    StartSequenceConcat(pre, [apps[i]]);
    assert StartSequence([apps[i]]) == Step(apps[i]) by {
      assert [apps[i]][..0] == [];
    }
    if post != [] {
      assert post == [post[0]] + post[1..];
      StartSequenceConcat([post[0]], post[1..]);
      assert StartSequence([post[0]]) == Step(post[0]) by {
        assert [post[0]][..0] == [];
      }
    }
  }

  /** Start-all launches every app exactly once, in ascending `order || 0`
      with ties in list order. */
  lemma StartAllLaunchesEachOnce(apps: seq<AppData>)
    ensures var launched := Launches(StartSequence(SortByOrder(apps)));
      && launched == Paths(SortByOrder(apps))
      && multiset(launched) == multiset(Paths(apps))
  {
    var sorted := SortByOrder(apps);
    StartSequenceLaunches(sorted);
    PathsMultiset(sorted, apps);
  }

  lemma PathsConcat(u: seq<AppData>, v: seq<AppData>)
    ensures Paths(u + v) == Paths(u) + Paths(v)
  {
  }

  /** Rearranging apps rearranges their paths. */
  lemma {:induction false} PathsMultiset(a: seq<AppData>, b: seq<AppData>)
    requires multiset(a) == multiset(b)
    ensures multiset(Paths(a)) == multiset(Paths(b))
    decreases |a|
  {
    if a == [] {
      assert b == [];
    } else {
      var x := a[0];
      assert x in multiset(b);
      var j :| 0 <= j < |b| && b[j] == x;
      var u, v := b[..j], b[j + 1..];
      assert b == u + ([x] + v);
      assert a == [x] + a[1..];
      assert multiset(a[1..]) == multiset(u + v) by {
        assert multiset(a[1..]) == multiset(a) - multiset{x};
        assert multiset(b) == multiset(u) + multiset{x} + multiset(v);
        assert multiset(u + v) == multiset(b) - multiset{x};
      }
      PathsMultiset(a[1..], u + v);
      PathsConcat([x], a[1..]);
      PathsConcat(u, [x] + v);
      PathsConcat([x], v);
      PathsConcat(u, v);
    }
  }

  /** `handleKillAll`: one kill request per app, in list order. */
  method KillAll(apps: seq<AppData>) returns (requests: seq<string>)
    ensures requests == Paths(apps)
  {
    requests := [];
    for i := 0 to |apps|
      invariant requests == Paths(apps[..i])
    {
      requests := requests + [apps[i].path];
    }
    assert apps[..|apps|] == apps;
  }

  // ------------------------------------------------------------ settings form

  /** The four inputs of the settings dialog. */
  datatype Form = Form(processName: string, autoRestart: bool, order: int, launchDelay: int)

  /** The dialog's state: the app being edited (if any) and the form. */
  datatype Editor = Editor(editing: Option<AppData>, form: Form)

  /** `openSettings`: edit `app`, filling absent fields with '', false, 0 and 0. */
  function OpenSettings(app: AppData): (e: Editor)
    ensures e.editing == Some(app)
    ensures app.processName.Some? ==> e.form.processName == app.processName.value
    ensures app.processName.None? ==> e.form.processName == ""
    ensures app.autoRestart.Some? ==> e.form.autoRestart == app.autoRestart.value
    ensures app.autoRestart.None? ==> !e.form.autoRestart
    ensures app.order.Some? ==> e.form.order == app.order.value
    ensures app.order.None? ==> e.form.order == 0
    ensures app.launchDelay.Some? ==> e.form.launchDelay == app.launchDelay.value
    ensures app.launchDelay.None? ==> e.form.launchDelay == 0
  {
    Editor(Some(app), Form(app.processName.GetOr(""), app.autoRestart.GetOr(false),
                           app.order.GetOr(0), app.launchDelay.GetOr(0)))
  }

  /** The record `saveSettings` sends to `update-app-settings`, or `None` when
      no app is being edited and nothing is sent. */
  function SaveSettings(e: Editor): (sent: Option<AppData>)
    ensures e.editing.None? <==> sent.None?
    ensures sent.Some? ==>
      && sent.value.(processName := None, autoRestart := None, order := None, launchDelay := None)
         == e.editing.value.(processName := None, autoRestart := None, order := None, launchDelay := None)
      && SettingsRecord(sent.value) == Settings(Some(e.form.processName), Some(e.form.autoRestart), Some(e.form.order), Some(e.form.launchDelay))
  {
    match e.editing
    case None => None
    case Some(app) =>
      Some(app.(processName := Some(e.form.processName), autoRestart := Some(e.form.autoRestart),
                order := Some(e.form.order), launchDelay := Some(e.form.launchDelay)))
  }

  /** Opening the dialog and saving it untouched sends the app back unchanged
      when all four fields were present. */
  lemma OpenThenSave(app: AppData)
    requires app.processName.Some? && app.autoRestart.Some? && app.order.Some? && app.launchDelay.Some?
    ensures SaveSettings(OpenSettings(app)) == Some(app)
  {
  }
}
