# VR Launch Manager — a Dafny model of its launch and catalog logic

VR Launch Manager is an Electron desktop app. It lists the shortcuts and
executables in a "VR app launcher" folder, launches them on request, resolves
`.lnk` shortcuts to their `.exe` targets, and tracks the children it spawns.
It restarts a crashed app once when auto-restart is on, and kills an app by
its tracked pid and/or a configured process name. Its React renderer keeps a
bounded log feed, lets the user reorder the app cards by drag and drop, starts
all apps in order with per-app delays, and edits per-app settings in a dialog.

This project models those two pieces of sequential logic:

- `electron/main.ts`: `scanApps`, plus the `update-app-settings`,
  `save-app-orders`, `launch-app` (with its exit observer and restart timer)
  and `kill-app` handlers.
- `src/App.tsx`: `addLog`, `handleDragEnd`, `updateAppOrder`'s name list,
  `handleStartAll`, `handleKillAll`, `openSettings` and the record
  `saveSettings` sends.

Modules:

- `Wrappers` (`wrappers.dfy`): `Option`, for the source's optional fields.
- `Text` (`text.dfy`): suffix tests, ASCII lower-casing, the extension
  pattern `/\.(lnk|exe|url)$/`, and Windows `path.join` / `path.basename` /
  `path.extname` as the launcher uses them.
- `AppModel` (`appmodel.dfy`): the `AppData` record, shared by both sides (the
  source's `type` field is called `kind`). Also the stable sort by
  `order || 0`. It is proved sorted, a permutation, and order-preserving for
  equal keys, and proved to be the only sequence with those properties.
- `Catalog` (`catalog.dfy`): the settings record, the `|| {}` lookup, and
  `scanApps` as a pure filter / map / sort over a directory listing.
- `Supervision` (`supervisor.dfy`): class `Supervisor`.
  - Its fields are `running` (`runningProcesses`) and `settings`
    (`appSettings`).
  - It also holds the exit observers not yet fired, the pending restart
    timers, and the `app-status-change` messages sent so far.
  - Each IPC handler is a method. Operating-system effects are parameters or
    returned values: the shortcut target (`None` when reading the shortcut
    throws), the pid a spawn yields, exit codes, the timer firing, and what
    was spawned, opened or killed.
- `Renderer` (`renderer.dfy`): the App.tsx helpers as functions on values.
  `handleStartAll` and `handleKillAll` are methods whose loops emit action
  lists.

Two consequences of the code are worth stating:

- A restarted child gets no exit observer (`electron/main.ts:181-188`). A
  crashing app is therefore restarted at most once per launch.
- The restarted entry is never removed by its own exit. The path then stays
  "already running" until the main process restarts (see
  `RestartedAppStaysTracked`). It can still be removed by the observer of
  another child on the same path. This happens when the path was launched
  again during the 3-second delay, because each observer deletes whatever
  entry the path has.

## Model

| member | source | states |
|---|---|---|
| `Text.StripAppExt` | electron/main.ts:75 | For a name with one of the three extensions, the result plus the last four characters is the name; any other name is unchanged. |
| `Text.Basename` | electron/main.ts:144 | The result is a suffix of the path and contains no separator. |
| `Text.BasenameAfterLastSeparator` | electron/main.ts:144 | The basename is the whole path, or the character just before it is a separator, so it is everything after the last separator. |
| `Text.BasenameUnique` | electron/main.ts:144-145 | The basename is a last segment of the path (separator-free, and either the whole path or right after a separator), and any last segment equals it. |
| `Text.LastSegmentUnique` | electron/main.ts:144 | A path has only one last segment. |
| `Text.FileType` | electron/main.ts:80 | For a name with one of the three extensions, `path.extname` is empty when the name is only the extension. Otherwise it is the last four characters: they start with a dot, and no later character is a dot. |
| `Text.BasenameOfJoin` | electron/main.ts:79 | Taking the basename of `folder` joined with a separator-free file name gives back that file name. |
| `AppModel.Insert` | electron/main.ts:87 | Inserting into a sorted list gives a sorted list with one more copy of `x`; `x` comes before the apps with an equal key. |
| `AppModel.SortByOrder` | electron/main.ts:87 | The result is sorted ascending by `order \|\| 0` and is a permutation of the input. Apps with equal keys keep their input order, so the sort is stable. |
| `AppModel.SortedUnique` | electron/main.ts:87 | Two sorted lists that keep equal keys in the same relative order are equal. |
| `AppModel.StableSortIsSortByOrder` | electron/main.ts:87 | Any sorted, stable rearrangement of a list equals `SortByOrder` of it, whatever stable sort the runtime uses. |
| `AppModel.SortSortedIsIdentity` | src/App.tsx:224 | Sorting a list already in key order leaves it unchanged. |
| `AppModel.Names` | src/App.tsx:200 | The name list has one entry per app, in the same order. |
| `Catalog.Lookup` | electron/main.ts:76 | The settings of a name are its stored entry, or the empty record `{}` when the map has none. |
| `Catalog.AutoRestartOn` | electron/main.ts:179 | `settings.autoRestart` is truthy only for `true`; an absent or `false` flag is off. |
| `Catalog.HasProcessName` | electron/main.ts:223 | A process name counts only when present and non-empty. |
| `Catalog.SettingsRecord` | electron/main.ts:114-119 | The stored record holds exactly the app's `processName`, `autoRestart`, `order` and `launchDelay`. |
| `Catalog.Filtered` | electron/main.ts:73 | Every kept entry has one of the case-sensitive extensions `.lnk`, `.exe`, `.url`. |
| `Catalog.FilteredOne` | electron/main.ts:73 | A one-entry listing is kept iff the entry has one of the three extensions. |
| `Catalog.FilteredConcat` | electron/main.ts:73-74 | Filtering two parts of a listing and joining the results equals filtering the whole listing. Kept entries therefore keep their listing order, which fixes each entry's `index`. |
| `Catalog.FilteredCounts` | electron/main.ts:73 | An entry with one of the extensions is kept exactly as often as the listing holds it; any other entry is dropped. |
| `Catalog.MakeEntry` | electron/main.ts:74-85 | `name` is the file name without its extension, `path` is folder + file, and `kind` is `path.extname` of the file (empty when the name is only the extension, else the last four characters). The settings' `processName` and `autoRestart` are copied. `order` is the settings value if present, else index + 1. `launchDelay` is the settings value, or 0. |
| `Catalog.Entries` | electron/main.ts:74 | The i-th entry is built from the i-th filtered file with index i. |
| `Catalog.ScanApps` | electron/main.ts:69-89 | The result has one app per filtered file and is a permutation of the built entries. It is sorted by `order \|\| 0`, and entries with equal order keep their listing order. |
| `Catalog.ScanAppsMembers` | electron/main.ts:72-86 | An app is in the result iff it is the entry built from some filtered file at that file's index. |
| `Catalog.ScannedNameIsLaunchName` | electron/main.ts:144-146 | The name that launch and kill derive from a scanned path is the name the scan gave that app. |
| `Catalog.ScanExample` | electron/main.ts:72-87 | Listing `Foo.exe`, `Bar.lnk`, `notes.txt` with `Foo.order = 2` gives `[Foo, Bar]`, both with order 2. `Bar`'s default (index + 1) ties with `Foo`'s setting, and the tie keeps listing order. |
| `Catalog.ExampleFiltered` | electron/main.ts:73 | The example listing filters to `Foo.exe`, `Bar.lnk`. |
| `Catalog.ExampleListed` | electron/main.ts:72-86 | Before sorting, the example gives `Foo` then `Bar`, both with order 2, with `Bar`'s path the folder joined with `Bar.lnk`. |
| `Catalog.TieIsKept` | electron/main.ts:87 | Two apps with equal `order` are left in their order by the sort. |
| `Catalog.ExampleEntry` | electron/main.ts:75-83 | In the example, `Foo` takes order 2 from its settings and `Bar` takes its index + 1. |
| `Supervision.AppName` | electron/main.ts:144-145 | The name is separator-free: the basename of the path minus one of the three extensions, or the whole basename when it has none. |
| `Supervision.PidKnown` | electron/main.ts:207 | A pid counts only when present and non-zero. |
| `Supervision.RestartDue` | electron/main.ts:176-179 | A restart is due iff the exit code is neither null nor 0 and auto-restart was on. |
| `Supervision.ResolveExecutable` | electron/main.ts:148-163 | The step-by-step choice of `executablePath` and `isExecutable` agrees with `LaunchTarget`: `isExecutable` iff there is a target, and then `executablePath` is it. |
| `Supervision.ObserverFor` | electron/main.ts:172-179 | The exit observer captures the path, the executable spawned, the app name, and whether the settings at launch had `autoRestart: true`. |
| `Supervision.LaunchTarget` | electron/main.ts:148-163 | There is an executable to spawn iff the path ends in `.exe` (case-insensitive), or it is a `.lnk` whose resolved target ends in `.exe`. That executable is the target for a `.lnk`, else the path itself. |
| `Supervision.ExeIsNotLnk` | electron/main.ts:149-152 | No path ends in both `.exe` and `.lnk`. |
| `Supervision.Supervisor.constructor` | electron/main.ts:24-25 | The maps start empty except for the settings loaded from disk. No observers, timers or status messages exist yet. |
| `Supervision.Supervisor.GetApps` | electron/main.ts:109-111 | `get-apps` returns the scan of the listing against the current settings. |
| `Supervision.Supervisor.UpdateAppSettings` | electron/main.ts:113-122 | The entry for `appData.name` becomes exactly its four settings fields, and earlier fields are dropped. Every other name is unchanged. The handler acknowledges with `true`. |
| `Supervision.Supervisor.SaveAppOrders` | electron/main.ts:124-134 | The loop leaves the settings equal to `Reordered(old settings, names)` and acknowledges with `true`. |
| `Supervision.ReorderedUntouched` | electron/main.ts:124-131 | A name not in the list keeps its entry, or its lack of one. |
| `Supervision.ReorderedKeepsFields` | electron/main.ts:126-130 | A listed name keeps every field other than `order` (`...current`). |
| `Supervision.ReorderedOrder` | electron/main.ts:125-130 | The name at index i gets `order == i + 1`; a name listed twice gets the index of its last occurrence. |
| `Supervision.Supervisor.Launch` | electron/main.ts:136-200 | A path already tracked gets `success: false` and nothing changes. Otherwise, when `LaunchTarget` has an executable, it is spawned and tracked under the path with a fresh child. An exit observer is registered with the auto-restart flag read at launch, a `running` status is sent, and the reply carries the pid. Otherwise the path is opened through the shell, left untracked, and the reply is `success: true`. The settings never change. |
| `Supervision.Supervisor.Track` | electron/main.ts:165-172 | The spawned child gets a fresh id and is tracked under the path, replacing any entry there. A `running` status is sent, and the child's exit observer is registered. |
| `Supervision.Supervisor.ChildExited` | electron/main.ts:172-193 | A child with an observer drops its path from the tracked set and sends `stopped`. One restart timer, with the 3000 ms delay, is queued iff the code is neither 0 nor null and auto-restart was on at launch. A child without an observer, such as a restarted one, changes nothing. |
| `Supervision.Supervisor.RestartTimerFired` | electron/main.ts:181-188 | The oldest timer spawns the same executable again and tracks the new child under the path, replacing any entry there. It sends `running (restarted)` and registers no observer for that child. |
| `Supervision.Supervisor.Kill` | electron/main.ts:202-235 | Returns true iff the path is tracked with a truthy pid or the app's settings name a non-empty process name. It issues a tree kill for the pid and/or a taskkill for the name, and changes no state. |
| `Supervision.RestartedAppStaysTracked` | electron/main.ts:136-189 | After launch, crash, restart and a crash of the restarted child, the path is still tracked and a new launch is refused. |
| `Renderer.AddLog` | src/App.tsx:157-163 | The message becomes the last entry. Below 100 entries the feed just grows. At 100 or more, the result holds the last 99 old entries plus the message, so it never exceeds 100 when the input does not. |
| `Renderer.AddLogsKeepsRecent` | src/App.tsx:157-162 | After any number of messages, the feed is the most recent 100 of everything logged, oldest first. |
| `Renderer.FindIndex` | src/App.tsx:185-186 | Returns the first index whose name matches, or -1 iff no app has that name. |
| `Renderer.ArrayMove` | src/App.tsx:187 | The moved element lands at `to`. Removing it from the result gives the input with `from` removed, so the other elements keep their relative order. |
| `Renderer.ArrayMovePermutes` | src/App.tsx:187 | A move yields a permutation of the input. |
| `Renderer.ArrayMoveAt` | src/App.tsx:187 | Index by index: the elements between `from` and `to` shift by one toward `from`, and all others stay in place. |
| `Renderer.Renumber` | src/App.tsx:193 | The app at position i gets `order == i + 1`, with every other field unchanged. |
| `Renderer.RenumberedIsSorted` | src/App.tsx:193 | A renumbered list keeps its names, is sorted by order, and is left unchanged by the stable sort. |
| `Renderer.DragEnd` | src/App.tsx:180-197 | Dropping a card on itself leaves `apps` unchanged and saves nothing. Any other drop gives `Renumber(ArrayMove(apps, from, to))`, with `from` and `to` the indices of the two cards. That renumbers every app to position + 1 and sends the new name order to `save-app-orders`. `activeId` is reset to null in both cases. |
| `Renderer.Unnumbered` | src/App.tsx:193 | Every app with its `order` cleared and every other field unchanged. |
| `Renderer.UnnumberedRenumber` | src/App.tsx:193 | Renumbering changes no field other than `order`. |
| `Renderer.UnnumberedMove` | src/App.tsx:187 | Clearing the orders commutes with a move. |
| `Renderer.NamesMove` | src/App.tsx:187 | Taking the names commutes with a move. |
| `Renderer.DragEndMoves` | src/App.tsx:183-193 | A drop on another card permutes the app records, `order` aside, and so permutes the names. The dragged app, with its new order, lands at the target's index. The other records (path, kind and settings included) keep their relative order. |
| `Renderer.DragEndPersistsOrder` | src/App.tsx:190-202 | With distinct names, after `save-app-orders` runs on the saved list, every app's stored `order` equals the order the board shows for it. |
| `Renderer.WaitAfter` | src/App.tsx:230-232 | There is a wait iff `launchDelay` is present and positive, and it lasts `launchDelay * 1000` ms. |
| `Renderer.StartAll` | src/App.tsx:223-236 | The loop emits `StartSequence` of the stably sorted copy of `apps`. |
| `Renderer.StartSequenceLaunches` | src/App.tsx:227-228 | The sequence launches each app once, in list order. |
| `Renderer.StartSequenceWaits` | src/App.tsx:228-233 | App i's launch is at its position. The action right after it is a wait iff its `launchDelay` is positive, and that wait lasts `launchDelay` seconds. |
| `Renderer.StartAllLaunchesEachOnce` | src/App.tsx:224-228 | Start-all launches exactly the apps' paths, each once, in ascending `order \|\| 0` with ties in list order. |
| `Renderer.PathsMultiset` | src/App.tsx:224 | Rearranging apps rearranges their paths. |
| `Renderer.KillAll` | src/App.tsx:238-240 | One kill request per app, in list order. |
| `Renderer.OpenSettings` | src/App.tsx:249-255 | Selects the app for editing. Each form field is the app's value, or `''`, `false`, 0 or 0 when that value is absent. |
| `Renderer.SaveSettings` | src/App.tsx:257-267 | Nothing is sent when no app is being edited. Otherwise the edited app is sent with the four form values replacing its settings fields and every other field unchanged. |
| `Renderer.OpenThenSave` | src/App.tsx:249-267 | Opening the dialog and saving without edits sends back the same app when all four fields were present. |

`StartAll` takes `apps` as a value, so the sorted copy cannot reorder the
caller's list, which is the point of `[...apps]`. `Kill` has no `modifies`
clause, so it changes neither map. The `treeKill` callback only logs, so it
is not an input and cannot affect the result.

## Left out

- Window creation, window controls, IPC registration and `open-folder` (electron/main.ts:91-107, 237-274): Electron plumbing with no logic.
- `loadSettings`, the file-writing `saveSettings`, `ensureLauncherFolder` and `readdirSync`: file I/O. The listing is an input sequence, the loaded map is a constructor parameter, and the write after each mutation is not modelled. JSON fields beyond the four settings fields are not modelled.
- `spawn`, `child.unref`, `treeKill`, `taskkill`, `shell.openPath`, `shell.readShortcutLink`: operating-system calls. They appear as inputs (shortcut target, pid, exit code, timer firing) and as returned effect values. A spawn that fails with an `error` event is not modelled.
- The main process's `console-log` messages, which the renderer appends to its feed (src/App.tsx:148): display text with no effect on state. The main process's `app-status-change` messages are kept as `statusLog`.
- The renderer's own `addLog` calls (src/App.tsx:152, 170, 203, 210, 219, 226, 231, 235, 272): `StartAll` and `KillAll` emit only their launch, wait and kill actions, not "Starting Launch Sequence...", "Waiting Ns before next app...", "Requesting launch/kill" or the status and update messages. `AddLog` models what any such call does to the feed.
- The 3000 ms restart delay (carried by each `RestartTimer`) and the start-all waits are events and `Wait` actions, not elapsed time. The renderer's `await`s are treated as sequential.
- `Text.ToLower`: lower-cases ASCII letters only, because JavaScript's full Unicode case mapping is not modelled.
- `Text.Join`, `Text.Basename`: `path.join` normalisation and `path.basename`'s handling of trailing separators and drive prefixes are not modelled, because every path here is a launcher folder joined with a directory entry name.
- `Text.FileType`: treats a directory entry name as having no separators or drive prefix, which is true of `readdirSync` names.
- `order` and `launchDelay` are integers. JavaScript's floats, `NaN` and a JSON `null` are not modelled.
- `Renderer.DragEnd`: requires both ids to name a card, which is what dnd-kit reports for the sortable ids `apps.map(a => a.name)`. `findIndex` returning -1 with `arrayMove`'s negative-index behaviour, and a null `over`, are not modelled.
- The renderer's error paths (`catch` blocks around `invoke`), `loadApps` after a save and `setEditingApp(null)`: IPC failure and reload, with no list logic.
- `src/components/Tooltip.tsx`: presentation only.
- Elevation, shortcut argument tokenisation, working-directory selection, kill by executable name, and repeated restarts: the source does not have them.
