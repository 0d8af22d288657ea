/** The app catalog of the main process: the per-name settings record and
    `scanApps`, which merges the launcher folder's listing with the settings. */
module Catalog {
  import opened Wrappers
  import opened Text
  import opened AppModel

  /** One value of the `appSettings` map. */
  datatype Settings = Settings(
    processName: Option<string>,
    autoRestart: Option<bool>,
    order: Option<int>,
    launchDelay: Option<int>)

  /** `{}`: the record read for a name that has no settings. */
  const NO_SETTINGS := Settings(None, None, None, None)

  /** `appSettings.get(name) || {}` */
  function Lookup(m: map<string, Settings>, name: string): (s: Settings)
    ensures name in m ==> s == m[name]
    ensures name !in m ==> s == NO_SETTINGS
  {
    if name in m then m[name] else NO_SETTINGS
  }

  /** `settings.autoRestart` read as a condition. */
  function AutoRestartOn(s: Settings): (on: bool)
    ensures s.autoRestart == None ==> !on
    ensures s.autoRestart == Some(false) ==> !on
    ensures s.autoRestart == Some(true) ==> on
  {
    s.autoRestart == Some(true)
  }

  /** `settings.processName` read as a condition: present and not empty. */
  function HasProcessName(s: Settings): (named: bool)
    ensures s.processName == None ==> !named
    ensures s.processName == Some("") ==> !named
    ensures s.processName.Some? && |s.processName.value| > 0 ==> named
  {
    s.processName.Some? && s.processName.value != ""
  }

  /** The record `update-app-settings` stores for an app: its four settings
      fields and nothing else. */
  function SettingsRecord(a: AppData): (s: Settings)
    ensures s.processName == a.processName && s.autoRestart == a.autoRestart
    ensures s.order == a.order && s.launchDelay == a.launchDelay
  {
    Settings(a.processName, a.autoRestart, a.order, a.launchDelay)
  }

  /** The `.filter` step: the entries with one of the three extensions, in listing order. */
  function Filtered(files: seq<string>): (r: seq<string>)
    ensures forall f :: f in r ==> HasAppExt(f)
    ensures |r| <= |files|
    decreases |files|
  {
    if files == [] then []
    else (if HasAppExt(files[0]) then [files[0]] else []) + Filtered(files[1..])
  }

  /** The `.map` step for the entry `f` at position `index` of the filtered listing. */
  function MakeEntry(folder: string, f: string, index: nat, settings: map<string, Settings>): (a: AppData)
    requires HasAppExt(f)
    ensures a.name + f[|f| - 4..] == f
    ensures a.path == Join(folder, f)
    ensures a.kind == (if |f| == 4 then "" else f[|f| - 4..])
    ensures var s := Lookup(settings, a.name);
      && a.processName == s.processName
      && a.autoRestart == s.autoRestart
      && a.order == Some(if s.order.Some? then s.order.value else index + 1)
      && a.launchDelay == Some(s.launchDelay.GetOr(0))
  {
    var name := StripAppExt(f);
    var s := Lookup(settings, name);
    AppData(name, Join(folder, f), FileType(f), s.processName, s.autoRestart,
            Some(if s.order.Some? then s.order.value else index + 1),
            Some(s.launchDelay.GetOr(0)))
  }

  /** The `.map` step over the filtered entries: entry `i` gets index `i`. */
  function Entries(folder: string, fs: seq<string>, settings: map<string, Settings>): (r: seq<AppData>)
    requires forall f :: f in fs ==> HasAppExt(f)
    ensures |r| == |fs|
    ensures forall i :: 0 <= i < |fs| ==> r[i] == MakeEntry(folder, fs[i], i, settings)
  {
    seq(|fs|, i requires 0 <= i < |fs| => MakeEntry(folder, fs[i], i, settings))
  }

  /** The filtered entries with their settings merged in, before sorting. */
  function Listed(folder: string, files: seq<string>, settings: map<string, Settings>): seq<AppData> {
    Entries(folder, Filtered(files), settings)
  }

  /** `scanApps` over the listing `files` of the launcher folder `folder`. */
  function ScanApps(folder: string, files: seq<string>, settings: map<string, Settings>): (apps: seq<AppData>)
    ensures Sorted(apps)
    ensures SameKeyOrder(apps, Listed(folder, files, settings))
    ensures multiset(apps) == multiset(Listed(folder, files, settings))
    ensures |apps| == |Filtered(files)|
  {
    SortByOrder(Listed(folder, files, settings))
  }

  /** The filter keeps a single entry iff it has one of the three extensions. */
  lemma FilteredOne(f: string)
    ensures Filtered([f]) == if HasAppExt(f) then [f] else []
  {
    assert [f][1..] == [];
  }

  /** Filtering a listing in two parts and joining the results is filtering
      the whole listing: kept entries stay in listing order. */
  lemma {:induction false} FilteredConcat(a: seq<string>, b: seq<string>)
    ensures Filtered(a + b) == Filtered(a) + Filtered(b)
    decreases |a|
  {
    if a == [] {
      assert a + b == b;
    } else {
      assert (a + b)[0] == a[0];
      assert (a + b)[1..] == a[1..] + b;
      FilteredConcat(a[1..], b);
    }
  }

  /** The filter keeps exactly the entries with one of the three extensions,
      each as often as the listing holds it. */
  lemma {:induction false} FilteredCounts(files: seq<string>, f: string)
    ensures multiset(Filtered(files))[f] == if HasAppExt(f) then multiset(files)[f] else 0
    decreases |files|
  {
    if files != [] {
      FilteredCounts(files[1..], f);
      assert files == [files[0]] + files[1..];
    }
  }

  /** An app is in the scan result iff it is the entry built from some
      filtered file at that file's position. */
  lemma ScanAppsMembers(folder: string, files: seq<string>, settings: map<string, Settings>, a: AppData)
    ensures a in ScanApps(folder, files, settings) <==>
      exists i :: 0 <= i < |Filtered(files)| && a == MakeEntry(folder, Filtered(files)[i], i, settings)
  {
    var l := Listed(folder, files, settings);
    assert a in ScanApps(folder, files, settings) <==> a in multiset(l);
    if a in l {
      var i :| 0 <= i < |l| && l[i] == a;
      assert a == MakeEntry(folder, Filtered(files)[i], i, settings);
    }
  }

  /** The name launch and kill derive from a scanned path (`path.basename`
      and the same extension pattern) is the name the scan gave the app, so
      all three read the same settings entry. */
  lemma ScannedNameIsLaunchName(folder: string, f: string, index: nat, settings: map<string, Settings>)
    requires HasAppExt(f) && NoSeparator(f)
    ensures StripAppExt(Basename(MakeEntry(folder, f, index, settings).path)) == MakeEntry(folder, f, index, settings).name
  {
    BasenameOfJoin(folder, f);
  }

  /** The launcher folder, listing and settings of the example below. */
  const EXAMPLE_FOLDER: string := "C:\\L"
  const EXAMPLE_FILES: seq<string> := ["Foo.exe", "Bar.lnk", "notes.txt"]
  const EXAMPLE_SETTINGS: map<string, Settings> := map["Foo" := Settings(None, None, Some(2), None)]

  lemma ExampleFiltered()
    ensures Filtered(EXAMPLE_FILES) == ["Foo.exe", "Bar.lnk"]
  {
    var files := EXAMPLE_FILES;
    assert EndsWith("Foo.exe", ".exe") && EndsWith("Bar.lnk", ".lnk");
    assert !HasAppExt("notes.txt") by {
      assert "notes.txt"[5..] == ".txt";
    }
    assert files[1..] == ["Bar.lnk", "notes.txt"];
    assert files[1..][1..] == ["notes.txt"];
    assert Filtered(["notes.txt"]) == [];
  }

  lemma ExampleEntry(f: string, index: nat, name: string)
    requires f == "Foo.exe" || f == "Bar.lnk"
    requires name == (if f == "Foo.exe" then "Foo" else "Bar")
    ensures HasAppExt(f)
    ensures MakeEntry(EXAMPLE_FOLDER, f, index, EXAMPLE_SETTINGS).name == name
    ensures MakeEntry(EXAMPLE_FOLDER, f, index, EXAMPLE_SETTINGS).order ==
      Some(if name == "Foo" then 2 else index + 1)
  {
    assert EndsWith("Foo.exe", ".exe") && EndsWith("Bar.lnk", ".lnk");
    assert StripAppExt(f) == name;
    assert name in EXAMPLE_SETTINGS <==> name == "Foo";
  }

  /** The example's entries before sorting: `Foo` then `Bar`, both with order 2. */
  lemma ExampleListed()
    ensures var l := Listed(EXAMPLE_FOLDER, EXAMPLE_FILES, EXAMPLE_SETTINGS);
      && |l| == 2
      && l[0].name == "Foo" && l[1].name == "Bar"
      && l[0].order == Some(2) && l[1].order == Some(2)
      && l[1].path == Join(EXAMPLE_FOLDER, "Bar.lnk")
      && Names(l) == ["Foo", "Bar"]
  {
    ExampleFiltered();
    ExampleEntry("Foo.exe", 0, "Foo");
    ExampleEntry("Bar.lnk", 1, "Bar");
  }

  /** `Foo.exe`, `Bar.lnk` and `notes.txt`, where only `Foo` has settings
      (`order` 2): `Bar`'s default order is its index plus one, also 2, and
      the tie keeps the listing order. */
  lemma ScanExample()
    ensures var apps := ScanApps(EXAMPLE_FOLDER, EXAMPLE_FILES, EXAMPLE_SETTINGS);
      && Names(apps) == ["Foo", "Bar"]
      && apps[0].order == Some(2) && apps[1].order == Some(2)
      && apps[1].path == Join(EXAMPLE_FOLDER, "Bar.lnk")
  {
    ExampleListed();
    TieIsKept(Listed(EXAMPLE_FOLDER, EXAMPLE_FILES, EXAMPLE_SETTINGS));
  }

  /** Two apps with the same order are left as they are by the sort. */
  lemma TieIsKept(l: seq<AppData>)
    requires |l| == 2 && l[0].order == l[1].order
    ensures SortByOrder(l) == l
  {
    SortSortedIsIdentity(l);
  }
}
