/** Switching an installation between releases: setup, update, rollback. */
module SettingsSwitch {
  import opened Wrappers

  /** What settings.json says. A file's content stands for its hash; `release`
      stands for the release identity with its version and executable hash,
      `auth` and `native` for their groups of fields, `tuning` for the fields
      that no operation compares. */
  datatype Settings = Settings(
    installRoot: string, profile: string, stateHome: string, stateIdentity: string,
    account: Option<string>, auth: string, native: string, roots: string, snapshots: string, registry: string,
    channel: string, source: string, prefix: string, updates: string, reconnects: string,
    tuning: string, release: string, files: map<string, string>)

  type Disk = map<string, string>

  const RELEASES := "releases/"

  predicate IsRelease(name: string) { RELEASES <= name }

  predicate Matches(files: map<string, string>, disk: Disk) {
    forall name :: name in files ==> name in disk && disk[name] == files[name]
  }

  function Mutable(files: map<string, string>): set<string> { set name | name in files && !IsRelease(name) }

  /** An installation, with the existing state homes and their identities, and
      the settings that running commands have loaded before taking the lock. */
  datatype Installation = Installation(
    settings: Option<Settings>, previous: Option<Settings>, roots: Option<string>,
    disk: Disk, homes: map<string, string>, loaded: map<nat, Settings>)

  // Setup.

  /** A requested setup: the settings it leads to, except that the policies
      default to the installed ones, and the identity of the state home if it
      has to be created. */
  datatype Draft = Draft(settings: Settings, updates: Option<string>, reconnects: Option<string>)

  const COMMANDS: seq<string> := ["dispatch.py", "bin/codex", "bin/codex-runtime", "bin/ai-fence-snapshot"]

  predicate MayReplace(w: Installation, d: Draft) {
    match w.settings
    case Some(current) =>
      && Matches(current.files, w.disk)
      && current.stateHome == d.settings.stateHome && current.profile == d.settings.profile
      && current.stateHome in w.homes && w.homes[current.stateHome] == current.stateIdentity
      && (current.account.Some? ==> d.settings.account == current.account)
    case None => forall name :: name in COMMANDS ==> name !in w.disk
  }

  /** The releases that the setup needs are as they should be, or absent. */
  predicate ReleasesIntact(disk: Disk, files: map<string, string>) {
    forall name :: name in files && IsRelease(name) && name in disk ==> disk[name] == files[name]
  }

  function Homes(w: Installation, d: Draft): map<string, string> {
    if d.settings.stateHome in w.homes then w.homes else w.homes[d.settings.stateHome := d.settings.stateIdentity]
  }

  function OrElse(v: Option<string>, other: string): string { if v.Some? then v.value else other }

  function Built(w: Installation, d: Draft): Settings {
    d.settings.(
      stateIdentity := Homes(w, d)[d.settings.stateHome],
      updates := OrElse(d.updates, if w.settings.Some? then w.settings.value.updates else "auto"),
      reconnects := OrElse(d.reconnects, if w.settings.Some? then w.settings.value.reconnects else "auto"))
  }

  /** The chosen files are written, release files only where there are none. */
  function Written(disk: Disk, files: map<string, string>, chosen: set<string>): Disk {
    disk + map name | name in files && name in chosen && !(IsRelease(name) && name in disk) :: files[name]
  }

  function SetupFiles(w: Installation, d: Draft): Installation {
    w.(disk := Written(w.disk, d.settings.files, d.settings.files.Keys), homes := Homes(w, d))
  }

  function AfterSetup(w: Installation, d: Draft): (Installation, bool) {
    if !MayReplace(w, d) || !ReleasesIntact(w.disk, d.settings.files) then (w, false)
    else
      var built := Built(w, d);
      (SetupFiles(w, d).(
         roots := Some(built.roots),
         previous := if w.settings.Some? && w.settings.value != built then w.settings else w.previous,
         settings := Some(built)), true)
  }

  // Update.

  function Components(name: string): (parts: seq<string>)
    ensures parts != []
  {
    if name == [] then [""]
    else
      var rest := Components(name[1..]);
      if name[0] == '/' then [""] + rest else [[name[0]] + rest[0]] + rest[1..]
  }

  predicate Relative(name: string) { !("/" <= name) && ".." !in Components(name) }

  /** The fields an automatic update may not change. */
  predicate SamePolicy(a: Settings, b: Settings) {
    && a.channel == b.channel && a.source == b.source && a.installRoot == b.installRoot
    && a.stateHome == b.stateHome && a.stateIdentity == b.stateIdentity && a.profile == b.profile
    && a.account == b.account && a.auth == b.auth && a.native == b.native && a.roots == b.roots
    && a.snapshots == b.snapshots && a.registry == b.registry && a.updates == b.updates
    && a.prefix == b.prefix && a.reconnects == b.reconnects
  }

  predicate FileFits(name: string, current: Settings, proposed: Settings, disk: Disk)
    requires name in proposed.files
  {
    && Relative(name) && name in disk && disk[name] == proposed.files[name]
    && (!IsRelease(name) ==> name in current.files && current.files[name] == proposed.files[name])
  }

  predicate MayActivate(w: Installation, expected: Settings, proposed: Settings, stagedRoots: Option<string>) {
    && w.settings == Some(expected)
    && SamePolicy(proposed, expected)
    && Mutable(expected.files) == Mutable(proposed.files)
    && (forall name :: name in proposed.files ==> FileFits(name, expected, proposed, w.disk))
    && stagedRoots == w.roots
  }

  function AfterActivate(w: Installation, expected: Settings, proposed: Settings, stagedRoots: Option<string>): (Installation, bool) {
    if MayActivate(w, expected, proposed, stagedRoots) then (w.(previous := Some(expected), settings := Some(proposed)), true)
    else (w, false)
  }

  // Rollback.

  predicate MayRollBack(w: Installation, loaded: Settings) {
    && w.previous.Some? && w.previous.value.stateHome == loaded.stateHome
    && Matches(w.previous.value.files, w.disk)
  }

  function Manual(s: Settings): Settings { s.(updates := "manual") }

  function AfterRollback(w: Installation, loaded: Settings): (Installation, bool) {
    if !MayRollBack(w, loaded) then (w, false)
    else
      var previous := w.previous.value;
      (w.(roots := Some(previous.roots), settings := Some(Manual(previous)), previous := Some(loaded)), true)
  }

  // The operations on the files.

  class Root {
    var settings: Option<Settings>
    var previous: Option<Settings>
    var roots: Option<string>
    var disk: Disk
    var homes: map<string, string>

    ghost function State(loaded: map<nat, Settings>): Installation
      reads this
    {
      Installation(settings, previous, roots, disk, homes, loaded)
    }

    constructor (disk: Disk, homes: map<string, string>)
      ensures settings == None && previous == None && roots == None && this.disk == disk && this.homes == homes
    {
      settings, previous, roots := None, None, None;
      this.disk, this.homes := disk, homes;
    }

    /** Whether every listed file is there with its hash. */
    method Intact(files: map<string, string>) returns (intact: bool)
      ensures intact <==> Matches(files, disk)
    {
      intact := true;
      var names := files.Keys;
      while names != {} && intact
        invariant names <= files.Keys
        invariant intact <==> forall name :: name in files && name !in names ==> name in disk && disk[name] == files[name]
        decreases names
      {
        var name :| name in names;
        names := names - {name};
        intact := name in disk && disk[name] == files[name];
      }
    }

    method Activate(expected: Settings, proposed: Settings, stagedRoots: Option<string>) returns (done: bool)
      modifies this
      ensures forall l :: (State(l), done) == AfterActivate(old(State(l)), expected, proposed, stagedRoots)
    {
      if settings != Some(expected) || !SamePolicy(proposed, expected) || Mutable(expected.files) != Mutable(proposed.files) {
        return false;
      }
      var fits := true;
      var names := proposed.files.Keys;
      while names != {} && fits
        invariant names <= proposed.files.Keys
        invariant fits <==> forall name :: name in proposed.files && name !in names ==> FileFits(name, expected, proposed, disk)
        decreases names
      {
        var name :| name in names;
        names := names - {name};
        fits := FileFits(name, expected, proposed, disk);
      }
      if !fits || stagedRoots != roots {
        return false;
      }
      previous := Some(expected);
      settings := Some(proposed);
      return true;
    }

    /** `loaded` was read before the lock was taken. */
    method RollBack(loaded: Settings) returns (done: bool)
      modifies this
      ensures forall l :: (State(l), done) == AfterRollback(old(State(l)), loaded)
    {
      if previous.None? || previous.value.stateHome != loaded.stateHome {
        return false;
      }
      var intact := Intact(previous.value.files);
      if !intact {
        return false;
      }
      roots := Some(previous.value.roots);
      settings := Some(Manual(previous.value));
      previous := Some(loaded);
      return true;
    }

    /** The checks of a setup. */
    method Admits(d: Draft) returns (ok: bool)
      ensures ok <==> MayReplace(State(map[]), d) && ReleasesIntact(disk, d.settings.files)
    {
      if settings.Some? {
        var current := settings.value;
        var intact := Intact(current.files);
        if !intact || current.stateHome != d.settings.stateHome || current.profile != d.settings.profile
           || current.stateHome !in homes || homes[current.stateHome] != current.stateIdentity
           || (current.account.Some? && d.settings.account != current.account) {
          return false;
        }
      } else if exists name :: name in COMMANDS && name in disk {
        return false;
      }
      return forall name :: name in d.settings.files && IsRelease(name) && name in disk ==> disk[name] == d.settings.files[name];
    }

    method Setup(d: Draft) returns (done: bool)
      modifies this
      ensures forall l :: (State(l), done) == AfterSetup(old(State(l)), d)
    {
      done := Admits(d);
      assert forall l :: MayReplace(State(l), d) == MayReplace(State(map[]), d);
      if !done {
        return;
      }
      if d.settings.stateHome !in homes {
        homes := homes[d.settings.stateHome := d.settings.stateIdentity];
      }
      disk := Written(disk, d.settings.files, d.settings.files.Keys);
      var built := d.settings.(
        stateIdentity := homes[d.settings.stateHome],
        updates := OrElse(d.updates, if settings.Some? then settings.value.updates else "auto"),
        reconnects := OrElse(d.reconnects, if settings.Some? then settings.value.reconnects else "auto"));
      roots := Some(built.roots);
      if settings.Some? && settings.value != built {
        previous := settings;
      }
      settings := Some(built);
    }
  }

  // Runs, with commands that stop half way and files that others change.

  /** How far an interrupted operation came. */
  datatype Reached = Files(chosen: set<string>) | Roots | Half

  datatype Step =
    | Setup(d: Draft)
    | SetupStops(d: Draft, reached: Reached)
    | Prepare(d: Draft, chosen: set<string>)
    | Activate(expected: Settings, proposed: Settings, stagedRoots: Option<string>)
    | ActivateStops(expected: Settings, proposed: Settings, stagedRoots: Option<string>)
    | Load(command: nat)
    | RollBack(command: nat)
    | RollBackStops(command: nat, reached: Reached)
    | Uninstall(command: nat)
    | UninstallStops(command: nat, chosen: set<string>)
    | Remount(home: string, identity: Option<string>)

  /** A setup that stops has written some files, perhaps the roots, perhaps also
      the previous settings. One that finds a fault has at most written releases. */
  function AfterStop(w: Installation, d: Draft, reached: Reached): Installation {
    var releases := set name | name in d.settings.files && IsRelease(name);
    if !MayReplace(w, d) then w
    else if !ReleasesIntact(w.disk, d.settings.files) then
      w.(homes := Homes(w, d),
         disk := Written(w.disk, d.settings.files, if reached.Files? then reached.chosen * releases else releases))
    else
      match reached
      case Files(chosen) => w.(homes := Homes(w, d), disk := Written(w.disk, d.settings.files, chosen))
      case Roots => SetupFiles(w, d).(roots := Some(d.settings.roots))
      case Half => SetupFiles(w, d).(roots := Some(d.settings.roots),
                                     previous := if w.settings.Some? && w.settings.value != Built(w, d) then w.settings else w.previous)
  }

  function AfterRollbackStops(w: Installation, loaded: Settings, reached: Reached): Installation {
    if !MayRollBack(w, loaded) || reached.Files? then w
    else
      var v := w.(roots := Some(w.previous.value.roots));
      if reached.Roots? then v else v.(settings := Some(Manual(w.previous.value)))
  }

  predicate MayUninstall(w: Installation, loaded: Settings) {
    forall name :: name in loaded.files && !IsRelease(name) ==> name in w.disk && w.disk[name] == loaded.files[name]
  }

  function Next(w: Installation, step: Step): (Installation, bool) {
    match step
    case Setup(d) => AfterSetup(w, d)
    case SetupStops(d, reached) => (AfterStop(w, d, reached), false)
    case Prepare(d, chosen) =>
      if !MayReplace(w, d) || w.settings.None? then (w, false)
      else (w.(disk := Written(w.disk, d.settings.files, set name | name in chosen && IsRelease(name))), false)
    case Activate(expected, proposed, stagedRoots) => AfterActivate(w, expected, proposed, stagedRoots)
    case ActivateStops(expected, proposed, stagedRoots) =>
      (if MayActivate(w, expected, proposed, stagedRoots) then w.(previous := Some(expected)) else w, false)
    case Load(command) => (if w.settings.Some? then w.(loaded := w.loaded[command := w.settings.value]) else w, false)
    case RollBack(command) => if command in w.loaded then AfterRollback(w, w.loaded[command]) else (w, false)
    case RollBackStops(command, reached) =>
      (if command in w.loaded then AfterRollbackStops(w, w.loaded[command], reached) else w, false)
    case Uninstall(command) =>
      if command in w.loaded && w.settings.Some? && MayUninstall(w, w.loaded[command]) then
        (w.(settings := None, disk := w.disk - Mutable(w.loaded[command].files)), true)
      else (w, false)
    case UninstallStops(command, chosen) =>
      // Some commands are removed; all of them, when settings.json is gone already.
      (if command in w.loaded && MayUninstall(w, w.loaded[command]) then
         w.(disk := w.disk - Mutable(w.loaded[command].files) * chosen)
       else w, false)
    case Remount(home, identity) =>
      (w.(homes := if identity.Some? then w.homes[home := identity.value] else w.homes - {home}), false)
  }

  function Run(w: Installation, steps: seq<Step>): Installation
    decreases |steps|
  {
    if steps == [] then w else Run(Next(w, steps[0]).0, steps[1..])
  }

  function New(disk: Disk, homes: map<string, string>): Installation { Installation(None, None, None, disk, homes, map[]) }

  // What each operation asks for and does, file by file and field by field.

  predicate InPlace(name: string, files: map<string, string>, disk: Disk) {
    name in files ==> name in disk && disk[name] == files[name]
  }

  /** A setup of an installed root completes exactly when every file of the current
      settings is in place, the state home and the profile stay, the state home is
      the one it was, a bound account stays bound, and no release file that it brings
      is there with other content. A setup of an empty root needs the four command
      names to be free instead. */
  lemma SetupAsks(w: Installation, d: Draft)
    ensures AfterSetup(w, d).1 <==>
            && (if w.settings.Some? then
                  var current := w.settings.value;
                  && (forall name :: InPlace(name, current.files, w.disk))
                  && d.settings.stateHome == current.stateHome && d.settings.profile == current.profile
                  && current.stateHome in w.homes && w.homes[current.stateHome] == current.stateIdentity
                  && (current.account.Some? ==> d.settings.account == current.account)
                else
                  "dispatch.py" !in w.disk && "bin/codex" !in w.disk && "bin/codex-runtime" !in w.disk
                  && "bin/ai-fence-snapshot" !in w.disk)
            && (forall name :: name in d.settings.files && "releases/" <= name && name in w.disk ==>
                  w.disk[name] == d.settings.files[name])
  {
    if w.settings.Some? {
      var files := w.settings.value.files;
      if Matches(files, w.disk) {
        assert forall name :: InPlace(name, files, w.disk);
      } else {
        var name :| name in files && !(name in w.disk && w.disk[name] == files[name]);
        assert !InPlace(name, files, w.disk);
      }
    } else {
      assert forall name :: name in COMMANDS <==>
               name == "dispatch.py" || name == "bin/codex" || name == "bin/codex-runtime" || name == "bin/ai-fence-snapshot";
    }
  }

  /** A completed setup puts its files in place and leaves every other one, makes
      its settings the current ones with the policies that are chosen, kept, or
      automatic, and makes the ones they replace the previous ones. */
  lemma SetupDoes(w: Installation, d: Draft)
    requires AfterSetup(w, d).1
    ensures var v := AfterSetup(w, d).0;
            var identity := if d.settings.stateHome in w.homes then w.homes[d.settings.stateHome] else d.settings.stateIdentity;
            var updates := if d.updates.Some? then d.updates.value else if w.settings.Some? then w.settings.value.updates else "auto";
            var reconnects := if d.reconnects.Some? then d.reconnects.value
                              else if w.settings.Some? then w.settings.value.reconnects else "auto";
            && v.settings == Some(d.settings.(stateIdentity := identity, updates := updates, reconnects := reconnects))
            && v.previous == (if w.settings.Some? && w.settings != v.settings then w.settings else w.previous)
            && v.roots == Some(d.settings.roots) && v.loaded == w.loaded
            && v.homes == w.homes[d.settings.stateHome := identity]
    ensures var v := AfterSetup(w, d).0;
            forall name ::
              && (name in v.disk <==> name in w.disk || name in d.settings.files)
              && (name in v.disk ==> v.disk[name] == if name in d.settings.files then d.settings.files[name] else w.disk[name])
  {
    var v := AfterSetup(w, d).0;
    forall name
      ensures name in v.disk <==> name in w.disk || name in d.settings.files
      ensures name in v.disk ==> v.disk[name] == if name in d.settings.files then d.settings.files[name] else w.disk[name]
    {
      assert name in d.settings.files ==> name in d.settings.files.Keys;
    }
  }

  /** The name has a ".." between slashes. */
  ghost predicate LeadsUp(name: string) {
    exists i :: 0 <= i && i + 2 <= |name| && UpAt(name, i)
  }

  predicate UpAt(name: string, i: nat)
    requires i + 2 <= |name|
  {
    name[i] == '.' && name[i + 1] == '.' && (i == 0 || name[i - 1] == '/') && (i + 2 == |name| || name[i + 2] == '/')
  }

  /** The first component is what comes before the first slash. */
  lemma {:induction false} FirstComponent(name: string)
    ensures var first := Components(name)[0];
            && |first| <= |name| && first == name[..|first|] && '/' !in first
            && (|first| < |name| ==> name[|first|] == '/')
    ensures Components(name)[1..] == (var n := |Components(name)[0]|; if n < |name| then Components(name[n + 1..]) else [])
  {
    if name != [] && name[0] != '/' {
      FirstComponent(name[1..]);
      var n := |Components(name[1..])[0]|;
      assert name[..n + 1] == [name[0]] + name[1..][..n];
      if n + 1 < |name| {
        assert name[1..][n + 1..] == name[n + 2..];
      }
    } else if name != [] {
      assert name[..0] == "";
    }
  }

  /** The path has a parent component exactly when the name leads up. */
  lemma {:induction false} ComponentsLeadUp(name: string)
    ensures ".." in Components(name) <==> LeadsUp(name)
    decreases |name|
  {
    FirstComponent(name);
    var first := Components(name)[0];
    var n := |first|;
    assert Components(name) == [first] + Components(name)[1..];
    assert first == ".." <==> n == 2 && UpAt(name, 0) by {
      assert n == 2 ==> first == [name[0], name[1]];
    }
    if n < |name| {
      var rest := name[n + 1..];
      ComponentsLeadUp(rest);
      RestLeadsUp(name, n);
    }
    FirstLeadsUp(name, n);
  }

  lemma FirstLeadsUp(name: string, n: nat)
    requires n <= |name| && '/' !in name[..n] && (n < |name| ==> name[n] == '/')
    ensures n == |name| ==> (LeadsUp(name) <==> n == 2 && UpAt(name, 0))
    ensures n < |name| ==> (LeadsUp(name) <==> (n == 2 && UpAt(name, 0)) || LeadsAfter(name, n))
  {
    assert forall j :: 0 <= j < n ==> name[j] == name[..n][j];
    if LeadsUp(name) {
      var i :| 0 <= i && i + 2 <= |name| && UpAt(name, i);
      if i > n {
        assert UpAt(name, i);
      }
    }
  }

  /** The ".." comes after the slash at n. */
  ghost predicate LeadsAfter(name: string, n: nat) {
    exists i :: n < i && i + 2 <= |name| && UpAt(name, i)
  }

  lemma RestLeadsUp(name: string, n: nat)
    requires n < |name| && name[n] == '/'
    ensures LeadsUp(name[n + 1..]) <==> LeadsAfter(name, n)
  {
    var rest := name[n + 1..];
    forall i | 0 <= i && i + 2 <= |rest|
      ensures UpAt(rest, i) <==> UpAt(name, n + 1 + i)
    {
    }
    if LeadsAfter(name, n) {
      var i :| n < i && i + 2 <= |name| && UpAt(name, i);
      assert UpAt(rest, i - n - 1);
    }
  }

  /** The settings differ in nothing but the release, its files, and what no
      operation compares. */
  predicate SameButRelease(a: Settings, b: Settings) { a == b.(release := a.release, files := a.files, tuning := a.tuning) }

  /** An update completes exactly when the expected settings are current, the
      proposed ones differ only in the release, the approved roots are the staged
      ones, every proposed file is in place under a path that stays inside, and no
      file outside the releases comes, goes or changes. It changes no file. */
  lemma ActivateAsks(w: Installation, expected: Settings, proposed: Settings, stagedRoots: Option<string>)
    ensures var (v, done) := AfterActivate(w, expected, proposed, stagedRoots);
            && (done <==>
                && w.settings == Some(expected) && SameButRelease(proposed, expected) && stagedRoots == w.roots
                && (forall name :: name in proposed.files ==>
                      name in w.disk && w.disk[name] == proposed.files[name] && !("/" <= name) && !LeadsUp(name))
                && (forall name :: !("releases/" <= name) ==>
                      (name in proposed.files <==> name in expected.files)
                      && (name in proposed.files && name in expected.files ==> proposed.files[name] == expected.files[name])))
            && v == (if done then w.(settings := Some(proposed), previous := Some(expected)) else w)
  {
    SamePolicyIs(proposed, expected);
    MutableIs(expected.files, proposed.files);
    forall name | name in proposed.files
      ensures Relative(name) <==> !("/" <= name) && !LeadsUp(name)
    {
      ComponentsLeadUp(name);
    }
  }

  lemma SamePolicyIs(a: Settings, b: Settings)
    ensures SamePolicy(a, b) <==> SameButRelease(a, b)
  {
  }

  lemma MutableIs(a: map<string, string>, b: map<string, string>)
    ensures Mutable(a) == Mutable(b) <==> forall name :: !("releases/" <= name) ==> (name in a <==> name in b)
  {
    forall name
      ensures name in Mutable(a) <==> name in a && !("releases/" <= name)
      ensures name in Mutable(b) <==> name in b && !("releases/" <= name)
    {
    }
  }

  /** A rollback completes exactly when there are previous settings of the loaded
      state home and all their files are in place. It makes them current with manual
      updates, the loaded ones previous, and changes no file. */
  lemma RollBackAsks(w: Installation, loaded: Settings)
    ensures var (v, done) := AfterRollback(w, loaded);
            && (done <==> w.previous.Some? && w.previous.value.stateHome == loaded.stateHome
                          && forall name :: InPlace(name, w.previous.value.files, w.disk))
            && v == (if done then w.(settings := Some(w.previous.value.(updates := "manual")), previous := Some(loaded),
                                     roots := Some(w.previous.value.roots))
                     else w)
  {
    if w.previous.Some? {
      var files := w.previous.value.files;
      if Matches(files, w.disk) {
        assert forall name :: InPlace(name, files, w.disk);
      } else {
        var name :| name in files && !(name in w.disk && w.disk[name] == files[name]);
        assert !InPlace(name, files, w.disk);
      }
    }
  }

  /** An uninstall takes away the commands that its settings list, all of them in
      place, and settings.json; releases and previous settings stay. */
  lemma UninstallAsks(w: Installation, command: nat)
    ensures var (v, done) := Next(w, Uninstall(command));
            && (done <==> command in w.loaded && w.settings.Some?
                          && forall name :: !("releases/" <= name) ==> InPlace(name, w.loaded[command].files, w.disk))
            && (if done then
                  && v == w.(settings := None, disk := v.disk)
                  && forall name ::
                       && (name in v.disk <==> name in w.disk && (name in w.loaded[command].files ==> "releases/" <= name))
                       && (name in v.disk ==> v.disk[name] == w.disk[name])
                else v == w)
  {
    if command in w.loaded && w.settings.Some? {
      var files := w.loaded[command].files;
      forall name
        ensures name in Mutable(files) <==> name in files && !("releases/" <= name)
      {
      }
      if !MayUninstall(w, w.loaded[command]) {
        var name :| name in files && !IsRelease(name) && !(name in w.disk && w.disk[name] == files[name]);
        assert !InPlace(name, files, w.disk);
      } else {
        assert forall name :: !("releases/" <= name) ==> InPlace(name, files, w.disk);
      }
    }
  }

  // Identity.

  predicate Identified(s: Settings, profile: string, home: string) { s.profile == profile && s.stateHome == home }

  /** All settings anywhere belong to one profile and one state home. */
  predicate OneIdentity(w: Installation, profile: string, home: string) {
    && (w.settings.Some? ==> Identified(w.settings.value, profile, home))
    && (w.previous.Some? ==> Identified(w.previous.value, profile, home))
    && (forall command :: command in w.loaded ==> Identified(w.loaded[command], profile, home))
  }

  predicate Installed(w: Installation, profile: string, home: string) { w.settings.Some? && OneIdentity(w, profile, home) }

  predicate NoUninstall(steps: seq<Step>) { forall i :: 0 <= i < |steps| ==> !steps[i].Uninstall? }

  lemma StepKeepsIdentity(w: Installation, step: Step, profile: string, home: string)
    requires Installed(w, profile, home) && !step.Uninstall?
    ensures Installed(Next(w, step).0, profile, home)
  {
  }

  /** Without an uninstall the profile and the state home never change, whatever
      is interrupted and however late a rollback commits. */
  lemma {:induction false} IdentityNeverChanges(w: Installation, steps: seq<Step>, profile: string, home: string)
    requires Installed(w, profile, home) && NoUninstall(steps)
    ensures Installed(Run(w, steps), profile, home)
    decreases |steps|
  {
    if steps != [] {
      StepKeepsIdentity(w, steps[0], profile, home);
      IdentityNeverChanges(Next(w, steps[0]).0, steps[1..], profile, home);
    }
  }

  predicate Untouched(w: Installation) { w.settings.None? && w.previous.None? && w.loaded == map[] }

  /** The first setup gives a new root its identity. */
  lemma FirstSetupIdentifies(w: Installation, step: Step)
    requires Untouched(w)
    ensures Untouched(Next(w, step).0)
            || (step.Setup? && Installed(Next(w, step).0, step.d.settings.profile, step.d.settings.stateHome))
  {
  }

  /** Either nothing was ever set up, or all settings agree with settings.json. */
  predicate Consistent(w: Installation) {
    || Untouched(w)
    || (w.settings.Some? && Installed(w, w.settings.value.profile, w.settings.value.stateHome))
  }

  lemma {:induction false} RunIsConsistent(w: Installation, steps: seq<Step>)
    requires Consistent(w) && NoUninstall(steps)
    ensures Consistent(Run(w, steps))
    decreases |steps|
  {
    if steps != [] {
      if Untouched(w) {
        FirstSetupIdentifies(w, steps[0]);
      } else {
        StepKeepsIdentity(w, steps[0], w.settings.value.profile, w.settings.value.stateHome);
      }
      RunIsConsistent(Next(w, steps[0]).0, steps[1..]);
    }
  }

  /** From a new root, over any run without an uninstall: from the first settings
      on, every settings.json and every previous-settings.json has their profile
      and state home. */
  lemma IdentityOfARoot(w: Installation, disk: Disk, homes: map<string, string>, before: seq<Step>, later: seq<Step>)
    requires w == Run(New(disk, homes), before) && w.settings.Some?
    requires NoUninstall(before)
    requires NoUninstall(later)
    ensures Installed(Run(w, later), w.settings.value.profile, w.settings.value.stateHome)
  {
    assert Consistent(w) by {
      RunIsConsistent(New(disk, homes), before);
    }
    IdentityNeverChanges(w, later, w.settings.value.profile, w.settings.value.stateHome);
  }

  /** A completed rollback keeps the profile and the state home of settings.json
      exactly when the previous settings have them, and the state home exactly
      when the settings that the command loaded have it. */
  lemma RollbackKeepsIdentityIff(w: Installation, command: nat)
    requires Next(w, RollBack(command)).1 && w.settings.Some?
    ensures var before, after := w.settings.value, Next(w, RollBack(command)).0.settings.value;
            && (Identified(after, before.profile, before.stateHome)
                <==> Identified(w.previous.value, before.profile, before.stateHome))
            && (after.stateHome == before.stateHome <==> w.loaded[command].stateHome == before.stateHome)
  {
  }

  /** Uninstalls included, one step keeps all settings of one identity exactly
      when it is not a completed setup for another one. */
  lemma StepKeepsOneIdentityIff(w: Installation, step: Step, profile: string, home: string)
    requires OneIdentity(w, profile, home)
    ensures OneIdentity(Next(w, step).0, profile, home)
            <==>
            !(step.Setup? && Next(w, step).1 && !Identified(step.d.settings, profile, home))
  {
  }

  predicate SetUpAs(steps: seq<Step>, profile: string, home: string) {
    forall i :: 0 <= i < |steps| && steps[i].Setup? ==> Identified(steps[i].d.settings, profile, home)
  }

  lemma {:induction false} RunKeepsOneIdentity(w: Installation, steps: seq<Step>, profile: string, home: string)
    requires OneIdentity(w, profile, home) && SetUpAs(steps, profile, home)
    ensures OneIdentity(Run(w, steps), profile, home)
    decreases |steps|
  {
    if steps != [] {
      assert steps[0].Setup? ==> Identified(steps[0].d.settings, profile, home);
      StepKeepsOneIdentityIff(w, steps[0], profile, home);
      RunKeepsOneIdentity(Next(w, steps[0]).0, steps[1..], profile, home);
    }
  }

  /** When every setup of a root is for one profile and one state home, every
      completed rollback keeps both, whatever was uninstalled in between and
      however early its command loaded the settings. */
  lemma RollbackKeepsIdentity(w: Installation, disk: Disk, homes: map<string, string>, steps: seq<Step>, command: nat,
                              profile: string, home: string)
    requires w == Run(New(disk, homes), steps) && SetUpAs(steps, profile, home)
    requires w.settings.Some? && Next(w, RollBack(command)).1
    ensures Identified(w.settings.value, profile, home)
    ensures Identified(Next(w, RollBack(command)).0.settings.value, profile, home)
  {
    RunKeepsOneIdentity(New(disk, homes), steps, profile, home);
  }

  // Files.

  /** The release files of all settings that are in use or could be are there. */
  predicate ReleasesThere(s: Settings, disk: Disk) {
    forall name :: name in s.files && IsRelease(name) ==> name in disk && disk[name] == s.files[name]
  }

  predicate AllReleasesThere(w: Installation) {
    && (w.settings.Some? ==> ReleasesThere(w.settings.value, w.disk))
    && (w.previous.Some? ==> ReleasesThere(w.previous.value, w.disk))
    && (forall command :: command in w.loaded ==> ReleasesThere(w.loaded[command], w.disk))
  }

  /** Release files are never changed or removed. */
  lemma ReleasesNeverChange(w: Installation, step: Step, name: string)
    requires IsRelease(name) && name in w.disk
    ensures name in Next(w, step).0.disk && Next(w, step).0.disk[name] == w.disk[name]
  {
  }

  lemma StaysThere(s: Settings, w: Installation, step: Step)
    requires ReleasesThere(s, w.disk)
    ensures ReleasesThere(s, Next(w, step).0.disk)
  {
    forall name | name in s.files && IsRelease(name)
      ensures name in Next(w, step).0.disk && Next(w, step).0.disk[name] == s.files[name]
    {
      ReleasesNeverChange(w, step, name);
    }
  }

  /** The settings that a step puts in place have their release files. */
  lemma NewSettingsThere(w: Installation, step: Step)
    requires AllReleasesThere(w) && Next(w, step).0.settings.Some?
    ensures ReleasesThere(Next(w, step).0.settings.value, Next(w, step).0.disk)
  {
    if step.Setup? && Next(w, step).1 {
      CompletedIsSettled(w, step);
    } else if step.Activate? && Next(w, step).1 {
      forall name | name in step.proposed.files
        ensures name in w.disk && w.disk[name] == step.proposed.files[name]
      {
        assert FileFits(name, step.expected, step.proposed, w.disk);
      }
    } else if w.settings.Some? && Next(w, step).0.settings == w.settings {
      StaysThere(w.settings.value, w, step);
    }
  }

  lemma PreviousThere(w: Installation, step: Step)
    requires AllReleasesThere(w) && Next(w, step).0.previous.Some?
    ensures ReleasesThere(Next(w, step).0.previous.value, Next(w, step).0.disk)
  {
    if w.settings.Some? {
      StaysThere(w.settings.value, w, step);
    }
    if w.previous.Some? {
      StaysThere(w.previous.value, w, step);
    }
    if (step.RollBack? || step.RollBackStops?) && step.command in w.loaded {
      StaysThere(w.loaded[step.command], w, step);
    }
  }

  lemma LoadedThere(w: Installation, step: Step, command: nat)
    requires AllReleasesThere(w) && command in Next(w, step).0.loaded
    ensures ReleasesThere(Next(w, step).0.loaded[command], Next(w, step).0.disk)
  {
    if command in w.loaded {
      StaysThere(w.loaded[command], w, step);
    }
    if w.settings.Some? {
      StaysThere(w.settings.value, w, step);
    }
  }

  lemma StepKeepsReleases(w: Installation, step: Step)
    requires AllReleasesThere(w)
    ensures AllReleasesThere(Next(w, step).0)
  {
    var v := Next(w, step).0;
    if v.settings.Some? {
      NewSettingsThere(w, step);
    }
    if v.previous.Some? {
      PreviousThere(w, step);
    }
    forall command | command in v.loaded
      ensures ReleasesThere(v.loaded[command], v.disk)
    {
      LoadedThere(w, step, command);
    }
  }

  lemma {:induction false} RunKeepsReleases(w: Installation, steps: seq<Step>)
    requires AllReleasesThere(w)
    ensures AllReleasesThere(Run(w, steps))
    decreases |steps|
  {
    if steps != [] {
      StepKeepsReleases(w, steps[0]);
      RunKeepsReleases(Next(w, steps[0]).0, steps[1..]);
    }
  }

  /** Every file that settings.json names is there with its hash, and the
      approved roots are those of settings.json. */
  predicate Settled(w: Installation) {
    w.settings.Some? ==> Matches(w.settings.value.files, w.disk) && w.roots == Some(w.settings.value.roots)
  }

  /** The staging directory of an update as a setup leaves it. */
  predicate Staged(step: Step) { step.Activate? ==> step.stagedRoots == Some(step.proposed.roots) }

  /** Every setup, update and rollback that completes leaves the installation
      settled, whatever state it found. */
  lemma CompletedIsSettled(w: Installation, step: Step)
    requires Next(w, step).1 && Staged(step)
    ensures Settled(Next(w, step).0)
  {
    if step.Setup? {
      var files := step.d.settings.files;
      forall name | name in files
        ensures name in Next(w, step).0.disk && Next(w, step).0.disk[name] == files[name]
      {
        assert name in files.Keys;
      }
    } else if step.Activate? {
      forall name | name in step.proposed.files
        ensures name in w.disk && w.disk[name] == step.proposed.files[name]
      {
        assert FileFits(name, step.expected, step.proposed, w.disk);
      }
    }
  }

  /** A step that stops half way and may have changed what settings.json names. */
  predicate Stops(step: Step) { step.SetupStops? || step.RollBackStops? || step.UninstallStops? }

  /** Only such a step can unsettle an installation. */
  lemma OnlyStopsUnsettle(w: Installation, step: Step)
    requires Settled(w) && AllReleasesThere(w) && !Stops(step)
    ensures Settled(Next(w, step).0)
  {
    if step.Activate? && Next(w, step).1 {
      assert w.roots == Some(step.expected.roots) == Some(step.proposed.roots);
      CompletedIsSettled(w, step);
    } else if Next(w, step).1 {
      CompletedIsSettled(w, step);
    } else if step.Prepare? && w.settings.Some? {
      forall name | name in w.settings.value.files
        ensures name in Next(w, step).0.disk && Next(w, step).0.disk[name] == w.settings.value.files[name]
      {
        if IsRelease(name) {
          ReleasesNeverChange(w, step, name);
        }
      }
    }
  }

  lemma {:induction false} RunStaysSettled(w: Installation, steps: seq<Step>)
    requires Settled(w) && AllReleasesThere(w) && forall i :: 0 <= i < |steps| ==> !Stops(steps[i])
    ensures Settled(Run(w, steps)) && AllReleasesThere(Run(w, steps))
    decreases |steps|
  {
    if steps != [] {
      OnlyStopsUnsettle(w, steps[0]);
      StepKeepsReleases(w, steps[0]);
      RunStaysSettled(Next(w, steps[0]).0, steps[1..]);
    }
  }

  lemma SettledFrom(w: Installation, step: Step, later: seq<Step>)
    requires AllReleasesThere(w) && Next(w, step).1 && Staged(step)
    requires forall i :: 0 <= i < |later| ==> !Stops(later[i])
    ensures Settled(Run(Next(w, step).0, later))
  {
    StepKeepsReleases(w, step);
    CompletedIsSettled(w, step);
    RunStaysSettled(Next(w, step).0, later);
  }

  /** Over any run, however often operations stopped half way before: from the
      last completed operation on, every file that settings.json names is there
      with its hash. */
  lemma SettledSinceCompletion(w: Installation, disk: Disk, homes: map<string, string>, before: seq<Step>,
                               step: Step, later: seq<Step>)
    requires w == Run(New(disk, homes), before)
    requires Next(w, step).1 && Staged(step)
    requires forall i :: 0 <= i < |later| ==> !Stops(later[i])
    ensures Settled(Run(Next(w, step).0, later))
  {
    assert AllReleasesThere(w) by {
      RunKeepsReleases(New(disk, homes), before);
    }
    SettledFrom(w, step, later);
  }

  // Undoing.

  predicate MutablesThere(s: Settings, disk: Disk) {
    forall name :: name in s.files && !IsRelease(name) ==> name in disk && disk[name] == s.files[name]
  }

  /** In every run, a rollback works exactly when there are previous settings of
      the same state home whose commands are still the ones installed: release
      files are never in the way. */
  lemma RollbackWorksIff(disk: Disk, homes: map<string, string>, steps: seq<Step>, loaded: Settings)
    ensures var w := Run(New(disk, homes), steps);
            MayRollBack(w, loaded) <==>
            w.previous.Some? && w.previous.value.stateHome == loaded.stateHome && MutablesThere(w.previous.value, w.disk)
  {
    RunKeepsReleases(New(disk, homes), steps);
  }

  /** The installation after a run in which nothing stopped half way. */
  ghost predicate Whole(w: Installation, disk: Disk, homes: map<string, string>, steps: seq<Step>) {
    w == Run(New(disk, homes), steps) && forall i :: 0 <= i < |steps| ==> !Stops(steps[i])
  }

  /** After any whole run: a completed update can be rolled back at once, to the
      settings it replaced with manual updates. */
  lemma UpdateCanBeRolledBack(w: Installation, disk: Disk, homes: map<string, string>, steps: seq<Step>,
                              expected: Settings, proposed: Settings, stagedRoots: Option<string>)
    requires Whole(w, disk, homes, steps) && AfterActivate(w, expected, proposed, stagedRoots).1
    ensures var v := AfterActivate(w, expected, proposed, stagedRoots).0;
            AfterRollback(v, proposed) ==
            (v.(settings := Some(Manual(expected)), previous := Some(proposed), roots := Some(expected.roots)), true)
  {
    RunStaysSettled(New(disk, homes), steps);
  }

  /** After any whole run: two rollbacks restore the settings but for the update
      policy, and the roots and files; only the first can be refused. */
  lemma TwoRollbacksRestore(w: Installation, disk: Disk, homes: map<string, string>, steps: seq<Step>)
    requires Whole(w, disk, homes, steps) && w.settings.Some? && AfterRollback(w, w.settings.value).1
    ensures var current := w.settings.value;
            var v := AfterRollback(w, current).0;
            AfterRollback(v, v.settings.value) ==
            (w.(settings := Some(Manual(current)), previous := Some(Manual(w.previous.value))), true)
  {
    RunStaysSettled(New(disk, homes), steps);
    var current := w.settings.value;
    var v := AfterRollback(w, current).0;
    assert MayRollBack(v, v.settings.value);
    assert v.previous == Some(current) && w.roots == Some(current.roots);
  }

  /** In every run: after a setup that replaced settings, going back works exactly
      when the setup left their commands as they were. */
  lemma SetupCanBeRolledBackIff(disk: Disk, homes: map<string, string>, steps: seq<Step>, d: Draft)
    requires var w := Run(New(disk, homes), steps);
             AfterSetup(w, d).1 && w.settings.Some? && w.settings.value != Built(w, d)
    ensures var w := Run(New(disk, homes), steps);
            var v := AfterSetup(w, d).0;
            MayRollBack(v, v.settings.value) <==>
            forall name :: name in Mutable(w.settings.value.files) && name in d.settings.files ==>
                             d.settings.files[name] == w.settings.value.files[name]
  {
    var w := Run(New(disk, homes), steps);
    RunKeepsReleases(New(disk, homes), steps);
    var v := AfterSetup(w, d).0;
    var current := w.settings.value;
    assert v.previous == Some(current);
    StaysThere(current, w, Setup(d));
    forall name | name in Mutable(current.files)
      ensures name in v.disk
      ensures v.disk[name] == if name in d.settings.files then d.settings.files[name] else current.files[name]
    {
    }
  }

  /** A rollback that loaded the settings before an update committed writes
      those back as the previous ones: the updated settings are in neither file,
      and a second rollback does not bring them back. */
  lemma StaleRollbackForgets(w: Installation, disk: Disk, homes: map<string, string>, steps: seq<Step>,
                             expected: Settings, proposed: Settings, stagedRoots: Option<string>)
    requires Whole(w, disk, homes, steps) && AfterActivate(w, expected, proposed, stagedRoots).1
    ensures var v := AfterActivate(w, expected, proposed, stagedRoots).0;
            var (once, done) := AfterRollback(v, expected);
            var (twice, again) := AfterRollback(once, once.settings.value);
            && done && again
            && once.settings == Some(Manual(expected)) && once.previous == Some(expected)
            && twice.settings == Some(Manual(expected)) && twice.previous == Some(Manual(expected))
  {
    RunStaysSettled(New(disk, homes), steps);
    var v := AfterActivate(w, expected, proposed, stagedRoots).0;
    assert MayRollBack(v, expected);
    var once := AfterRollback(v, expected).0;
    assert MayRollBack(once, once.settings.value);
  }

  /** A rollback can itself be undone exactly when it loaded the settings that
      it replaces. */
  lemma RollbackUndoneIff(w: Installation, loaded: Settings)
    requires MayRollBack(w, loaded)
    ensures AfterRollback(w, loaded).0.previous == w.settings <==> w.settings == Some(loaded)
  {
  }

  /** After any whole run and a completed update: a rollback and a second one
      bring the updated settings back exactly when the first had loaded them, up
      to the update policy. */
  lemma UpdateReturnsIff(w: Installation, disk: Disk, homes: map<string, string>, steps: seq<Step>,
                         expected: Settings, proposed: Settings, stagedRoots: Option<string>, loaded: Settings)
    requires Whole(w, disk, homes, steps) && AfterActivate(w, expected, proposed, stagedRoots).1
    requires MayRollBack(AfterActivate(w, expected, proposed, stagedRoots).0, loaded)
    ensures var v := AfterActivate(w, expected, proposed, stagedRoots).0;
            var once := AfterRollback(v, loaded).0;
            var (twice, again) := AfterRollback(once, once.settings.value);
            again && twice.settings == Some(Manual(proposed)) <==> Manual(loaded) == Manual(proposed)
  {
    var v := AfterActivate(w, expected, proposed, stagedRoots).0;
    var once := AfterRollback(v, loaded).0;
    assert once.previous == Some(loaded) && once.settings == Some(Manual(expected)) && once.disk == w.disk;
    if Manual(loaded) == Manual(proposed) {
      assert loaded.files == proposed.files && loaded.stateHome == proposed.stateHome;
      ActivatedMatches(w, expected, proposed, stagedRoots);
      assert MayRollBack(once, once.settings.value);
    }
  }

  lemma ActivatedMatches(w: Installation, expected: Settings, proposed: Settings, stagedRoots: Option<string>)
    requires MayActivate(w, expected, proposed, stagedRoots)
    ensures Matches(proposed.files, w.disk) && proposed.stateHome == expected.stateHome
  {
    forall name | name in proposed.files
      ensures name in w.disk && w.disk[name] == proposed.files[name]
    {
      assert FileFits(name, expected, proposed, w.disk);
    }
  }

  lemma {:induction false} RunAppend(w: Installation, earlier: seq<Step>, later: seq<Step>)
    ensures Run(w, earlier + later) == Run(Run(w, earlier), later)
    decreases |earlier|
  {
    if earlier == [] {
      assert earlier + later == later;
    } else {
      RunAppend(Next(w, earlier[0]).0, earlier[1..], later);
      assert (earlier + later)[1..] == earlier[1..] + later;
    }
  }

  lemma RunOne(w: Installation, step: Step)
    ensures Run(w, [step]) == Next(w, step).0
  {
    assert [step][1..] == [];
  }

  lemma DispatchInstalled(w: Installation, d: Draft)
    requires d.settings.files == map["dispatch.py" := "d"]
    requires if w.settings.Some? then MayReplace(w, d) && w.disk == d.settings.files else w.disk == map[]
    ensures AfterSetup(w, d).1 && AfterSetup(w, d).0.disk == d.settings.files
  {
  }

  lemma TwoSetups(first: Settings, again: Settings)
    requires first.files == map["dispatch.py" := "d"] && again == first.(tuning := again.tuning) && again.tuning != first.tuning
    requires first.account == None
    ensures var w := Run(New(map[], map[]), [Setup(Draft(first, None, None)), Setup(Draft(again, None, None))]);
            && w.settings.Some? && w.disk == first.files && w.previous.Some?
            && w.settings.value.files == first.files && w.settings.value.stateHome == first.stateHome
            && w.previous.value.files == first.files && Identified(w.previous.value, first.profile, first.stateHome)
  {
    var one, two := Setup(Draft(first, None, None)), Setup(Draft(again, None, None));
    var w0 := New(map[], map[]);
    DispatchInstalled(w0, one.d);
    var w1 := Next(w0, one).0;
    DispatchInstalled(w1, two.d);
    var w2 := Next(w1, two).0;
    assert w2.previous == w1.settings;
    RunOne(w0, one);
    RunOne(w1, two);
    assert [one, two] == [one] + [two];
    RunAppend(w0, [one], [two]);
  }

  lemma NothingLeft(files: map<string, string>)
    requires files == map["dispatch.py" := "d"]
    ensures files - Mutable(files) == map[]
  {
    assert "dispatch.py"[0] != RELEASES[0];
    assert "dispatch.py" in Mutable(files);
  }

  lemma Uninstalled(w: Installation)
    requires w.settings.Some? && 0 in w.loaded && w.loaded[0] == w.settings.value && w.disk == w.settings.value.files
    ensures Next(w, Uninstall(0)).0 == w.(settings := None, disk := w.disk - Mutable(w.disk))
  {
  }

  lemma LoadedThenUninstalled(w: Installation)
    requires w.settings.Some? && w.disk == w.settings.value.files == map["dispatch.py" := "d"]
    ensures var v := Run(w, [Load(0), Uninstall(0)]);
            && v.settings.None? && v.disk == map[] && v.previous == w.previous
            && 0 in v.loaded && v.loaded[0] == w.settings.value
  {
    var v := w.(loaded := w.loaded[0 := w.settings.value]);
    assert Next(w, Load(0)).0 == v;
    Uninstalled(v);
    NothingLeft(w.disk);
    RunOne(w, Load(0));
    RunOne(v, Uninstall(0));
    assert [Load(0), Uninstall(0)] == [Load(0)] + [Uninstall(0)];
    RunAppend(w, [Load(0)], [Uninstall(0)]);
  }

  /** Two setups, then an uninstall: the first settings stay as the previous ones. */
  lemma UninstallKeepsPrevious(first: Settings, again: Settings)
    requires first.files == map["dispatch.py" := "d"] && again == first.(tuning := again.tuning) && again.tuning != first.tuning
    requires first.account == None
    ensures var w := Run(New(map[], map[]), [Setup(Draft(first, None, None)), Setup(Draft(again, None, None))] + [Load(0), Uninstall(0)]);
            && w.settings.None? && w.disk == map[] && w.previous.Some?
            && w.previous.value.files == first.files && Identified(w.previous.value, first.profile, first.stateHome)
            && 0 in w.loaded && w.loaded[0].stateHome == first.stateHome
  {
    var setups := [Setup(Draft(first, None, None)), Setup(Draft(again, None, None))];
    TwoSetups(first, again);
    LoadedThenUninstalled(Run(New(map[], map[]), setups));
    RunAppend(New(map[], map[]), setups, [Load(0), Uninstall(0)]);
  }

  lemma SetupAfterUninstall(w: Installation, other: Settings)
    requires w.settings.None? && w.disk == map[] && w.previous.Some? && other.files == map["dispatch.py" := "d"]
    requires w.previous.value.files == other.files && w.previous.value.stateHome == other.stateHome
    ensures var v := Run(w, [Setup(Draft(other, None, None))] + [Load(1), RollBack(1)]);
            v.settings == Some(Manual(w.previous.value)) && v.previous.Some? && v.previous.value.profile == other.profile
  {
    var five, six, seven := Setup(Draft(other, None, None)), Load(1), RollBack(1);
    DispatchInstalled(w, five.d);
    var w5 := Next(w, five).0;
    var w6 := Next(w5, six).0;
    assert MayRollBack(w6, w6.loaded[1]);
    RunOne(w, five);
    RunOne(w5, six);
    RunOne(w6, seven);
    assert [six, seven] == [six] + [seven];
    RunAppend(w5, [six], [seven]);
    RunAppend(w, [five], [six, seven]);
  }

  /** An uninstall keeps the previous settings. A later setup of the same root
      and state home for another profile can then be rolled back into the old
      profile. */
  lemma RollbackAfterUninstallChangesProfile(first: Settings, other: Settings)
    requires first.files == map["dispatch.py" := "d"] && other.files == first.files && first.account == None
    requires other.stateHome == first.stateHome && other.profile != first.profile
    ensures var again := first.(tuning := first.tuning + "'");
            var w := Run(New(map[], map[]), ([Setup(Draft(first, None, None)), Setup(Draft(again, None, None))] + [Load(0), Uninstall(0)])
                                            + ([Setup(Draft(other, None, None))] + [Load(1), RollBack(1)]));
            w.settings.Some? && w.settings.value.profile == first.profile
            && w.previous.Some? && w.previous.value.profile == other.profile
  {
    var again := first.(tuning := first.tuning + "'");
    assert |first.tuning + "'"| != |first.tuning|;
    UninstallKeepsPrevious(first, again);
    var before := [Setup(Draft(first, None, None)), Setup(Draft(again, None, None))] + [Load(0), Uninstall(0)];
    SetupAfterUninstall(Run(New(map[], map[]), before), other);
    RunAppend(New(map[], map[]), before, [Setup(Draft(other, None, None))] + [Load(1), RollBack(1)]);
  }

  lemma MovesBack(w: Installation, other: Settings)
    requires w.settings.None? && w.disk == map[] && w.previous.Some? && other.files == map["dispatch.py" := "d"]
    requires w.previous.value.files == other.files && 0 in w.loaded && w.loaded[0].stateHome == w.previous.value.stateHome
    ensures var installed := Run(w, [Setup(Draft(other, None, None))]);
            var rolledBack := Run(w, [Setup(Draft(other, None, None))] + [RollBack(0)]);
            && installed.settings.Some? && installed.settings.value.stateHome == other.stateHome
            && rolledBack.settings == Some(Manual(w.previous.value))
  {
    var five, six := Setup(Draft(other, None, None)), RollBack(0);
    DispatchInstalled(w, five.d);
    var w5 := Next(w, five).0;
    assert MayRollBack(w5, w5.loaded[0]);
    RunOne(w, five);
    RunOne(w5, six);
    RunAppend(w, [five], [six]);
  }

  /** A rollback that loaded its settings before the root was uninstalled and set
      up for another state home moves settings.json back to the old one. */
  lemma StaleRollbackMovesHome(first: Settings, other: Settings)
    requires first.files == map["dispatch.py" := "d"] && other.files == first.files && first.account == None
    requires other.stateHome != first.stateHome
    ensures var again := first.(tuning := first.tuning + "'");
            var before := [Setup(Draft(first, None, None)), Setup(Draft(again, None, None))] + [Load(0), Uninstall(0)];
            var installed := Run(New(map[], map[]), before + [Setup(Draft(other, None, None))]);
            var rolledBack := Run(New(map[], map[]), before + ([Setup(Draft(other, None, None))] + [RollBack(0)]));
            && installed.settings.Some? && installed.settings.value.stateHome == other.stateHome
            && rolledBack.settings.Some? && rolledBack.settings.value.stateHome == first.stateHome
  {
    var again := first.(tuning := first.tuning + "'");
    assert |first.tuning + "'"| != |first.tuning|;
    UninstallKeepsPrevious(first, again);
    var before := [Setup(Draft(first, None, None)), Setup(Draft(again, None, None))] + [Load(0), Uninstall(0)];
    MovesBack(Run(New(map[], map[]), before), other);
    RunAppend(New(map[], map[]), before, [Setup(Draft(other, None, None))]);
    RunAppend(New(map[], map[]), before, [Setup(Draft(other, None, None))] + [RollBack(0)]);
  }

  /** A second setup whose launch prefix changes the command: its replaced
      settings cannot be rolled back to. */
  lemma ChangedCommandBlocksRollback(first: Settings, second: Settings)
    requires first.files == map["bin/codex" := "plain"] && second.files == map["bin/codex" := "prefixed"]
    requires first.profile == second.profile && first.stateHome == second.stateHome && first.account == None
    ensures var w := Run(New(map[], map[]), [Setup(Draft(first, None, None))] + [Setup(Draft(second, None, None))]);
            && w.settings.Some? && w.settings.value.files == second.files
            && w.previous.Some? && w.previous.value.files == first.files
            && !MayRollBack(w, w.settings.value)
  {
    var one, two := Setup(Draft(first, None, None)), Setup(Draft(second, None, None));
    assert "bin/codex"[0] != RELEASES[0];
    assert !IsRelease("bin/codex");
    var w0 := New(map[], map[]);
    var w1 := Next(w0, one).0;
    assert w1.disk == first.files && w1.settings.Some? && w1.settings.value.files == first.files;
    var w2 := Next(w1, two).0;
    assert w2.disk == second.files;
    assert first.files["bin/codex"] == "plain" && |"plain"| != |"prefixed"|;
    RunOne(w0, one);
    RunOne(w1, two);
    RunAppend(w0, [one], [two]);
  }
}
