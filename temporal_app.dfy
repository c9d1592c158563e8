/** The temporary pin of the dock (Seelenweg): `TemporalApp.clean`, which
    normalises a running application's record in place, and
    `TemporalApp.fromBackground`, which projects it into a pinned item. */
module TemporalApp {
  import opened Wrappers
  import opened Text
  import opened Platform

  /** A window handle. */
  type Hwnd = int

  /** The fields of an `AppFromBackground` record, as a value. */
  datatype AppRecord = AppRecord(
    exe: Path,
    executionPath: string,
    iconPath: Path,
    icon: Option<string>,
    hwnd: Hwnd)

  /** A running application as the background service reports it; `Clean`
      updates its fields in place. */
  class AppFromBackground {
    var exe: Path
    var executionPath: string
    var iconPath: Path
    var icon: Option<string>
    var hwnd: Hwnd

    constructor (r: AppRecord)
      ensures Record() == r
    {
      exe, executionPath, iconPath, icon, hwnd := r.exe, r.executionPath, r.iconPath, r.icon, r.hwnd;
    }

    /** The record's current fields. */
    function Record(): AppRecord
      reads this
    {
      AppRecord(exe, executionPath, iconPath, icon, hwnd)
    }
  }

  datatype SpecialItemType = TemporalPin

  /** A dock item for an application that is running but not pinned. */
  datatype TemporalApp = TemporalApp(
    kind: SpecialItemType,
    icon: string,
    iconPath: Path,
    exe: Path,
    executionPath: string,
    title: string,
    opens: seq<Hwnd>)

  /** The package query found a record whose `AppId` is a string. */
  predicate IsPackaged(lookup: Lookup) {
    lookup.Found? && lookup.info.appId.Some?
  }

  /** The shell alias that launches a packaged application by identity. */
  function ShellAlias(info: UwpInfo): string
    requires info.appId.Some?
  {
    "shell:AppsFolder\\" + info.name + "_" + info.publisherId + "!" + info.appId.value
  }

  /** The three logo files a package may ship. */
  datatype LogoCandidates = LogoCandidates(base: Path, scale200: Path, scale400: Path)

  /** The three logo paths under the install location: the scaled names
      replace only the first ".png" of `logo`, and equal the base name when
      it has none. */
  function Candidates(installLocation: Path, logo: string): (c: LogoCandidates)
    ensures c.base == installLocation + "\\" + logo
    ensures (forall j: nat :: !OccursAt(logo, ".png", j)) ==> c.scale200 == c.base && c.scale400 == c.base
    ensures forall i: nat :: FirstOccurrence(logo, ".png", i) ==>
              c.scale200 == installLocation + "\\" + logo[..i] + ".scale-200.png" + logo[i + 4..] &&
              c.scale400 == installLocation + "\\" + logo[..i] + ".scale-400.png" + logo[i + 4..]
  {
    ScaledName(installLocation, logo, ".scale-200.png");
    ScaledName(installLocation, logo, ".scale-400.png");
    LogoCandidates(
      installLocation + "\\" + logo,
      installLocation + "\\" + ReplaceFirst(logo, ".png", ".scale-200.png"),
      installLocation + "\\" + ReplaceFirst(logo, ".png", ".scale-400.png"))
  }

  /** A scaled logo path replaces the first ".png" of the logo name, and
      is the base path when the name has none. */
  lemma ScaledName(installLocation: Path, logo: string, suffix: string)
    ensures (forall j: nat :: !OccursAt(logo, ".png", j)) ==>
              installLocation + "\\" + ReplaceFirst(logo, ".png", suffix) == installLocation + "\\" + logo
    ensures forall i: nat :: FirstOccurrence(logo, ".png", i) ==>
              installLocation + "\\" + ReplaceFirst(logo, ".png", suffix) ==
              installLocation + "\\" + logo[..i] + suffix + logo[i + 4..]
  {
    forall i: nat | FirstOccurrence(logo, ".png", i)
      ensures installLocation + "\\" + ReplaceFirst(logo, ".png", suffix) ==
              installLocation + "\\" + logo[..i] + suffix + logo[i + 4..]
    {
      assert ReplaceFirst(logo, ".png", suffix) == logo[..i] + suffix + logo[i + 4..];
    }
  }

  /** The order in which the candidates are tried: sharpest first. */
  function Priority(c: LogoCandidates): seq<Path> {
    [c.scale400, c.scale200, c.base]
  }

  /** The index of the first path of `ps` that exists, or `|ps|` when none does. */
  function FirstExisting(ps: seq<Path>, files: map<Path, Bytes>): (k: nat)
    ensures k <= |ps|
    ensures k < |ps| ==> ps[k] in files
    ensures forall j :: 0 <= j < k ==> ps[j] !in files
  {
    if ps == [] then 0
    else if ps[0] in files then 0
    else 1 + FirstExisting(ps[1..], files)
  }

  /** The logo that is copied: the 400% one if it exists, else the 200% one,
      else the base one, else none. */
  function ChosenLogo(c: LogoCandidates, files: map<Path, Bytes>): (src: Option<Path>)
    ensures c.scale400 in files ==> src == Some(c.scale400)
    ensures c.scale400 !in files && c.scale200 in files ==> src == Some(c.scale200)
    ensures c.scale400 !in files && c.scale200 !in files && c.base in files ==> src == Some(c.base)
    ensures c.scale400 !in files && c.scale200 !in files && c.base !in files ==> src == None
  {
    var ps := Priority(c);
    assert ps[0] == c.scale400 && ps[1] == c.scale200 && ps[2] == c.base;
    var k := FirstExisting(ps, files);
    if k < |ps| then Some(ps[k]) else None
  }

  /** The logo the package step copies, if any: none when the record's `Logo`
      is not a string, since `Logo.replace` throws before any copy. */
  function LogoSource(info: UwpInfo, files: map<Path, Bytes>): Option<Path> {
    match info.logo
    case None => None
    case Some(logo) => ChosenLogo(Candidates(info.installLocation, logo), files)
  }

  /** The files after the package step: at most one logo is copied onto
      `iconPath`, and only for a packaged application. */
  function FilesAfterPackageStep(lookup: Lookup, iconPath: Path, files: map<Path, Bytes>, denied: set<Path>): map<Path, Bytes> {
    if IsPackaged(lookup) then
      match LogoSource(lookup.info, files)
      case None => files
      case Some(src) => Copy(files, denied, src, iconPath)
    else files
  }

  /** The record and the files after `clean`. */
  datatype CleanResult = CleanResult(item: AppRecord, files: map<Path, Bytes>)

  /** What `clean` does to the record `r` and the files. */
  function Cleaned(r: AppRecord, files: map<Path, Bytes>, denied: set<Path>, ports: Ports): (c: CleanResult)
    // Identity fields are never touched.
    ensures c.item.exe == r.exe && c.item.hwnd == r.hwnd
    // The execution path becomes the shell alias exactly for a packaged application,
    // whether or not the logo copy that follows succeeds.
    ensures var l := ports.uwpInfo(r.exe);
            IsPackaged(l) ==>
              c.item.executionPath == "shell:AppsFolder\\" + l.info.name + "_" + l.info.publisherId + "!" + l.info.appId.value
    ensures !IsPackaged(ports.uwpInfo(r.exe)) ==> c.item.executionPath == r.executionPath && c.files == files
    // Only the record's own icon path can be written, and nothing is removed.
    ensures forall p :: p in files && p != r.iconPath ==> p in c.files && c.files[p] == files[p]
    ensures c.files.Keys == files.Keys || c.files.Keys == files.Keys + {r.iconPath}
    ensures r.iconPath in denied ==> c.files == files
    // A `Logo` that is not a string makes `Logo.replace` throw before any copy.
    ensures var l := ports.uwpInfo(r.exe); IsPackaged(l) && l.info.logo.None? ==> c.files == files
    ensures c.files != files ==>
              r.iconPath in c.files && exists src :: src in files && c.files[r.iconPath] == files[src]
    // The icon path names an existing file, or else the bundled default.
    ensures c.item.iconPath in c.files || c.item.iconPath == MissingIconPath(ports.resourceDir)
    ensures r.iconPath in c.files ==> c.item.iconPath == r.iconPath
    ensures r.iconPath !in c.files ==> c.item.iconPath == MissingIconPath(ports.resourceDir)
    // The icon is always set: the inline image, or the asset URL when encoding rejects.
    ensures var url := ports.convertFileSrc(c.item.iconPath);
            c.item.icon.Some? &&
            (ports.imageBase64(url, c.files).None? ==> c.item.icon.value == url) &&
            (ports.imageBase64(url, c.files).Some? ==> c.item.icon.value == ports.imageBase64(url, c.files).value)
  {
    var lookup := ports.uwpInfo(r.exe);
    var executionPath := if IsPackaged(lookup) then ShellAlias(lookup.info) else r.executionPath;
    var after := FilesAfterPackageStep(lookup, r.iconPath, files, denied);
    var iconPath := if r.iconPath in after then r.iconPath else MissingIconPath(ports.resourceDir);
    var url := ports.convertFileSrc(iconPath);
    var icon := ports.imageBase64(url, after).GetOr(url);
    CleanResult(r.(executionPath := executionPath, iconPath := iconPath, icon := Some(icon)), after)
  }

  /** `TemporalApp.clean(item)`: the package step (a failed lookup or a
      rejected copy is caught and the method carries on), then the default
      icon path, then the icon. Returns the same object it was given. */
  method Clean(item: AppFromBackground, fs: FileSystem, ports: Ports) returns (res: AppFromBackground)
    modifies item, fs
    ensures res == item
    ensures item.Record() == Cleaned(old(item.Record()), old(fs.files), fs.denied, ports).item
    ensures fs.files == Cleaned(old(item.Record()), old(fs.files), fs.denied, ports).files
  {
    ghost var r0, files0 := item.Record(), fs.files;
    // Lines 16-34: the package step.
    var lookup := ports.uwpInfo(item.exe);
    if lookup.Found? && lookup.info.appId.Some? {
      var info := lookup.info;
      item.executionPath := "shell:AppsFolder\\" + info.name + "_" + info.publisherId + "!" + info.appId.value;
      // A `Logo` that is not a string makes `Logo.replace` throw: nothing is copied.
      if info.logo.Some? {
        var c := Candidates(info.installLocation, info.logo.value);
        ghost var src := ChosenLogo(c, fs.files);
        var copied;
        if fs.Exists(c.scale400) {
          copied := fs.CopyFile(c.scale400, item.iconPath);
        } else if fs.Exists(c.scale200) {
          copied := fs.CopyFile(c.scale200, item.iconPath);
        } else if fs.Exists(c.base) {
          copied := fs.CopyFile(c.base, item.iconPath);
        }
        assert src == LogoSource(info, files0);
      }
    }
    assert fs.files == FilesAfterPackageStep(lookup, r0.iconPath, files0, fs.denied);
    assert item.Record() == r0.(executionPath := if IsPackaged(lookup) then ShellAlias(lookup.info) else r0.executionPath);
    // Lines 36-43: the default icon path.
    if !fs.Exists(item.iconPath) {
      item.iconPath := MissingIconPath(ports.resourceDir);
    }
    // Lines 45-49: the icon.
    var url := ports.convertFileSrc(item.iconPath);
    var encoded := ports.imageBase64(url, fs.files);
    match encoded {
      case Some(data) => item.icon := Some(data);
      case None => item.icon := Some(url);
    }
    res := item;
  }

  /** The title of a temporary pin: the last backslash-separated segment of
      the executable path, or "Unknown" when that segment is empty. */
  function Title(exe: Path): (t: string)
    ensures t != "" && '\\' !in t
    ensures exe == "" || exe[|exe| - 1] == '\\' ==> t == "Unknown"
    ensures exe != "" && exe[|exe| - 1] != '\\' ==>
              |t| <= |exe| && exe[|exe| - |t|..] == t && (|t| == |exe| || exe[|exe| - |t| - 1] == '\\')
  {
    var last := LastSegment(exe, '\\');
    if last == "" then "Unknown" else last
  }

  /** `TemporalApp.fromBackground(item)`. */
  function FromBackground(r: AppRecord): (t: TemporalApp)
    ensures t.kind == TemporalPin
    ensures t.opens == [r.hwnd]
    ensures t.title == Title(r.exe)
    ensures t.icon == (if r.icon.Some? then r.icon.value else "")
    ensures t.iconPath == r.iconPath && t.exe == r.exe && t.executionPath == r.executionPath
  {
    TemporalApp(TemporalPin, r.icon.GetOr(""), r.iconPath, r.exe, r.executionPath, Title(r.exe), [r.hwnd])
  }
}
