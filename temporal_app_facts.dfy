/** Properties of the temporary-pin model that relate several calls or
    several inputs: the scaled logo names, the logo priority, what a second
    `clean` does, and the title of typical executable paths. */
module TemporalAppFacts {
  import opened Wrappers
  import opened Text
  import opened Platform
  import opened TemporalApp

  /** For a packaged application with a string `Logo` and a writable icon
      path, `clean` copies the sharpest logo that exists onto the icon path,
      and copies nothing when none exists. */
  lemma LogoCopyPriority(r: AppRecord, files: map<Path, Bytes>, denied: set<Path>, ports: Ports)
    requires IsPackaged(ports.uwpInfo(r.exe)) && ports.uwpInfo(r.exe).info.logo.Some?
    requires r.iconPath !in denied
    ensures var info := ports.uwpInfo(r.exe).info;
            var c := Candidates(info.installLocation, info.logo.value);
            var after := Cleaned(r, files, denied, ports).files;
            (c.scale400 in files ==> after == files[r.iconPath := files[c.scale400]]) &&
            (c.scale400 !in files && c.scale200 in files ==> after == files[r.iconPath := files[c.scale200]]) &&
            (c.scale400 !in files && c.scale200 !in files && c.base in files ==> after == files[r.iconPath := files[c.base]]) &&
            (c.scale400 !in files && c.scale200 !in files && c.base !in files ==> after == files)
  {
  }

  /** Whether the lookup rejected, found nothing or found a record without a
      string `AppId` cannot be told apart from the result of `clean`. */
  lemma UnpackagedOutcomesAgree(r: AppRecord, files: map<Path, Bytes>, denied: set<Path>, ports: Ports, lookup: Path -> Lookup)
    requires !IsPackaged(ports.uwpInfo(r.exe)) && !IsPackaged(lookup(r.exe))
    ensures Cleaned(r, files, denied, ports) == Cleaned(r, files, denied, ports.(uwpInfo := lookup))
  {
  }

  /** An icon path that exists before `clean` is kept. */
  lemma ExistingIconPathKept(r: AppRecord, files: map<Path, Bytes>, denied: set<Path>, ports: Ports)
    requires r.iconPath in files
    ensures Cleaned(r, files, denied, ports).item.iconPath == r.iconPath
  {
  }

  /** A second `clean` of a cleaned record leaves its icon path and its
      execution path as the first one set them. */
  lemma RecleanKeepsPaths(r: AppRecord, files: map<Path, Bytes>, denied: set<Path>, ports: Ports)
    ensures var first := Cleaned(r, files, denied, ports);
            var second := Cleaned(first.item, first.files, denied, ports);
            second.item.iconPath == first.item.iconPath &&
            second.item.executionPath == first.item.executionPath
  {
  }

  /** Unless the record's icon path is missing and refuses writes, a second
      `clean` of a cleaned record changes nothing: neither the record nor
      the files. */
  lemma {:induction false} RecleanIsIdempotent(r: AppRecord, files: map<Path, Bytes>, denied: set<Path>, ports: Ports)
    requires r.iconPath in files || r.iconPath !in denied
    ensures var first := Cleaned(r, files, denied, ports);
            Cleaned(first.item, first.files, denied, ports) == first
  {
    var first := Cleaned(r, files, denied, ports);
    var lookup := ports.uwpInfo(r.exe);
    var ip := first.item.iconPath;
    var again := FilesAfterPackageStep(lookup, ip, first.files, denied);
    if IsPackaged(lookup) && lookup.info.logo.Some? {
      var info := lookup.info;
      var c := Candidates(info.installLocation, info.logo.value);
      match ChosenLogo(c, files)
      case None =>
        assert first.files == files;
      case Some(p) =>
        if CopySucceeds(files, denied, p, r.iconPath) {
          assert ip == r.iconPath && first.files == files[ip := files[p]];
          var ps := Priority(c);
          var k := FirstExisting(ps, files);
          var k2 := FirstExisting(ps, first.files);
          assert ps[0] == c.scale400 && ps[1] == c.scale200 && ps[2] == c.base;
          assert k < 3 && ps[k] == p;
          // A candidate that did not exist before can only be the icon path itself.
          assert k2 <= k;
          assert ps[k2] == ip || ps[k2] == p;
          assert ChosenLogo(c, first.files) == Some(ps[k2]);
        } else {
          assert ip == r.iconPath && r.iconPath in denied;
        }
    }
    assert again == first.files;
  }

  /** A second `clean` of a record whose icon path refused the copy writes
      the package logo over the bundled default icon, when that one accepts
      writes: repeating `clean` is not free of effects. */
  lemma RecleanAfterRefusedCopyOverwritesDefault(r: AppRecord, files: map<Path, Bytes>, denied: set<Path>, ports: Ports)
    requires IsPackaged(ports.uwpInfo(r.exe)) && ports.uwpInfo(r.exe).info.logo.Some?
    requires var info := ports.uwpInfo(r.exe).info;
             ChosenLogo(Candidates(info.installLocation, info.logo.value), files).Some?
    requires r.iconPath in denied && r.iconPath !in files
    requires MissingIconPath(ports.resourceDir) !in denied
    ensures var info := ports.uwpInfo(r.exe).info;
            var src := ChosenLogo(Candidates(info.installLocation, info.logo.value), files).value;
            var first := Cleaned(r, files, denied, ports);
            var second := Cleaned(first.item, first.files, denied, ports);
            first.files == files &&
            first.item.iconPath == MissingIconPath(ports.resourceDir) &&
            second.files == files[MissingIconPath(ports.resourceDir) := files[src]]
  {
  }

  /** A packaged application that ships only its base logo: the base logo is
      copied onto the icon path, which then exists and is kept; the
      execution path is the shell alias; the pin opens exactly the
      originating window. */
  lemma OnlyBaseLogoScenario(r: AppRecord, files: map<Path, Bytes>, denied: set<Path>, ports: Ports)
    requires IsPackaged(ports.uwpInfo(r.exe)) && ports.uwpInfo(r.exe).info.logo.Some?
    requires var info := ports.uwpInfo(r.exe).info;
             var c := Candidates(info.installLocation, info.logo.value);
             c.scale400 !in files && c.scale200 !in files && c.base in files
    requires r.iconPath !in denied
    ensures var info := ports.uwpInfo(r.exe).info;
            var c := Candidates(info.installLocation, info.logo.value);
            var out := Cleaned(r, files, denied, ports);
            var pin := FromBackground(out.item);
            out.files == files[r.iconPath := files[c.base]] &&
            out.item.iconPath == r.iconPath && r.iconPath in out.files &&
            out.item.executionPath == "shell:AppsFolder\\" + info.name + "_" + info.publisherId + "!" + info.appId.value &&
            pin.opens == [r.hwnd] && pin.iconPath == r.iconPath
  {
  }

  /** Titles of typical executable paths. */
  lemma TitleExamples()
    ensures Title("C:\\a\\b\\App.exe") == "App.exe"
    ensures Title("App.exe") == "App.exe"
    ensures Title("") == "Unknown"
    ensures Title("C:\\a\\") == "Unknown"
  {
    assert "C:\\a\\b\\App.exe" == "C:\\a\\b" + ['\\'] + "App.exe";
    LastSegmentOfPath("C:\\a\\b", '\\', "App.exe");
    LastSegmentOfName("App.exe", '\\');
  }
}
