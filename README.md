# Temporary pins of the Seelen UI dock

The dock (Seelenweg) shows applications that are running but not pinned as
*temporary pins*. Two static operations of `TemporalApp` produce them:

- **`clean(item)`** normalises a running application's record in place. It
  asks the package metadata service about the executable. For a packaged
  (UWP) application whose `AppId` is a string, it rewrites the execution path
  to the `shell:AppsFolder\Name_PublisherId!AppId` alias. It then copies the
  sharpest shipped logo onto the record's icon path: the 400% variant, else
  the 200% variant, else the base logo. Any failure in that step is caught.
  If the icon path still names no file, it falls back to the bundled
  `static\icons\missing.png`. Finally it sets `icon` to the inline image of
  that file, or to its asset URL when encoding fails.
- **`fromBackground(item)`** projects the record into a dock item of kind
  `TemporalPin`. The title is the last backslash-separated segment of the
  executable path, or `Unknown` when that segment is empty. `opens` holds
  exactly the originating window handle.

Layout:

- `wrappers.dfy`: `Option`.
- `text.dfy`: the JavaScript string operations used. These are `replace`
  with a string pattern (first occurrence only; `IndexFrom` is the search it
  performs), `split` (with `join` as its inverse) and `at(-1)`.
- `platform.dfy`: the ports. There is the package query (`Found`, `NotFound`,
  `Failed`), the resource directory, `convertFileSrc`, the image encoder, and
  a `FileSystem` class holding a path-to-bytes map with `Exists` and
  `CopyFile`. `CopyFile` rejects when the source is missing or the
  destination is in the set of paths that refuse writes.
- `temporal_app.dfy`: the record as a class `AppFromBackground` and as a
  value `AppRecord`. It holds the method `Clean`, which mutates the record
  and the filesystem. `Clean` is proved equal to the specification function
  `Cleaned`, whose contract states the promised postconditions. It also
  holds `Title` and `FromBackground`.
- `temporal_app_facts.dfy`: lemmas that relate several calls or inputs:
  logo priority, indistinguishable lookup failures, re-cleaning, the
  "only base logo" scenario and title examples.

Behaviour of the code worth knowing, all of it modelled as written:

- The alias rewrite happens as soon as the lookup yields a string `AppId`.
  A later failure in the same `try` does not undo it. That failure can be a
  `Logo` that is not a string, where `Logo.replace` throws, or a rejected
  `copyFile`.
- The logo is copied even when it is the icon path itself. There is no
  "differs from the target" check.
- An icon path that already exists is kept even when no logo was found. The
  bundled default replaces only a path that names no file.
- Re-cleaning a cleaned record can write somewhere other than the record's
  own icon path. Take a packaged application with a string `Logo` and at
  least one existing logo, whose icon path names no file and refuses writes.
  The first `clean` has its copy refused and replaces the icon path by the
  bundled default. If `missing.png` accepts writes, a second `clean` then
  copies the package logo over it (`RecleanAfterRefusedCopyOverwritesDefault`).
  An icon path that exists but refuses writes is kept instead, and nothing is
  overwritten.
  Suppose the package query and the image encoder answer the second run as
  they answered the first. Then the icon path and the execution path never
  change on a second run (`RecleanKeepsPaths`). In every other case, that is
  when the record's icon path exists or accepts writes, the second run changes
  nothing at all (`RecleanIsIdempotent`).

## Model

| member | source | states |
|---|---|---|
| Text.IndexFrom | src/apps/seelenweg/modules/item/app/TemporalApp.ts:21-22 | the search inside `replace`, for a start within the string: the index found is an occurrence of the pattern at or after the start, and no earlier one exists; none means no occurrence at all |
| Text.ReplaceFirst | src/apps/seelenweg/modules/item/app/TemporalApp.ts:21-22 | `replace` with a string pattern returns the input when the pattern does not occur, and otherwise replaces exactly the first occurrence |
| Text.Split | src/apps/seelenweg/modules/item/app/TemporalApp.ts:61 | `split` yields at least one part, no part holds the separator, and joining the parts restores the input |
| Text.SplitLastIsSuffix | src/apps/seelenweg/modules/item/app/TemporalApp.ts:61 | the last part of `split` is a suffix of the input that starts the input or follows a separator |
| Text.LastSegment | src/apps/seelenweg/modules/item/app/TemporalApp.ts:61 | `split(sep).at(-1)` is the longest separator-free suffix of the input |
| Text.LastSegmentOfPath | src/apps/seelenweg/modules/item/app/TemporalApp.ts:61 | the last segment of `dir\name` is `name` for any directory |
| Text.LastSegmentOfName | src/apps/seelenweg/modules/item/app/TemporalApp.ts:61 | a string without separator is its own last segment |
| Platform.Copy | src/apps/seelenweg/modules/item/app/TemporalApp.ts:25-29 | a successful copy gives the destination the source's bytes, a rejected one changes nothing, and no other path changes |
| Platform.FileSystem.CopyFile | src/apps/seelenweg/modules/item/app/TemporalApp.ts:25-29 | reports whether the copy succeeded and leaves the files as `Copy` describes |
| TemporalApp.ScaledName | src/apps/seelenweg/modules/item/app/TemporalApp.ts:21-22 | a scaled logo path replaces only the first `.png` of the logo name by the scale suffix, and equals the base path when the name has no `.png` |
| TemporalApp.Candidates | src/apps/seelenweg/modules/item/app/TemporalApp.ts:20-22 | the base candidate is the install location, a backslash and the logo name; with no `.png` in the name both scaled candidates equal the base; otherwise only the first `.png` is replaced, by `.scale-200.png` and `.scale-400.png` |
| TemporalApp.FirstExisting | src/apps/seelenweg/modules/item/app/TemporalApp.ts:24-30 | the index returned names an existing path and every earlier path is missing; the length means none exists |
| TemporalApp.ChosenLogo | src/apps/seelenweg/modules/item/app/TemporalApp.ts:24-30 | in all eight presence combinations the 400% logo wins, else the 200% one, else the base one, else none |
| TemporalApp.Cleaned | src/apps/seelenweg/modules/item/app/TemporalApp.ts:15-52 | exe and window handle untouched; execution path is exactly the shell alias for a packaged app (string AppId) even if a later step throws, and unchanged otherwise along with the files; only the record's icon path can be written and nothing is deleted; a refused destination means no file changes, and so does a `Logo` that is not a string; the final icon path exists or is the bundled `missing.png`, and an icon path that exists is kept; the icon is always set, to the inline image or, when encoding fails, to the asset URL of the final icon path |
| TemporalApp.Clean | src/apps/seelenweg/modules/item/app/TemporalApp.ts:15-52 | updates the record and the filesystem in place to exactly what `Cleaned` gives for the old state, and returns the same object |
| TemporalApp.Title | src/apps/seelenweg/modules/item/app/TemporalApp.ts:61 | never empty, holds no backslash; `Unknown` for an empty path or one ending in a backslash, otherwise the longest backslash-free suffix of the path |
| TemporalApp.FromBackground | src/apps/seelenweg/modules/item/app/TemporalApp.ts:54-64 | kind `TemporalPin`, `opens` is exactly the originating handle, the title is `Title(exe)`, the icon defaults to the empty string, and the paths are copied unchanged |
| TemporalAppFacts.LogoCopyPriority | src/apps/seelenweg/modules/item/app/TemporalApp.ts:24-30 | for a packaged app whose `Logo` is a string and whose icon path accepts writes, exactly the sharpest existing logo is copied onto the icon path, and the files are unchanged when no logo exists |
| TemporalAppFacts.UnpackagedOutcomesAgree | src/apps/seelenweg/modules/item/app/TemporalApp.ts:16-34 | a rejected lookup, an empty one and one without a string AppId give the same result |
| TemporalAppFacts.ExistingIconPathKept | src/apps/seelenweg/modules/item/app/TemporalApp.ts:36 | an icon path that exists before `clean` is not replaced |
| TemporalAppFacts.RecleanKeepsPaths | src/apps/seelenweg/modules/item/app/TemporalApp.ts:15-52 | cleaning a cleaned record again keeps its icon path and its execution path |
| TemporalAppFacts.RecleanIsIdempotent | src/apps/seelenweg/modules/item/app/TemporalApp.ts:15-52 | unless the record's icon path is both missing and refusing writes, a second `clean` changes neither the record nor the files |
| TemporalAppFacts.RecleanAfterRefusedCopyOverwritesDefault | src/apps/seelenweg/modules/item/app/TemporalApp.ts:24-43 | after a refused copy the record points at the bundled default, and a second `clean` copies the chosen logo over that default file |
| TemporalAppFacts.OnlyBaseLogoScenario | src/apps/seelenweg/modules/item/app/TemporalApp.ts:15-64 | a packaged app with only its base logo: the base logo is copied onto the icon path, which exists and is kept; the execution path is the alias; the pin opens exactly the originating window |
| TemporalAppFacts.TitleExamples | src/apps/seelenweg/modules/item/app/TemporalApp.ts:61 | `C:\a\b\App.exe` gives `App.exe`, `App.exe` gives `App.exe`, and both the empty path and `C:\a\` give `Unknown` |

## Left out

- The host services are parameters whose behaviour is not modelled. These are `getUWPInfoFromExePath`, `path.resourceDir`, `convertFileSrc` and `getImageBase64FromUrl`. Their implementations are not part of this model. Real base64 encoding is not modelled either.
- `path.resolve` is modelled as joining with backslashes (`MissingIconPath`). Windows path normalisation is not modelled.
- `fs.exists`, `path.resolve`, `path.resourceDir` and `convertFileSrc` never reject in the model. In the source, an `fs.exists` rejection at lines 24-28 is caught at line 32 and skips the copy. A rejection of `fs.exists` at line 36, or of `path.resolve`/`path.resourceDir` at lines 37-38, escapes `clean`. A `convertFileSrc` throw at line 46 is caught, but the call at line 48 throws again and escapes. None of these cases is modelled.
- The ports are deterministic: each host service answers a repeated call with the same inputs as it answered the first. The real package query may reject on one call (line 17, caught at line 32) and resolve on the next, and the real encoder (line 46) may succeed once and fail later. A second `clean` can then rewrite the execution path or change the icon. The re-clean lemmas (`RecleanKeepsPaths`, `RecleanIsIdempotent`) do not cover that.
- Reasons a copy fails other than a missing source are collapsed into one set of destinations that refuse writes.
- Package fields other than `AppId` and `Logo` are taken to be strings. JavaScript would stringify a non-string `Name` or `PublisherId` into the alias.
- The `$` patterns of `replace`'s replacement string are not modelled: the replacements used contain none.
- `async`/`await` suspension and concurrent calls to `clean` are not modelled. The steps run as one sequential method.
- `console.error` logging (line 33) is not modelled.
- The other kinds of dock item (`SpecialItemType` has more variants in the source) are not part of this model. Only `TemporalPin` is declared.
- The application-configuration table (`src/app/modules/appsConfigurations/infra/infra.tsx`) is not modelled: it is UI rendering and store dispatch. The same goes for the window-manager numeric setting (`src/apps/settings/modules/WindowManager/main/infra/Others.tsx`).
