/** The host services the temporary-pin code calls, as ports: the package
    metadata query, the resource directory, the asset-URL conversion, the
    image encoder, and a filesystem that answers `exists` and performs
    `copyFile`. What the real services compute is not modelled: each is a
    parameter the caller supplies. */
module Platform {
  import opened Wrappers

  /** Windows paths, separated by backslashes. */
  type Path = string
  type Bytes = seq<bv8>

  /** The package record `getUWPInfoFromExePath` resolves. `appId` and `logo`
      are none when the record holds something other than a string there. */
  datatype UwpInfo = UwpInfo(
    name: string,
    publisherId: string,
    appId: Option<string>,
    installLocation: Path,
    logo: Option<string>)

  /** What the package query does: resolve a record, resolve nothing
      (`null`/`undefined`, not a packaged application), or reject. */
  datatype Lookup = Found(info: UwpInfo) | NotFound | Failed

  /** The ports the code calls and cannot see into:
      `uwpInfo` is `getUWPInfoFromExePath`, `resourceDir` is what
      `path.resourceDir()` resolves, `convertFileSrc` turns a file path into
      an asset URL, and `imageBase64` is `getImageBase64FromUrl`, which reads
      the file behind the URL (hence the file map) and either resolves an
      inline image or rejects (none). */
  datatype Ports = Ports(
    uwpInfo: Path -> Lookup,
    resourceDir: Path,
    convertFileSrc: Path -> string,
    imageBase64: (string, map<Path, Bytes>) -> Option<string>)

  /** Whether `fs.copyFile(src, dst)` succeeds: the source must exist and the
      destination must accept writes. */
  predicate CopySucceeds(files: map<Path, Bytes>, denied: set<Path>, src: Path, dst: Path) {
    src in files && dst !in denied
  }

  /** The files after `fs.copyFile(src, dst)`: the destination holds the
      source's bytes, or nothing changed when the copy rejected. */
  function Copy(files: map<Path, Bytes>, denied: set<Path>, src: Path, dst: Path): (after: map<Path, Bytes>)
    ensures CopySucceeds(files, denied, src, dst) ==> dst in after && after[dst] == files[src]
    ensures !CopySucceeds(files, denied, src, dst) ==> after == files
    ensures after.Keys == files.Keys || after.Keys == files.Keys + {dst}
    ensures forall p :: p in files && p != dst ==> p in after && after[p] == files[p]
  {
    if CopySucceeds(files, denied, src, dst) then files[dst := files[src]] else files
  }

  /** The bundled default icon: `path.resolve(resourceDir, 'static', 'icons',
      'missing.png')`, with Windows separators. */
  function MissingIconPath(resourceDir: Path): Path {
    resourceDir + "\\static\\icons\\missing.png"
  }

  /** The filesystem as a map from path to contents. `denied` are the
      destinations the operating system refuses to write. */
  class FileSystem {
    var files: map<Path, Bytes>
    const denied: set<Path>

    constructor (files: map<Path, Bytes>, denied: set<Path>)
      ensures this.files == files && this.denied == denied
    {
      this.files := files;
      this.denied := denied;
    }

    /** `fs.exists(p)`. */
    predicate Exists(p: Path)
      reads this
    {
      p in files
    }

    /** `fs.copyFile(src, dst)`; `ok` is false where the call rejects. */
    method CopyFile(src: Path, dst: Path) returns (ok: bool)
      modifies this
      ensures ok == CopySucceeds(old(files), denied, src, dst)
      ensures files == Copy(old(files), denied, src, dst)
    {
      ok := src in files && dst !in denied;
      if ok {
        files := files[dst := files[src]];
      }
    }
  }
}
