/**
 * The local directory where the bot keeps its temporary images. A file
 * holds a picture. The operating system may refuse to write a path and,
 * independently, refuse to remove it (a permission error); `os.remove` of
 * a missing path raises as well.
 */
module Files {
  import opened Optional
  import opened Drawing

  /** The paths the operating system refuses to write, and those it refuses to remove. */
  datatype Refusals = Refusals(write: set<string>, remove: set<string>)

  class FileSystem {
    var files: map<string, Picture>
    const denied: Refusals

    constructor (files: map<string, Picture>, denied: Refusals)
      ensures this.files == files && this.denied == denied
    {
      this.files := files;
      this.denied := denied;
    }

    /** `os.path.exists(path)` */
    predicate Exists(path: string)
      reads this
    {
      path in files
    }

    /** `Image.open(path)` or `open(path, "rb")`: the stored picture, None when the open raises. */
    method Read(path: string) returns (r: Option<Picture>)
      ensures r.Some? <==> path in files
      ensures r.Some? ==> r.value == files[path]
    {
      r := if path in files then Some(files[path]) else None;
    }

    /** `image.save(path)` or a write through `open(path, "wb")`; `ok` is false when it raises. */
    method Write(path: string, image: Picture) returns (ok: bool)
      modifies this
      ensures ok <==> path !in denied.write
      ensures files == if ok then old(files)[path := image] else old(files)
    {
      ok := path !in denied.write;
      if ok {
        files := files[path := image];
      }
    }

    /** `os.remove(path)`; `ok` is false when it raises (missing or unremovable path). */
    method Remove(path: string) returns (ok: bool)
      modifies this
      ensures ok <==> path in old(files) && path !in denied.remove
      ensures files == if ok then old(files) - {path} else old(files)
    {
      ok := path in files && path !in denied.remove;
      if ok {
        files := files - {path};
      }
    }
  }
}
