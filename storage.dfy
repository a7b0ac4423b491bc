/**
 * The part of the operating system's filesystem the runner touches: creating
 * directories (`os.Mkdir`) and writing whole files (`ioutil.WriteFile`).
 * Paths that the system would refuse for other reasons (permissions, a full
 * disk) are given up front, with the reason each one fails.
 */
module Storage {
  import opened Options
  import opened Fmt
  import opened Errors

  datatype Disk = Disk(dirs: set<string>, files: map<string, Bytes>)

  datatype Outcome = Outcome(disk: Disk, err: Option<IoError>)

  /** `os.Mkdir`: refuses a path that already exists, as a directory or a file. */
  function MkdirOn(d: Disk, broken: map<string, string>, path: string): (r: Outcome)
    ensures r.err.None? <==> path !in d.dirs && path !in d.files && path !in broken
    ensures r.err.Some? ==> r.disk == d && r.err.value.op == "mkdir" && r.err.value.path == path
    ensures r.err.None? ==> r.disk == d.(dirs := d.dirs + {path})
  {
    if path in d.dirs || path in d.files then Outcome(d, Some(PathError("mkdir", path, "file exists")))
    else if path in broken then Outcome(d, Some(PathError("mkdir", path, broken[path])))
    else Outcome(d.(dirs := d.dirs + {path}), None)
  }

  /** `ioutil.WriteFile`: creates or truncates the file; a directory cannot be written. */
  function WriteOn(d: Disk, broken: map<string, string>, path: string, data: Bytes): (r: Outcome)
    ensures r.err.None? <==> path !in d.dirs && path !in broken
    ensures r.err.Some? ==> r.disk == d && r.err.value.op == "open" && r.err.value.path == path
    ensures r.err.None? ==> r.disk == d.(files := d.files[path := data])
  {
    if path in d.dirs then Outcome(d, Some(PathError("open", path, "is a directory")))
    else if path in broken then Outcome(d, Some(PathError("open", path, broken[path])))
    else Outcome(d.(files := d.files[path := data]), None)
  }

  class FileSystem {
    var dirs: set<string>
    var files: map<string, Bytes>
    const broken: map<string, string>

    constructor (dirs: set<string>, files: map<string, Bytes>, broken: map<string, string>)
      ensures State() == Disk(dirs, files) && this.broken == broken
    {
      this.dirs := dirs;
      this.files := files;
      this.broken := broken;
    }

    function State(): Disk
      reads this
    {
      Disk(dirs, files)
    }

    method Mkdir(path: string) returns (err: Option<IoError>)
      modifies this
      ensures Outcome(State(), err) == MkdirOn(old(State()), broken, path)
    {
      var r := MkdirOn(State(), broken, path);
      dirs := r.disk.dirs;
      err := r.err;
    }

    method WriteFile(path: string, data: Bytes) returns (err: Option<IoError>)
      modifies this
      ensures Outcome(State(), err) == WriteOn(old(State()), broken, path, data)
    {
      var r := WriteOn(State(), broken, path, data);
      files := r.disk.files;
      err := r.err;
    }
  }
}
