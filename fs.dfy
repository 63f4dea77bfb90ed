/**
  An abstract file system: a map from path to file state, plus a fixed
  table of the operating-system failures that the copy, write, rename and
  directory-creation calls meet.  A path absent from the map does not exist;
  `Unreadable` is a file that exists but `read_to_string` rejects.
*/
module FileSystem {
  import opened Wrappers

  type Path = string

  datatype FileState = Readable(text: string) | Unreadable(error: string)

  type Files = map<Path, FileState>

  /** The effects that can fail, keyed by the path they create or move. */
  datatype Op = CreateDir | CopyTo | WriteTo | RenameFrom

  /** The index of the last `c` in `s`, or -1. */
  function LastIndexOf(s: string, c: char): (r: int)
    ensures -1 <= r < |s|
    ensures r >= 0 ==> s[r] == c
    ensures forall i :: r < i < |s| ==> s[i] != c
  {
    if s == [] then -1
    else if s[|s| - 1] == c then |s| - 1
    else LastIndexOf(s[..|s| - 1], c)
  }

  /** Whether `s` ends with `t`. */
  predicate EndsWith(s: string, t: string) {
    |t| <= |s| && s[|s| - |t|..] == t
  }

  /** `Path::parent`: everything before the last separator. */
  function Parent(p: Path): Option<Path> {
    var slash := LastIndexOf(p, '/');
    if p == "" || p == "/" then None
    else if slash < 0 then Some("")
    else if slash == 0 then Some("/")
    else Some(p[..slash])
  }

  /**
    `Path::with_extension`: replace the extension of the file name (the part
    after its last dot, unless that dot starts the name) or add one; a path
    without a file name is returned unchanged.
  */
  function WithExtension(p: Path, ext: string): (r: Path)
    ensures p != "" && p[|p| - 1] != '/' ==> EndsWith(r, "." + ext)
  {
    var slash := LastIndexOf(p, '/');
    var name := p[slash + 1..];
    if name == "" then p
    else
      var dot := LastIndexOf(name, '.');
      var stem := if dot <= 0 then p else p[..slash + 1 + dot];
      assert (stem + ("." + ext))[|stem|..] == "." + ext;
      stem + ("." + ext)
  }

  /**
    The `.bak` and `.tmp` siblings of a `.json` file differ from it and from
    each other, so the backup and the temporary never overwrite the target.
  */
  lemma SiblingsDistinct(p: Path)
    requires |p| >= 5 && p[|p| - 5..] == ".json"
    ensures WithExtension(p, "bak") != p
    ensures WithExtension(p, "tmp") != p
    ensures WithExtension(p, "bak") != WithExtension(p, "tmp")
  {
    assert p[|p| - 1] == (".json")[4] == 'n';
    var b, t := WithExtension(p, "bak"), WithExtension(p, "tmp");
    assert b[|b| - 1] == b[|b| - 4..][3] == 'k';
    assert t[|t| - 1] == t[|t| - 4..][3] == 'p';
  }

  /** The files of a machine, and the failures its operations meet. */
  class FileSystem {
    var files: Files
    const faults: map<(Op, Path), string>

    constructor (files: Files, faults: map<(Op, Path), string>)
      ensures this.files == files && this.faults == faults
    {
      this.files := files;
      this.faults := faults;
    }

    /** `std::fs::create_dir_all`: directories are not modelled, only failure. */
    method CreateDirAll(dir: Path) returns (r: Result<()>)
      ensures r.Err? <==> (CreateDir, dir) in faults
      ensures r.Err? ==> r.error == faults[(CreateDir, dir)]
    {
      if (CreateDir, dir) in faults {
        r := Err(faults[(CreateDir, dir)]);
      } else {
        r := Ok(());
      }
    }

    /** `std::fs::copy`: the target gets the source's contents. */
    method Copy(from: Path, to: Path) returns (r: Result<()>)
      requires from in files
      modifies this
      ensures r.Err? <==> (CopyTo, to) in faults
      ensures r.Err? ==> r.error == faults[(CopyTo, to)] && files == old(files)
      ensures r.Ok? ==> files == old(files)[to := old(files)[from]]
    {
      if (CopyTo, to) in faults {
        r := Err(faults[(CopyTo, to)]);
      } else {
        files := files[to := files[from]];
        r := Ok(());
      }
    }

    /** `std::fs::write`: a failed write leaves every file as it was. */
    method Write(path: Path, text: string) returns (r: Result<()>)
      modifies this
      ensures r.Err? <==> (WriteTo, path) in faults
      ensures r.Err? ==> r.error == faults[(WriteTo, path)] && files == old(files)
      ensures r.Ok? ==> files == old(files)[path := Readable(text)]
    {
      if (WriteTo, path) in faults {
        r := Err(faults[(WriteTo, path)]);
      } else {
        files := files[path := Readable(text)];
        r := Ok(());
      }
    }

    /**
      `std::fs::rename`: the target is replaced by the source in one step
      (the atomicity is the operating system's guarantee).
    */
    method Rename(from: Path, to: Path) returns (r: Result<()>)
      requires from in files
      modifies this
      ensures r.Err? <==> (RenameFrom, from) in faults
      ensures r.Err? ==> r.error == faults[(RenameFrom, from)] && files == old(files)
      ensures r.Ok? ==> files == (old(files) - {from})[to := old(files)[from]]
    {
      if (RenameFrom, from) in faults {
        r := Err(faults[(RenameFrom, from)]);
      } else {
        files := (files - {from})[to := files[from]];
        r := Ok(());
      }
    }
  }
}
