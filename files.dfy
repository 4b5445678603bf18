/** The notes file store: the file writes, the rename and the
    temp-file-then-rename prepend of the note-taking code, over an abstract
    file system of text files and directories. */
module Files {
  import opened Values
  import opened Paths

  /** A path at which `open(p, 'w')` can create a file: it is not empty and
      its directory is the working directory or an existing directory. */
  predicate Creatable(dirs: set<string>, p: string)
  {
    p != [] && (Dirname(p) == [] || Dirname(p) in dirs)
  }

  /** A consistent file system: no path is both a file and a directory, the
      empty path names nothing, and every file lies in a directory that exists. */
  predicate WellFormed(files: map<string, string>, dirs: set<string>)
  {
    && [] !in dirs
    && files.Keys !! dirs
    && forall p :: p in files ==> Creatable(dirs, p)
  }

  /** What a file of the store holds, or the empty text when there is none. */
  function ContentsOf(files: map<string, string>, p: string): string
  {
    if p in files then files[p] else []
  }

  /** The files after an operation, and what the operation returned or raised. */
  datatype Outcome = Outcome(files: map<string, string>, result: Result<bool>)

  /** `write_data_to_file(p, data)`: open in mode 'a' when `p` exists and 'w'
      otherwise, then write; opening a directory, or creating a file whose
      directory is missing, fails. */
  function Appended(files: map<string, string>, dirs: set<string>, p: string, data: string): Outcome
  {
    if p in dirs || (p !in files && !Creatable(dirs, p)) then
      Outcome(files, Err(NotesErr(WriteFailed(p))))
    else
      Outcome(files[p := ContentsOf(files, p) + data], Ok(true))
  }

  /** `rename_file(src, dst)`, that is `shutil.move`: a source that is not a
      file fails; a destination directory receives the file under the
      source's base name, and fails when that name is taken; otherwise the
      destination is replaced. */
  function Renamed(files: map<string, string>, dirs: set<string>, src: string, dst: string): Outcome
  {
    if src !in files then
      Outcome(files, Err(NotesErr(RenameFailed(src, dst))))
    else
      var target := if dst in dirs then Join(dst, Basename(src)) else dst;
      if target in dirs || (dst in dirs && target in files) || !Creatable(dirs, target) then
        Outcome(files, Err(NotesErr(RenameFailed(src, dst))))
      else
        Outcome((files - {src})[target := files[src]], Ok(true))
  }

  /** `prepend_data_to_file(p, data)` with the fresh temporary path `tmp`,
      stated by its end result: the destination holds `data` followed by its
      old contents and the temporary file is gone; when reading the old
      contents or the final move fails, the temporary file is left behind
      holding what was written to it. */
  function Prepended(files: map<string, string>, dirs: set<string>, p: string, tmp: string, data: string): Outcome
  {
    if p in dirs then
      Outcome(files[tmp := data], Err(NotesErr(ReadFailed(p))))
    else if !Creatable(dirs, p) then
      Outcome(files[tmp := data + ContentsOf(files, p)], Err(NotesErr(RenameFailed(tmp, p))))
    else
      Outcome(files[p := data + ContentsOf(files, p)], Ok(true))
  }

  /** Appending leaves the destination as its old contents followed by the
      data (just the data for a new file), succeeds exactly when the path can
      be opened for writing, and changes no other path. */
  lemma AppendedEffect(files: map<string, string>, dirs: set<string>, p: string, data: string)
    requires WellFormed(files, dirs)
    ensures var o := Appended(files, dirs, p, data);
      && (o.result.Ok? <==> p !in dirs && Creatable(dirs, p))
      && (o.result.Ok? ==> p in o.files && o.files[p] == ContentsOf(files, p) + data)
      && (o.result.Err? ==> o.files == files)
      && o.files.Keys <= files.Keys + {p}
      && forall q :: q in files && q != p ==> q in o.files && o.files[q] == files[q]
  {
  }

  /** Prepending leaves the destination as the data followed by its old
      contents (just the data for a new file), removes the temporary file and
      changes no other path. */
  lemma PrependedEffect(files: map<string, string>, dirs: set<string>, p: string, tmp: string, data: string)
    requires WellFormed(files, dirs)
    requires tmp !in files && tmp !in dirs && tmp != p
    ensures var o := Prepended(files, dirs, p, tmp, data);
      && (o.result.Ok? <==> p !in dirs && Creatable(dirs, p))
      && (o.result.Ok? ==> p in o.files && o.files[p] == data + ContentsOf(files, p) && tmp !in o.files)
      && (o.result.Ok? ==> o.files.Keys == files.Keys + {p})
      && forall q :: q in files && q != p ==> q in o.files && o.files[q] == files[q]
  {
  }

  /** Every operation keeps the file system consistent. */
  lemma OutcomesWellFormed(files: map<string, string>, dirs: set<string>, p: string, q: string, tmp: string, data: string)
    requires WellFormed(files, dirs)
    requires tmp !in dirs && Creatable(dirs, tmp)
    ensures WellFormed(Appended(files, dirs, p, data).files, dirs)
    ensures WellFormed(Renamed(files, dirs, p, q).files, dirs)
    ensures WellFormed(Prepended(files, dirs, p, tmp, data).files, dirs)
  {
  }

  /** Appending `a` and then `b` leaves `a` before `b`. */
  lemma AppendTwice(files: map<string, string>, dirs: set<string>, p: string, a: string, b: string)
    requires WellFormed(files, dirs)
    requires Appended(files, dirs, p, a).result.Ok?
    ensures var o := Appended(Appended(files, dirs, p, a).files, dirs, p, b);
      o.result.Ok? && o.files[p] == ContentsOf(files, p) + a + b
  {
  }

  /** Prepending `a` and then `b` (most recent first) leaves `b` before `a`. */
  lemma PrependTwice(files: map<string, string>, dirs: set<string>, p: string, tmp: string, a: string, b: string)
    requires WellFormed(files, dirs)
    requires tmp !in files && tmp !in dirs && tmp != p
    requires Prepended(files, dirs, p, tmp, a).result.Ok?
    ensures var o := Prepended(Prepended(files, dirs, p, tmp, a).files, dirs, p, tmp, b);
      o.result.Ok? && o.files[p] == b + a + ContentsOf(files, p)
  {
    var once := Prepended(files, dirs, p, tmp, a).files;
    assert ContentsOf(once, p) == a + ContentsOf(files, p);
  }

  /** Moving a fresh temporary file onto a path that is not a directory
      replaces that path's contents and removes the temporary file. */
  lemma RenameTemp(files: map<string, string>, dirs: set<string>, tmp: string, p: string, text: string)
    requires tmp !in files && tmp != p && p !in dirs
    ensures Renamed(files[tmp := text], dirs, tmp, p)
      == if Creatable(dirs, p) then Outcome(files[p := text], Ok(true))
         else Outcome(files[tmp := text], Err(NotesErr(RenameFailed(tmp, p))))
  {
    if Creatable(dirs, p) {
      assert (files[tmp := text] - {tmp})[p := text] == files[p := text];
    }
  }

  class FileStore {
    /** The text files of the file system, by path. */
    var files: map<string, string>
    /** The directories; nothing here creates or removes one. */
    const dirs: set<string>

    ghost predicate Valid()
      reads this
    {
      WellFormed(files, dirs)
    }

    constructor (files0: map<string, string>, dirs0: set<string>)
      requires WellFormed(files0, dirs0)
      ensures Valid() && files == files0 && dirs == dirs0
    {
      files := files0;
      dirs := dirs0;
    }

    /** `os.path.exists(p)`. */
    predicate Exists(p: string)
      reads this
    {
      p in files || p in dirs
    }

    /** `read_file(p)`: the whole contents of the file, or `NotesErr` when
        `p` is not a file. */
    function ReadFile(p: string): (r: Result<string>)
      reads this
      ensures r.Ok? <==> p in files
      ensures r.Ok? ==> r.value == files[p]
      ensures r.Err? ==> r.error == NotesErr(ReadFailed(p))
    {
      if p in files then Ok(files[p]) else Err(NotesErr(ReadFailed(p)))
    }

    method WriteDataToFile(p: string, data: string) returns (r: Result<bool>)
      requires Valid()
      modifies this
      ensures Valid()
      ensures files == Appended(old(files), dirs, p, data).files
      ensures r == Appended(old(files), dirs, p, data).result
    {
      var appendMode := Exists(p);
      if p in dirs || (!appendMode && !Creatable(dirs, p)) {
        return Err(NotesErr(WriteFailed(p)));
      }
      var previous := if appendMode then files[p] else [];
      files := files[p := previous + data];
      r := Ok(true);
    }

    method RenameFile(src: string, dst: string) returns (r: Result<bool>)
      requires Valid()
      modifies this
      ensures Valid()
      ensures files == Renamed(old(files), dirs, src, dst).files
      ensures r == Renamed(old(files), dirs, src, dst).result
    {
      if src !in files {
        return Err(NotesErr(RenameFailed(src, dst)));
      }
      var target := dst;
      if dst in dirs {
        target := Join(dst, Basename(src));
        if Exists(target) {
          return Err(NotesErr(RenameFailed(src, dst)));
        }
      }
      if target in dirs || !Creatable(dirs, target) {
        return Err(NotesErr(RenameFailed(src, dst)));
      }
      var moved := files[src];
      files := (files - {src})[target := moved];
      r := Ok(true);
    }

    /** `create_tmp_file(..., delete=False)`: an empty file at the fresh
        temporary path, which outlives the call. */
    method CreateTmpFile(tmp: string)
      requires Valid()
      requires tmp !in files && tmp !in dirs && Creatable(dirs, tmp)
      modifies this
      ensures Valid()
      ensures files == old(files)[tmp := []]
    {
      files := files[tmp := []];
    }

    /** The first three steps of the prepend: create the empty temporary
        file, append the data to it, then, when the destination exists, read
        it and append its contents too. Returns what was read: the empty text
        for a destination that does not exist, a failure for a directory. */
    method FillTmpFile(p: string, data: string, tmp: string) returns (notesData: Result<string>)
      requires Valid()
      requires tmp !in files && tmp !in dirs && Creatable(dirs, tmp) && tmp != p
      modifies this
      ensures Valid()
      ensures notesData == if p in dirs then Err(NotesErr(ReadFailed(p))) else Ok(ContentsOf(old(files), p))
      ensures files == old(files)[tmp := data + (if notesData.Ok? then notesData.value else [])]
    {
      CreateTmpFile(tmp);
      var written := WriteDataToFile(tmp, data);
      assert files == old(files)[tmp := data] by {
        assert [] + data == data;
      }
      notesData := Ok([]);
      if Exists(p) {
        notesData := ReadFile(p);
        if notesData.Ok? {
          assert notesData.value == ContentsOf(old(files), p);
          written := WriteDataToFile(tmp, notesData.value);
        } else {
          assert data + [] == data;
        }
      } else {
        assert data + [] == data;
      }
    }

    /** The temp-file-then-rename prepend, step by step: fill the temporary
        file `tmp` with the data and then the destination's old contents, and
        move it onto the destination. */
    method PrependDataToFile(p: string, data: string, tmp: string) returns (r: Result<bool>)
      requires Valid()
      requires tmp !in files && tmp !in dirs && Creatable(dirs, tmp) && tmp != p
      modifies this
      ensures Valid()
      ensures files == Prepended(old(files), dirs, p, tmp, data).files
      ensures r == Prepended(old(files), dirs, p, tmp, data).result
    {
      ghost var before := files;
      var notesData := FillTmpFile(p, data, tmp);
      if notesData.Err? {
        assert data + [] == data;
        return Err(notesData.error);
      }
      RenameTemp(before, dirs, tmp, p, data + ContentsOf(before, p));
      r := RenameFile(tmp, p);
    }
  }
}
