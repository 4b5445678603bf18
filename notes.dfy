/** The `NotesBase` object of the note-taking utility: configuration
    loading, interactive input, note assembly, template selection and
    rendering, and `take_note`, which writes the rendered note into the
    notes file by prepending (most recent first) or appending. */
module Notes {
  import opened Values
  import opened Collections
  import opened Paths
  import opened Files
  import opened Fields

  /** The template engine: from a template's text, the note and the content
      type, the rendered text, or nothing when the template does not compile
      or does not render. */
  type Renderer = (string, Note, Value) -> Option<string>

  /** What `take_note` returns: the rendered text on a dry run, otherwise
      `True` once the note is written. */
  datatype Taken = Preview(text: string) | Saved

  /** The files after `take_note`, and what it returned or raised. */
  datatype TakeOutcome = TakeOutcome(files: map<string, string>, result: Result<Taken>)

  /** `flattened_list(nested)`: the elements are copied into a new list, then
      chained together. */
  method FlattenedList<T>(nested: seq<seq<T>>) returns (flat: seq<T>)
    ensures flat == Concat(nested)
    ensures |flat| == SumLengths(nested)
  {
    var copied: seq<seq<T>> := [];
    for k := 0 to |nested|
      invariant copied == nested[..k]
    {
      copied := copied + [nested[k]];
    }
    // itertools.chain(*copied)
    flat := [];
    for k := 0 to |copied|
      invariant flat == Concat(copied[..k])
    {
      assert copied[..k + 1][..k] == copied[..k];
      flat := flat + copied[k];
    }
    assert copied == nested by {
      assert nested[..|nested|] == nested;
    }
    assert copied[..|copied|] == copied;
    ConcatLength(nested);
  }

  /** `for key, value in pairs: m.update({key: value})`, one pair at a time. */
  method Update<K, V>(m: map<K, V>, pairs: seq<(K, V)>) returns (r: map<K, V>)
    ensures r == Overlay(m, pairs)
  {
    r := m;
    for k := 0 to |pairs|
      invariant r == Overlay(m, pairs[..k])
    {
      assert pairs[..k + 1][..k] == pairs[..k];
      r := r[pairs[k].0 := pairs[k].1];
    }
    assert pairs[..|pairs|] == pairs;
  }

  /** The merge loop of `note()`: each built field `{keys[i]: values[i]}`
      joins the note, in order, when its value is truthy. The loop over
      comment, content and header and the two tests on tags and urls that
      follow it apply this same rule. */
  method MergeTruthy(keys: seq<string>, values: seq<Value>) returns (note: Note)
    requires |keys| == |values|
    ensures note == Kept(keys, values)
  {
    note := map[];
    for i := 0 to |keys|
      invariant note == Kept(keys[..i], values[..i])
    {
      KeptStep(keys, values, i);
      if Truthy(values[i]) {
        note := note + map[keys[i] := values[i]];
      }
    }
    assert keys[..|keys|] == keys && values[..|values|] == values;
  }

  /** The whole merge of `note()`: the truthy fields, then every keyword
      pair written over the result. */
  method MergeFields(comment: Value, content: Value, header: Value, tags: Value, urls: Value,
                     kwargs: seq<(string, Value)>) returns (note: Note)
    ensures note == AssembleNote(comment, content, header, tags, urls, kwargs)
  {
    note := MergeTruthy(FieldKeys, [comment, content, header, tags, urls]);
    note := Update(note, kwargs);
  }

  /** The configuration a missing or empty file loads as: `{}`. */
  function Loaded(loaded: Option<Configs>): Configs
  {
    match loaded
    case None => map[]
    case Some(m) => m
  }

  /** `get_configs(config_file, **overrides)` given what the YAML file
      loaded: each override replaces or adds its key, every other loaded key
      keeps its value, and nothing else appears. */
  method GetConfigs(loaded: Option<Configs>, overrides: seq<(string, Value)>) returns (configs: Configs)
    requires DistinctKeys(overrides)
    ensures configs == Overlay(Loaded(loaded), overrides)
    ensures configs.Keys == Loaded(loaded).Keys + KeysOf(overrides)
    ensures forall i :: 0 <= i < |overrides| ==> configs[overrides[i].0] == overrides[i].1
    ensures forall k :: k in Loaded(loaded) && k !in KeysOf(overrides) ==> configs[k] == Loaded(loaded)[k]
  {
    configs := Update(Loaded(loaded), overrides);
    OverlayLookup(Loaded(loaded), overrides);
  }

  /** The lines that end interactive input: "EOF", "." and end of stream
      (`readline` returns the empty text). A blank line "\n" is not one. */
  predicate IsTerminator(line: string)
  {
    line == "EOF\n" || line == ".\n" || line == ""
  }

  /** The index of the first terminating line, or the number of lines when
      the stream ends without one. */
  function FirstTerminator(lines: seq<string>): (k: nat)
    ensures k <= |lines|
    ensures forall i :: 0 <= i < k ==> !IsTerminator(lines[i])
    ensures k < |lines| ==> IsTerminator(lines[k])
  {
    if |lines| == 0 || IsTerminator(lines[0]) then 0 else 1 + FirstTerminator(lines[1..])
  }

  /** `get_user_input()` over the lines the terminal delivers (after the
      last one, `readline` returns the empty text): the lines before the
      first terminator, joined; the terminator itself is dropped. */
  method GetUserInput(lines: seq<string>) returns (userInput: string)
    ensures userInput == Concat(lines[..FirstTerminator(lines)])
  {
    userInput := "";
    var i := 0;
    while true
      invariant 0 <= i <= FirstTerminator(lines)
      invariant userInput == Concat(lines[..i])
      decreases |lines| - i
    {
      var inputBuffer := if i < |lines| then lines[i] else "";
      if IsTerminator(inputBuffer) {
        break;
      }
      assert lines[..i + 1][..i] == lines[..i];
      userInput := userInput + inputBuffer;
      i := i + 1;
    }
  }

  /** A blank line is kept and reading goes on. */
  lemma BlankLineContinues(lines: seq<string>)
    ensures Concat((["\n"] + lines)[..FirstTerminator(["\n"] + lines)]) == "\n" + Concat(lines[..FirstTerminator(lines)])
  {
    var all := ["\n"] + lines;
    assert all[1..] == lines;
    var k := FirstTerminator(lines);
    assert all[..k + 1] == ["\n"] + lines[..k];
    ConcatAppend(["\n"], lines[..k]);
    assert Concat(["\n"]) == "\n" by {
      assert ["\n"][..0] == [];
    }
  }

  /** A terminator first ends the input with nothing read. */
  lemma TerminatorFirstReadsNothing(line: string, lines: seq<string>)
    requires IsTerminator(line)
    ensures Concat(([line] + lines)[..FirstTerminator([line] + lines)]) == ""
  {
  }

  /** `notes_file(notes_file)`: the given path when non-empty, else the
      configured `notes_file`; it must be a text whose directory exists. */
  function NotesFile(configs: Configs, dirs: set<string>, notesFile: string): (r: Result<string>)
    ensures r.Ok? ==> Dirname(r.value) in dirs
    ensures r.Ok? && notesFile != [] ==> r.value == notesFile
    ensures r.Ok? && notesFile == [] ==> NotesFileKey in configs && configs[NotesFileKey] == VStr(r.value)
    ensures notesFile == [] && NotesFileKey !in configs ==> r == Err(NotesErr(NotesFileUndefined))
    ensures r.Err? && r.error.NotesErr? && r.error.reason.NotesDirMissing? ==> r.error.reason.dir !in dirs
    ensures notesFile != [] ==>
      r == if Dirname(notesFile) in dirs then Ok(notesFile) else Err(NotesErr(NotesDirMissing(Dirname(notesFile))))
    ensures notesFile == [] && NotesFileKey in configs && configs[NotesFileKey].VStr? ==>
      var path := configs[NotesFileKey].s;
      r == if Dirname(path) in dirs then Ok(path) else Err(NotesErr(NotesDirMissing(Dirname(path))))
    ensures notesFile == [] && NotesFileKey in configs && !configs[NotesFileKey].VStr? ==> r == Err(TypeError)
  {
    var path :-
      if notesFile != [] then Ok(VStr(notesFile))
      else if NotesFileKey in configs then Ok(configs[NotesFileKey])
      else Err(NotesErr(NotesFileUndefined));
    if !path.VStr? then Err(TypeError)
    else if Dirname(path.s) !in dirs then Err(NotesErr(NotesDirMissing(Dirname(path.s))))
    else Ok(path.s)
  }

  /** A path `d/name` inside an existing directory `d` is accepted as it
      is, and inside a missing one it is refused naming `d`. */
  lemma NotesFileInDir(configs: Configs, dirs: set<string>, d: string, name: string)
    requires d != [] && d[|d| - 1] != '/'
    requires forall j :: 0 <= j < |name| ==> name[j] != '/'
    ensures d in dirs ==> NotesFile(configs, dirs, d + "/" + name) == Ok(d + "/" + name)
    ensures d !in dirs ==> NotesFile(configs, dirs, d + "/" + name) == Err(NotesErr(NotesDirMissing(d)))
  {
    DirnameOfChild(d, name);
  }

  /** The destination `take_note` settles on: `notes_file or
      self.notes_file(notes_file)`, so a given path is used as it is, with no
      check of its directory. */
  function Destination(configs: Configs, dirs: set<string>, notesFile: string): (r: Result<string>)
    ensures notesFile != [] ==> r == Ok(notesFile)
    ensures notesFile == [] ==> r == NotesFile(configs, dirs, notesFile)
  {
    if notesFile != [] then Ok(notesFile) else NotesFile(configs, dirs, notesFile)
  }

  /** `template_file(template_file)`: the given path when truthy, else the
      configured `default_template_file`; it must exist. */
  function TemplateFile(configs: Configs, files: map<string, string>, dirs: set<string>, templateFile: Value): (r: Result<string>)
    ensures r.Ok? ==> r.value in files || r.value in dirs
    ensures r.Ok? && Truthy(templateFile) ==> templateFile == VStr(r.value)
    ensures r.Ok? && !Truthy(templateFile) ==> DefaultTemplateFile in configs && configs[DefaultTemplateFile] == VStr(r.value)
    ensures !Truthy(templateFile) && DefaultTemplateFile !in configs ==> r == Err(KeyError(DefaultTemplateFile))
    ensures Truthy(templateFile) || DefaultTemplateFile in configs ==>
      var path := if Truthy(templateFile) then templateFile else configs[DefaultTemplateFile];
      && (path.VStr? && (path.s in files || path.s in dirs) ==> r == Ok(path.s))
      && (path.VStr? && path.s !in files && path.s !in dirs ==> r == Err(NotesErr(TemplateNotFound(path.s))))
      && (!path.VStr? ==> r == Err(TypeError))
  {
    var path :- if Truthy(templateFile) then Ok(templateFile)
                else if DefaultTemplateFile in configs then Ok(configs[DefaultTemplateFile])
                else Err(KeyError(DefaultTemplateFile));
    if !path.VStr? then Err(TypeError)
    else if path.s in files || path.s in dirs then Ok(path.s)
    else Err(NotesErr(TemplateNotFound(path.s)))
  }

  /** What `render_note` returns or raises. An empty note falls back to
      `note()` with no arguments: the timestamp `now` under `header`. */
  function RenderResult(configs: Configs, files: map<string, string>, dirs: set<string>, templateFile: Value,
                        note: Note, contentType: Value, now: string, render: Renderer): Result<string>
  {
    var ct :- ContentType(configs, contentType);
    var n := if note != map[] then note else map[HeaderKey := VStr(now)];
    var path :- TemplateFile(configs, files, dirs, templateFile);
    var text :- if path in files then Ok(files[path]) else Err(NotesErr(ReadFailed(path)));
    match render(text, n, ct)
    case None => Err(NotesErr(TemplateFailed(path)))
    case Some(out) => Ok(out)
  }

  /** What `take_note` leaves in the files and returns: resolve the
      destination, render, and then return the text on a dry run, or append
      or prepend it. */
  function TakeNoteResult(configs: Configs, files: map<string, string>, dirs: set<string>, note: Note,
                          notesFile: string, append: bool, contentType: Value, templateFile: Value,
                          dryrun: bool, now: string, tmp: string, render: Renderer): TakeOutcome
  {
    match Destination(configs, dirs, notesFile)
    case Err(e) => TakeOutcome(files, Err(e))
    case Ok(dest) =>
      match RenderResult(configs, files, dirs, templateFile, note, contentType, now, render)
      case Err(e) => TakeOutcome(files, Err(e))
      case Ok(text) =>
        if dryrun then TakeOutcome(files, Ok(Preview(text)))
        else
          var o := if append then Appended(files, dirs, dest, text) else Prepended(files, dirs, dest, tmp, text);
          TakeOutcome(o.files, if o.result.Ok? then Ok(Saved) else Err(o.result.error))
  }

  /** A dry run never touches the files and returns exactly the rendered text. */
  lemma DryRunWritesNothing(configs: Configs, files: map<string, string>, dirs: set<string>, note: Note,
                            notesFile: string, append: bool, contentType: Value, templateFile: Value,
                            now: string, tmp: string, render: Renderer)
    ensures var o := TakeNoteResult(configs, files, dirs, note, notesFile, append, contentType, templateFile, true, now, tmp, render);
      && o.files == files
      && (Destination(configs, dirs, notesFile).Ok? ==>
            var rendered := RenderResult(configs, files, dirs, templateFile, note, contentType, now, render);
            o.result == if rendered.Ok? then Ok(Preview(rendered.value)) else Err(rendered.error))
  {
  }

  /** A saved note ends up at the top of the notes file (prepend) or at its
      bottom (append), and a failure to resolve the destination or to render
      leaves every file as it was. */
  lemma SavedNotePlacement(configs: Configs, files: map<string, string>, dirs: set<string>, note: Note,
                           notesFile: string, append: bool, contentType: Value, templateFile: Value,
                           now: string, tmp: string, render: Renderer)
    requires WellFormed(files, dirs)
    requires tmp !in files && tmp !in dirs
    requires Destination(configs, dirs, notesFile).Ok? ==> tmp != Destination(configs, dirs, notesFile).value
    ensures var o := TakeNoteResult(configs, files, dirs, note, notesFile, append, contentType, templateFile, false, now, tmp, render);
      var rendered := RenderResult(configs, files, dirs, templateFile, note, contentType, now, render);
      var dest := Destination(configs, dirs, notesFile);
      && (dest.Err? || rendered.Err? ==> o.files == files && o.result.Err?)
      && (o.result.Ok? ==> dest.Ok? && rendered.Ok? && dest.value in o.files)
      && (o.result.Ok? && append ==> o.files[dest.value] == ContentsOf(files, dest.value) + rendered.value)
      && (o.result.Ok? && !append ==> o.files[dest.value] == rendered.value + ContentsOf(files, dest.value) && tmp !in o.files)
  {
    var dest := Destination(configs, dirs, notesFile);
    var rendered := RenderResult(configs, files, dirs, templateFile, note, contentType, now, render);
    if dest.Ok? && rendered.Ok? {
      AppendedEffect(files, dirs, dest.value, rendered.value);
      PrependedEffect(files, dirs, dest.value, tmp, rendered.value);
    }
  }

  class NotesBase {
    /** The configuration, loaded once by the constructor. */
    const configs: Configs
    /** The file system the notes and templates live in. */
    const fs: FileStore
    /** The timestamp of the note being built (`None` before `note()`). */
    var date: Value

    /** `NotesBase(config_file, **overrides)`, given what the configuration
        file loaded. */
    constructor (loaded: Option<Configs>, overrides: seq<(string, Value)>, fs: FileStore)
      requires DistinctKeys(overrides)
      ensures configs == Overlay(Loaded(loaded), overrides)
      ensures this.fs == fs && date == VNone
    {
      var merged := GetConfigs(loaded, overrides);
      configs := merged;
      this.fs := fs;
      date := VNone;
    }

    /** `tags(tags)`: rewrites the caller's list in place (`None` and `[]`
        give a fresh empty list) and returns it under `tags`. */
    method Tags(tags: array?<Value>) returns (r: Result<Note>)
      modifies tags
      ensures r == TagsResult(configs, if tags == null then [] else old(tags[..]))
      ensures tags != null ==> tags[..] == TagsAfter(configs, old(tags[..]))
    {
      if tags == null || tags.Length == 0 {
        return Ok(map[TagsKey := VList([])]);
      }
      ghost var original := tags[..];
      ghost var stop := TagsStop(configs, original);
      var idx := 0;
      while idx < tags.Length
        invariant idx <= stop
        invariant forall i :: 0 <= i < idx ==> tags[i] == NormalizedTag(Prepends(configs), original[i])
        invariant forall i :: idx <= i < tags.Length ==> tags[i] == original[i]
      {
        var tag := tags[idx];
        if !tag.VStr? {
          tags[idx] := VStr(Str(tag));
        }
        if AutoPrependHashtag !in configs {
          r := Err(KeyError(AutoPrependHashtag));
          assert tags[..] == TagsAfter(configs, original);
          return;
        }
        if Truthy(configs[AutoPrependHashtag]) {
          if !tag.VStr? {
            r := Err(AttributeError("startswith"));
            assert tags[..] == TagsAfter(configs, original);
            return;
          }
          if !StartsWithHash(tag.s) {
            tags[idx] := VStr("#" + tag.s);
          }
        }
        idx := idx + 1;
      }
      assert tags[..] == TagsAfter(configs, original);
      r := Ok(map[TagsKey := VList(tags[..])]);
    }

    /** `note(date, comment, content, tags, urls, header, **kwargs)`, with
        `now` the timestamp `get_date()` would give. It settles the object's
        date first, builds the fields, keeps the truthy ones in the order
        comment, content, header, then tags and urls when non-empty, and
        writes the keyword pairs over the result. */
    method Note(dateArg: Value, now: string, comment: Value, content: Value, tags: array?<Value>, urls: Value,
                header: Value, kwargs: seq<(string, Value)>) returns (r: Result<Note>)
      requires now != []
      modifies this`date, tags
      ensures date == if Truthy(dateArg) then dateArg else VStr(now)
      ensures r == NoteResult(configs, date, comment, content, header,
                              if tags == null then [] else old(tags[..]), urls, kwargs)
      ensures tags != null && Header(configs, date, header).Err? ==> tags[..] == old(tags[..])
      ensures tags != null && Header(configs, date, header).Ok? ==> tags[..] == TagsAfter(configs, old(tags[..]))
    {
      date := if Truthy(dateArg) then dateArg else VStr(now);
      ghost var given := if tags == null then [] else tags[..];
      var headerField := Header(configs, date, header);
      if headerField.Err? {
        r := Err(headerField.error);
      } else {
        var tagsField := Tags(tags);
        assert tagsField == TagsResult(configs, given);
        if tagsField.Err? {
          r := Err(tagsField.error);
        } else {
          var note := MergeFields(comment, content, headerField.value[HeaderKey], tagsField.value[TagsKey],
                                  Urls(urls)[UrlsKey], kwargs);
          r := Ok(note);
        }
      }
    }

    /** The note `render_note` renders: the given one, or `note()` built
        with no arguments when it is empty. */
    method NoteOrDefault(note: Note, now: string) returns (n: Note)
      requires now != []
      modifies this`date
      ensures n == if note != map[] then note else map[HeaderKey := VStr(now)]
      ensures date == if note == map[] then VStr(now) else old(date)
    {
      n := note;
      if n == map[] {
        DefaultNote(configs, now);
        var built := Note(VNone, now, VNone, VNone, null, VNone, VNone, []);
        n := built.value;
      }
    }

    /** `render_note(template_file, note, content_type)`: the content type,
        the note (`note()` when it is empty), the template path, its text,
        and the rendering, in that order; the first failure is raised. */
    method RenderNote(templateFile: Value, note: Note, contentType: Value, now: string, render: Renderer)
      returns (r: Result<string>)
      requires now != []
      modifies this`date
      ensures r == RenderResult(configs, fs.files, fs.dirs, templateFile, note, contentType, now, render)
      ensures date == if ContentType(configs, contentType).Ok? && note == map[] then VStr(now) else old(date)
    {
      var ct :- ContentType(configs, contentType);
      var n := NoteOrDefault(note, now);
      var path :- TemplateFile(configs, fs.files, fs.dirs, templateFile);
      var text :- fs.ReadFile(path);
      var rendered := render(text, n, ct);
      r := if rendered.Some? then Ok(rendered.value) else Err(NotesErr(TemplateFailed(path)));
    }

    /** `take_note(note, notes_file, append, content_type, template_file,
        dryrun)`, with `tmp` the fresh name the temporary file of a prepend
        gets. */
    method TakeNote(note: Note, notesFile: string, append: bool, contentType: Value, templateFile: Value,
                    dryrun: bool, now: string, tmp: string, render: Renderer) returns (r: Result<Taken>)
      requires now != []
      requires fs.Valid()
      requires tmp !in fs.files && tmp !in fs.dirs && Creatable(fs.dirs, tmp)
      requires Destination(configs, fs.dirs, notesFile).Ok? ==> tmp != Destination(configs, fs.dirs, notesFile).value
      modifies this`date, fs
      ensures fs.Valid()
      ensures date == if Destination(configs, fs.dirs, notesFile).Ok? && ContentType(configs, contentType).Ok?
                         && note == map[] then VStr(now) else old(date)
      ensures var o := TakeNoteResult(configs, old(fs.files), fs.dirs, note, notesFile, append, contentType,
                                      templateFile, dryrun, now, tmp, render);
        fs.files == o.files && r == o.result
    {
      var dest := notesFile;
      if dest == [] {
        dest :- NotesFile(configs, fs.dirs, notesFile);
      }
      var rendered :- RenderNote(templateFile, note, contentType, now, render);
      if dryrun {
        return Ok(Preview(rendered));
      }
      var written;
      if append {
        written := fs.WriteDataToFile(dest, rendered);
      } else {
        written := fs.PrependDataToFile(dest, rendered, tmp);
      }
      if written.Err? {
        return Err(written.error);
      }
      r := Ok(Saved);
    }
  }
}
