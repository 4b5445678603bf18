# NotesBase in Dafny

A model of `NotesBase` (`notes_base.py`). This is the core of a small command-line
note-taking tool. It builds a note (a dictionary of `comment`, `content`, `header`,
`tags` and `urls` plus any extra keyword fields) from optional inputs and a YAML
configuration. It renders the note through a Jinja2 template and writes the result into
a Markdown notes file. By default the new note goes on top: the code writes it into a
temporary file, appends the old contents and moves the temporary file over the notes
file. With `append` the note goes at the bottom instead.

The project has six modules.

- `Values` holds the Python values the code handles (`None`, booleans, integers,
  strings, lists). It also defines their truthiness, their `str()`, and the exceptions
  that escape (`KeyError`, `AttributeError`, `TypeError`, `NotesErr` with its reason).
- `Collections` holds list concatenation (`itertools.chain`) and the `dict.update`
  loop over keyword pairs, as functions, together with their lemmas.
- `Paths` holds `os.path.dirname`, `basename` and `join` for POSIX paths.
- `Files` models the file system as a map from path to text and a set of directories.
  - `Appended`, `Renamed` and `Prepended` state what `write_data_to_file`,
    `rename_file` (`shutil.move`) and `prepend_data_to_file` leave behind.
  - The class `FileStore` holds the files. Its methods perform the same operations step
    by step, each proved to end in the state its function describes.
- `Fields` holds the field builders (`comment`, `content`, `urls`, `content_type`,
  `header`). It also holds the outcome of `tags` and the merge rules of `note()`, as
  functions with their lemmas.
- `Notes` holds the loops of `flattened_list`, `get_configs`, `get_user_input` and the
  merge in `note()`. It also states `notes_file`, `template_file`, `render_note` and
  `take_note` as functions, and the class `NotesBase` with the fields `configs`,
  `date` and the file store. Its methods `Tags`, `Note`, `RenderNote` and `TakeNote`
  update the object, the caller's tag list and the files in place.

The configuration is the dictionary the code indexes, so a missing key raises
`KeyError`. A key is looked up only on the branches that read it. The clock
(`get_date`), the YAML file's contents, the template engine and the name of the
temporary file are parameters. The timestamp is a non-empty text, and the template
engine is a function from template text, note and content type to rendered text that
may fail.

Four behaviours of the code are easy to misread. The model follows the code:

- `tags` tests `startswith` on the original element. With `auto_prepend_hashtag` set,
  a non-string tag therefore raises `AttributeError`, after its `str()` was stored in
  the list, and is never prefixed (`notes_base.py:443-446`).
- `note()` never returns an empty dictionary. The date is never empty, and a falsy
  header becomes the date, so `header` is always present (`notes_base.py:294-295`,
  `notes_base.py:307`).
- Interactive input ends at `"EOF\n"`, `".\n"` or the end of the stream (`''`). A blank
  line `"\n"` is kept (`notes_base.py:241`).
- `take_note` uses an explicit notes file path as given. Only a configured path has its
  directory checked (`notes_base.py:475`).

## Model

| member | source | states |
|---|---|---|
| Fields.Comment | notes_base.py:30-40 | the result has the single key `comment`, holding the argument (`None` included) |
| Fields.Content | notes_base.py:43-53 | the result has the single key `content`, holding the argument (`None` included) |
| Fields.Urls | notes_base.py:488-499 | the result has the single key `urls`; it is truthy exactly when the argument is, and then it is the argument, and `[]` otherwise |
| Fields.ContentType | notes_base.py:55-68 | a truthy argument is returned as is; otherwise `default_content_type` from the configuration, and a `KeyError` exactly when that key is missing |
| Fields.Header | notes_base.py:275-297 | the result is the single key `header`; it fails exactly when the header is truthy and `append_date_to_header` is not configured |
| Fields.HeaderCases | notes_base.py:291-297 | a text header becomes `header + " / " + date` when the flag is truthy, stays unchanged when it is falsy, and raises `KeyError` when the flag is not configured; an empty header becomes exactly the date |
| Fields.FalsyHeaderIsDate | notes_base.py:294-295 | a falsy header (`None` included) is exactly the date, whatever the configuration holds |
| Fields.HeaderIsTruthy | notes_base.py:291-297 | with a non-empty date, the header value is never falsy |
| Fields.Hashtag | notes_base.py:445-447 | the result starts with '#'; a tag that already starts with '#' is unchanged, any other gets '#' in front |
| Fields.TagsPrefixHashes | notes_base.py:441-449 | with prefixing on and only string tags, the list keeps its length and order, each tag without '#' becomes '#' + tag and the others stay |
| Fields.TagsWithoutPrefix | notes_base.py:441-449 | with `auto_prepend_hashtag` configured and falsy, every tag becomes its `str()` and the call succeeds |
| Fields.NonStringTagRaises | notes_base.py:442-446 | with prefixing on, a non-string tag raises `AttributeError`; the tags before it are normalized, it holds its `str()`, and the rest are untouched |
| Fields.TagsIdempotent | notes_base.py:441-449 | running `tags` on its own output returns the same list |
| Fields.KeptAt | notes_base.py:314-322 | with distinct keys, a field is kept exactly when its value is truthy, and then it holds that value |
| Fields.KeptKeys | notes_base.py:314-322 | the merge adds no key other than the fields' own |
| Fields.NoteResult | notes_base.py:299-326 | `note()` fails exactly when `header` or `tags` fails |
| Fields.AssembledFields | notes_base.py:314-324 | every keyword pair is present with its value; a field no keyword names is present exactly when its value is truthy; no other key appears |
| Fields.NoteFields | notes_base.py:308-324 | per key of a built note: comment, content, header, tags and urls are present exactly when truthy (tags and urls exactly when non-empty) unless a keyword overrides them; each holds its built value (the header that `header` built, the rewritten tag list); every keyword value is copied verbatim; nothing else appears |
| Fields.NoteHasHeader | notes_base.py:307-317 | with a truthy date, a successful note always holds `header`; unless a keyword replaces it, it is that date for a falsy header, and the header, " / " and that date when the flag is truthy |
| Fields.DefaultNote | notes_base.py:307-324 | `note()` with no arguments returns exactly `{'header': now}` |
| Collections.ConcatLength | notes_base.py:151-156 | the flattened list's length is the sum of the inner lengths |
| Collections.ConcatAt | notes_base.py:151-156 | the element of inner list `i` at position `j` sits at position `SumLengths(nested[..i]) + j` of the flattened list |
| Collections.ConcatAppend | notes_base.py:151-156 | flattening distributes over splitting the outer list |
| Collections.OverlayLookup | notes_base.py:167-168 | after the update loop, each pair's key maps to its value, every other key keeps its value, and the keys are exactly the old ones plus the pairs' |
| Notes.FlattenedList | notes_base.py:140-156 | the copy-then-chain loops return the in-order concatenation, of length the sum of the inner lengths |
| Notes.Update | notes_base.py:167-168 | the `update` loop over pairs yields the overlay of the pairs on the map |
| Notes.GetConfigs | notes_base.py:158-170 | the loaded map (`{}` when nothing loads) with every override applied: override keys hold the override values, other loaded keys keep theirs, no other key appears |
| Notes.MergeTruthy | notes_base.py:314-322 | the merge loop keeps, in order, exactly the fields whose value is truthy |
| Notes.MergeFields | notes_base.py:314-324 | the merge loops produce the assembled note: truthy fields, then every keyword pair written over them |
| Notes.FirstTerminator | notes_base.py:238-242 | the index of the first line that is `"EOF\n"`, `".\n"` or `''`, or the number of lines when there is none |
| Notes.GetUserInput | notes_base.py:226-249 | the result is the concatenation of the lines before the first terminator, with the terminator excluded |
| Notes.BlankLineContinues | notes_base.py:240-248 | a blank line is kept and reading goes on |
| Notes.TerminatorFirstReadsNothing | notes_base.py:240-242 | a terminator on the first line gives the empty input |
| Notes.NotesFile | notes_base.py:328-339 | a non-empty given path, else the configured one; `NotesErr` when neither exists; a text path succeeds exactly when its directory exists, and otherwise raises `NotesErr` naming that directory; a non-text configured path raises `TypeError` |
| Paths.DirnameOfChild | notes_base.py:335 | `os.path.dirname` of `d/name` is `d`, for a directory without a trailing '/' and a name without '/' |
| Notes.NotesFileInDir | notes_base.py:335-339 | a path `d/name` is accepted exactly when its directory `d` exists, and otherwise refused with `NotesErr` naming `d` |
| Notes.Destination | notes_base.py:475 | a given path is used unchecked; otherwise `notes_file` decides |
| Notes.TemplateFile | notes_base.py:451-469 | a truthy given path, else `default_template_file` (`KeyError` when missing); a text path that exists is returned, one that does not raises `NotesErr` (template not found); a non-text path raises `TypeError` |
| Notes.DryRunWritesNothing | notes_base.py:475-478 | a dry run leaves every file as it was and returns exactly the rendered text |
| Notes.SavedNotePlacement | notes_base.py:471-485 | when the destination or rendering fails nothing changes; a saved note is at the bottom of the notes file with `append` and at its top otherwise, and the temporary file is gone |
| Files.AppendedEffect | notes_base.py:502-516 | append succeeds exactly when the path can be opened; the file then holds old contents followed by the data (just the data when new); no other file changes |
| Files.PrependedEffect | notes_base.py:341-365 | prepend succeeds exactly when the destination is not a directory and its directory exists; the file then holds the data followed by its old contents, the temporary file is gone, and no other file changes |
| Files.OutcomesWellFormed | notes_base.py:341-365 | append, move and prepend keep the file system consistent |
| Files.AppendTwice | notes_base.py:502-516 | appending A and then B leaves A before B |
| Files.PrependTwice | notes_base.py:341-365 | prepending A and then B leaves B before A |
| Files.RenameTemp | notes_base.py:387-405 | moving a fresh temporary file onto a path that is not a directory replaces that path's contents and removes the temporary file, or fails and leaves it |
| Files.FileStore.ReadFile | notes_base.py:368-384 | succeeds exactly for an existing file, returning its whole contents |
| Files.FileStore.WriteDataToFile | notes_base.py:502-516 | the files and result after opening in mode 'a' or 'w' and writing are those of `Appended` |
| Files.FileStore.RenameFile | notes_base.py:387-405 | the files and result of `shutil.move` are those of `Renamed` |
| Files.FileStore.CreateTmpFile | notes_base.py:94-114 | an empty file now exists at the fresh temporary path |
| Files.FileStore.FillTmpFile | notes_base.py:355-362 | the temporary file holds the data then the destination's old contents; reading a directory fails |
| Files.FileStore.PrependDataToFile | notes_base.py:341-365 | the files and result of the step-by-step prepend are those of `Prepended` |
| Notes.NotesBase.constructor | notes_base.py:21-27 | the configuration is the loaded map with the overrides applied, and no date is set |
| Notes.NotesBase.Tags | notes_base.py:433-449 | the result is that of `TagsResult`, and the caller's list is rewritten in place to `TagsAfter`, including on the failing paths |
| Notes.NotesBase.Note | notes_base.py:299-326 | the object's date becomes the given date or the current timestamp; the result is `NoteResult` on that date; the tag list is untouched when `header` fails and rewritten otherwise |
| Notes.NotesBase.NoteOrDefault | notes_base.py:85 | a non-empty note is kept; an empty one becomes `{'header': now}`, and the object's date becomes `now` |
| Notes.NotesBase.RenderNote | notes_base.py:70-91 | the result is `RenderResult`: content type, note, template path, template text and rendering, in that order, with the first failure raised |
| Notes.NotesBase.TakeNote | notes_base.py:471-485 | the files and result are those of `TakeNoteResult`, and the file system stays consistent; the object's date becomes `now` exactly when the destination and content type resolve and the note is empty, and is unchanged otherwise |

## Left out

- Jinja2 (`get_template`, `render_template`) is a `Renderer` parameter. A template that does not compile and one that does not render both become `TemplateFailed`.
- YAML loading (`get_yaml_data`) is not modelled. What the file loaded is a given optional dictionary. A YAML document that is not a dictionary is not modelled.
- `current_datetime` and `get_date` (pytz, the clock, `strftime`) are not modelled. The timestamp is a non-empty text parameter.
- The non-tty branch of `get_input` and the `buffer_size` limits on `readline` and `readlines` are not modelled.
- `EOFError`, and `KeyboardInterrupt` with its `sys.exit(1)`, are not modelled. `print` and every `logging` call are omitted.
- Temporary-file naming, and failure to create the temporary file, are not modelled.
- Files.FileStore.PrependDataToFile: requires a fresh temporary path that is in an existing directory and is not the destination. `NamedTemporaryFile` guarantees this, and the model does not derive it.
- Notes.NotesBase.TakeNote: requires the same fresh temporary path, because it prepends through `PrependDataToFile`.
- Crash atomicity of `shutil.move`, and concurrent runs on one notes file, are not modelled. Both are about interleavings, which a sequential model cannot state.
- Files.FileStore.RenameFile: directories are never moved. `shutil.move` across file systems is not distinguished.
- Path normalisation (`..`, repeated slashes) is not modelled. A path is its text.
- Read and write failures other than a missing directory or a path that is a directory are not modelled.
- Values.Str: `str()` of a list quotes strings with single quotes and ignores escaping, which is enough for the tag coercion. Floats, dictionaries and other Python types are not values of the model.
- Notes.TemplateFile: `os.path.exists` on an integer path (a file descriptor) is modelled as a `TypeError`, like any other non-text path.
- Notes.NotesBase.Tags: a truthy argument that is not a list (such as a string, which `enumerate` walks character by character) is not modelled. Tags are an array of values.
- Aliasing between the returned `{'tags': tags}` and the caller's list is not modelled beyond the in-place rewrite. The result holds a copy of the final contents.
- The note and the configuration are maps, so the insertion order of Python's dictionaries (comment, content, header, tags, urls, then the keyword pairs) is not modelled; a `Renderer` receives an unordered note.
- Notes.FlattenedList: takes a list of lists, so a string element (which `itertools.chain` splits into characters) and a non-iterable element (which raises `TypeError`) are not modelled.
