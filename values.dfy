/** Python values as the note-taking code sees them, their truthiness,
    their `str()` rendering, and the failures the code raises. */
module Values {

  datatype Option<+T> = None | Some(value: T)

  /** Why a `NotesErr` was raised. */
  datatype Reason =
    | NotesFileUndefined                 // no path given and no `notes_file` configured
    | NotesDirMissing(dir: string)       // the notes file's directory does not exist
    | TemplateNotFound(path: string)     // the template path does not exist
    | ReadFailed(path: string)           // `read_file` could not open the path
    | WriteFailed(path: string)          // `write_data_to_file` could not open the path
    | RenameFailed(src: string, dst: string)
    | TemplateFailed(path: string)       // the template did not compile or render

  /** The exceptions the core lets escape, by Python exception class. */
  datatype Error =
    | KeyError(key: string)              // a configuration key is missing
    | AttributeError(name: string)       // a method called on a value that lacks it
    | TypeError                          // a path that is not a string
    | NotesErr(reason: Reason)

  datatype Result<+T> = Ok(value: T) | Err(error: Error) {
    predicate IsFailure() { Err? }
    function PropagateFailure<U>(): Result<U>
      requires Err?
    {
      Err(error)
    }
    function Extract(): T
      requires Ok?
    {
      value
    }
  }

  /** The Python values a note, a tag list or a configuration entry can hold. */
  datatype Value =
    | VNone
    | VBool(b: bool)
    | VInt(i: int)
    | VStr(s: string)
    | VList(items: seq<Value>)

  /** Python truthiness: `None`, `False`, `0`, `''` and `[]` are false. */
  predicate Truthy(v: Value)
  {
    match v
    case VNone => false
    case VBool(b) => b
    case VInt(i) => i != 0
    case VStr(s) => s != []
    case VList(items) => items != []
  }

  function DigitChar(d: nat): char
    requires d < 10
  {
    "0123456789"[d]
  }

  /** Decimal digits of `n`, most significant first. */
  function Digits(n: nat): (r: string)
    ensures r != []
    decreases n
  {
    if n < 10 then [DigitChar(n)] else Digits(n / 10) + [DigitChar(n % 10)]
  }

  /** Python `str(i)` for an integer. */
  function IntToString(i: int): (r: string)
    ensures r != []
  {
    if i < 0 then "-" + Digits(-i) else Digits(i)
  }

  /** `', '.join(parts)`. */
  function JoinComma(parts: seq<string>): string
  {
    if |parts| == 0 then ""
    else if |parts| == 1 then parts[0]
    else parts[0] + ", " + JoinComma(parts[1..])
  }

  /** Python `str(v)`: strings are returned as they are; every other value
      prints as a non-empty text (lists print their elements' `repr`). */
  function Str(v: Value): (r: string)
    ensures v.VStr? ==> r == v.s
    ensures !v.VStr? ==> r != []
    decreases v
  {
    match v
    case VNone => "None"
    case VBool(b) => if b then "True" else "False"
    case VInt(i) => IntToString(i)
    case VStr(s) => s
    case VList(items) =>
      "[" + JoinComma(seq(|items|, k requires 0 <= k < |items| =>
                            if items[k].VStr? then "'" + items[k].s + "'" else Str(items[k]))) + "]"
  }
}
