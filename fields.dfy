/** The field builders of a note (`comment`, `content`, `content_type`,
    `header`, `tags`, `urls`) and the merge rules of `note()`, as functions
    of the configuration and the arguments. */
module Fields {
  import opened Values
  import opened Collections

  // Keys of a note.
  const CommentKey: string := "comment"
  const ContentKey: string := "content"
  const HeaderKey: string := "header"
  const TagsKey: string := "tags"
  const UrlsKey: string := "urls"

  // Keys of the configuration the core reads.
  const AppendDateToHeader: string := "append_date_to_header"
  const AutoPrependHashtag: string := "auto_prepend_hashtag"
  const DefaultContentType: string := "default_content_type"
  const DefaultTemplateFile: string := "default_template_file"
  const NotesFileKey: string := "notes_file"

  /** The loaded configuration: a dictionary, read by key. */
  type Configs = map<string, Value>

  /** A note, or one of the single-key dictionaries the builders return. */
  type Note = map<string, Value>

  /** `comment(comment)`: the argument, `None` included, under `comment`. */
  function Comment(comment: Value): (r: Note)
    ensures r.Keys == {CommentKey} && r[CommentKey] == comment
  {
    map[CommentKey := comment]
  }

  /** `content(content)`: the argument, `None` included, under `content`. */
  function Content(content: Value): (r: Note)
    ensures r.Keys == {ContentKey} && r[ContentKey] == content
  {
    map[ContentKey := content]
  }

  /** `urls(urls)`: the list as given, or `[]` for a falsy argument. */
  function Urls(urls: Value): (r: Note)
    ensures r.Keys == {UrlsKey}
    ensures Truthy(r[UrlsKey]) <==> Truthy(urls)
    ensures Truthy(urls) ==> r[UrlsKey] == urls
    ensures !Truthy(urls) ==> r[UrlsKey] == VList([])
  {
    map[UrlsKey := if Truthy(urls) then urls else VList([])]
  }

  /** `content_type(content_type)`: the argument when truthy, otherwise the
      configured default, which must be present. */
  function ContentType(configs: Configs, contentType: Value): (r: Result<Value>)
    ensures Truthy(contentType) ==> r == Ok(contentType)
    ensures !Truthy(contentType) ==> (r.Ok? <==> DefaultContentType in configs)
    ensures !Truthy(contentType) && r.Ok? ==> r.value == configs[DefaultContentType]
    ensures r.Err? ==> r.error == KeyError(DefaultContentType)
  {
    if Truthy(contentType) then Ok(contentType)
    else if DefaultContentType in configs then Ok(configs[DefaultContentType])
    else Err(KeyError(DefaultContentType))
  }

  /** `header(header)` with the timestamp `date` held by the object: a truthy
      header, followed by " / " and the date when `append_date_to_header` is
      truthy; the date alone when the header is falsy. The flag is looked up
      only for a truthy header. */
  function Header(configs: Configs, date: Value, header: Value): (r: Result<Note>)
    ensures r.Ok? ==> r.value.Keys == {HeaderKey}
    ensures r.Err? <==> Truthy(header) && AppendDateToHeader !in configs
  {
    if Truthy(header) then
      if AppendDateToHeader !in configs then Err(KeyError(AppendDateToHeader))
      else if Truthy(configs[AppendDateToHeader]) then Ok(map[HeaderKey := VStr(Str(header) + " / " + Str(date))])
      else Ok(map[HeaderKey := header])
    else
      Ok(map[HeaderKey := date])
  }

  /** The shapes of a header, for a text header and a text date: with
      `append_date_to_header` truthy the date follows the header after " / ",
      with it falsy the header stays as it is, and with it missing the call
      raises `KeyError`; an empty header is the date alone. */
  lemma HeaderCases(configs: Configs, date: string, text: string)
    ensures text != [] && AppendDateToHeader in configs && Truthy(configs[AppendDateToHeader]) ==>
      Header(configs, VStr(date), VStr(text)) == Ok(map[HeaderKey := VStr(text + " / " + date)])
    ensures text != [] && AppendDateToHeader in configs && !Truthy(configs[AppendDateToHeader]) ==>
      Header(configs, VStr(date), VStr(text)) == Ok(map[HeaderKey := VStr(text)])
    ensures text != [] && AppendDateToHeader !in configs ==>
      Header(configs, VStr(date), VStr(text)) == Err(KeyError(AppendDateToHeader))
    ensures text == [] ==> Header(configs, VStr(date), VStr(text)) == Ok(map[HeaderKey := VStr(date)])
  {
  }

  /** A falsy header (`None`, the default, included) is the date itself,
      whatever the configuration holds: the flag is not looked up. */
  lemma FalsyHeaderIsDate(configs: Configs, date: Value, header: Value)
    requires !Truthy(header)
    ensures Header(configs, date, header) == Ok(map[HeaderKey := date])
  {
  }

  /** With a truthy date the built header is always truthy, so `note()`
      always keeps it. */
  lemma HeaderIsTruthy(configs: Configs, date: Value, header: Value)
    requires Truthy(date)
    requires Header(configs, date, header).Ok?
    ensures Truthy(Header(configs, date, header).value[HeaderKey])
  {
  }

  /** `tag.startswith("#")`. */
  predicate StartsWithHash(tag: string)
  {
    |tag| > 0 && tag[0] == '#'
  }

  /** A tag that starts with '#', made by prefixing one when it is missing. */
  function Hashtag(tag: string): (r: string)
    ensures StartsWithHash(r)
    ensures StartsWithHash(tag) ==> r == tag
    ensures !StartsWithHash(tag) ==> r == "#" + tag
  {
    if StartsWithHash(tag) then tag else "#" + tag
  }

  /** Whether `tags` prefixes: `auto_prepend_hashtag` is present and truthy. */
  predicate Prepends(configs: Configs)
  {
    AutoPrependHashtag in configs && Truthy(configs[AutoPrependHashtag])
  }

  /** The index of the first non-string tag, or the length when all are strings. */
  function FirstNonString(tags: seq<Value>): (k: nat)
    ensures k <= |tags|
    ensures forall i :: 0 <= i < k ==> tags[i].VStr?
    ensures k < |tags| ==> !tags[k].VStr?
  {
    if |tags| == 0 || !tags[0].VStr? then 0 else 1 + FirstNonString(tags[1..])
  }

  /** The index at which the loop of `tags` raises, or the length when it
      runs to the end: a missing flag raises at the first tag, a truthy flag
      at the first non-string tag (which has no `startswith`). */
  function TagsStop(configs: Configs, tags: seq<Value>): (k: nat)
    ensures k <= |tags|
  {
    if AutoPrependHashtag !in configs then 0
    else if Truthy(configs[AutoPrependHashtag]) then FirstNonString(tags)
    else |tags|
  }

  /** One pass of the loop body on a tag: a non-string becomes its `str()`,
      and a string tag gets its '#' when prefixing is on. */
  function NormalizedTag(prepend: bool, tag: Value): Value
  {
    if !tag.VStr? then VStr(Str(tag))
    else if prepend then VStr(Hashtag(tag.s))
    else tag
  }

  /** The caller's list after the loop of `tags`, whether it runs to the end
      or raises: the tags before the stop index are normalized, the tag at
      the stop index has already been replaced by its `str()` (that
      assignment comes before the failing lookup or `startswith`), and the
      rest are untouched. */
  function TagsAfter(configs: Configs, tags: seq<Value>): (r: seq<Value>)
    ensures |r| == |tags|
  {
    var k := TagsStop(configs, tags);
    seq(|tags|, i requires 0 <= i < |tags| =>
      if i < k then NormalizedTag(Prepends(configs), tags[i])
      else if i == k then NormalizedTag(false, tags[i])
      else tags[i])
  }

  /** What `tags(tags)` returns or raises. */
  function TagsResult(configs: Configs, tags: seq<Value>): (r: Result<Note>)
    ensures r.Ok? ==> r.value.Keys == {TagsKey}
  {
    if TagsStop(configs, tags) < |tags| then
      Err(if AutoPrependHashtag !in configs then KeyError(AutoPrependHashtag) else AttributeError("startswith"))
    else
      Ok(map[TagsKey := VList(TagsAfter(configs, tags))])
  }

  /** With prefixing on and only string tags: the list keeps its length and
      order, a tag without '#' becomes '#' + tag, and a tag with one stays. */
  lemma TagsPrefixHashes(configs: Configs, tags: seq<string>)
    requires Prepends(configs)
    ensures var r := TagsResult(configs, seq(|tags|, i requires 0 <= i < |tags| => VStr(tags[i])));
      && r.Ok? && r.value[TagsKey].VList?
      && |r.value[TagsKey].items| == |tags|
      && forall i :: 0 <= i < |tags| ==>
           r.value[TagsKey].items[i] == VStr(if StartsWithHash(tags[i]) then tags[i] else "#" + tags[i])
  {
    var values := seq(|tags|, i requires 0 <= i < |tags| => VStr(tags[i]));
    assert forall i :: 0 <= i < |values| ==> values[i].VStr?;
    assert FirstNonString(values) == |values|;
  }

  /** With the flag present and falsy, every tag becomes its `str()`. */
  lemma TagsWithoutPrefix(configs: Configs, tags: seq<Value>)
    requires AutoPrependHashtag in configs && !Truthy(configs[AutoPrependHashtag])
    ensures var r := TagsResult(configs, tags);
      && r.Ok? && r.value[TagsKey].VList?
      && |r.value[TagsKey].items| == |tags|
      && forall i :: 0 <= i < |tags| ==> r.value[TagsKey].items[i] == VStr(Str(tags[i]))
  {
  }

  /** With prefixing on, a non-string tag is an error (not a coercion): the
      call raises `AttributeError` and the list is left normalized up to it,
      with the offending tag replaced by its `str()`. */
  lemma NonStringTagRaises(configs: Configs, tags: seq<Value>, j: nat)
    requires Prepends(configs)
    requires j < |tags| && !tags[j].VStr?
    ensures TagsResult(configs, tags) == Err(AttributeError("startswith"))
    ensures var k := FirstNonString(tags);
      && k <= j
      && TagsAfter(configs, tags)[k] == VStr(Str(tags[k]))
      && (forall i :: 0 <= i < k ==> TagsAfter(configs, tags)[i] == VStr(Hashtag(tags[i].s)))
      && (forall i :: k < i < |tags| ==> TagsAfter(configs, tags)[i] == tags[i])
  {
  }

  /** Normalizing an already normalized list gives the same list. */
  lemma {:induction false} TagsIdempotent(configs: Configs, tags: seq<Value>)
    requires TagsResult(configs, tags).Ok?
    ensures TagsResult(configs, TagsAfter(configs, tags)) == TagsResult(configs, tags)
  {
    var once := TagsAfter(configs, tags);
    assert TagsStop(configs, tags) == |tags|;
    assert forall i :: 0 <= i < |once| ==> once[i].VStr?;
    assert TagsStop(configs, once) == |once|;
    assert TagsAfter(configs, once) == once by {
      forall i | 0 <= i < |once|
        ensures TagsAfter(configs, once)[i] == once[i]
      {
        if Prepends(configs) {
          assert once[i] == VStr(Hashtag(once[i].s));
        }
      }
    }
  }

  /** `{key: value}` when the value is truthy, and nothing otherwise. */
  function KeepTruthy(key: string, value: Value): (r: Note)
    ensures key in r <==> Truthy(value)
  {
    if Truthy(value) then map[key := value] else map[]
  }

  /** The keys of the five built fields, in the order `note()` merges them. */
  const FieldKeys: seq<string> := [CommentKey, ContentKey, HeaderKey, TagsKey, UrlsKey]

  lemma FieldKeysDistinct()
    ensures forall i, j :: 0 <= i < j < |FieldKeys| ==> FieldKeys[i] != FieldKeys[j]
  {
    assert CommentKey[3] != ContentKey[3];
  }

  /** The fields kept from `keys[i]: values[i]`, merged in order, each only
      when its value is truthy. */
  function Kept(keys: seq<string>, values: seq<Value>): Note
    requires |keys| == |values|
  {
    if |keys| == 0 then map[]
    else Kept(keys[..|keys| - 1], values[..|values| - 1]) + KeepTruthy(keys[|keys| - 1], values[|values| - 1])
  }

  /** Only the given keys are kept. */
  lemma {:induction false} KeptKeys(keys: seq<string>, values: seq<Value>, k: string)
    requires |keys| == |values|
    ensures k in Kept(keys, values) ==> k in keys
  {
    if |keys| > 0 {
      var n := |keys| - 1;
      KeptKeys(keys[..n], values[..n], k);
    }
  }

  /** Merging one more field: the fields kept from the first `i + 1` pairs
      are those kept from the first `i`, then `keys[i]` when its value is
      truthy. */
  lemma KeptStep(keys: seq<string>, values: seq<Value>, i: nat)
    requires |keys| == |values| && i < |keys|
    ensures Kept(keys[..i + 1], values[..i + 1]) == Kept(keys[..i], values[..i]) + KeepTruthy(keys[i], values[i])
  {
    assert keys[..i + 1][..i] == keys[..i] && values[..i + 1][..i] == values[..i];
  }

  /** With distinct keys, the key `keys[i]` is kept exactly when its value
      is truthy, and then holds that value. */
  lemma {:induction false} KeptAt(keys: seq<string>, values: seq<Value>, i: nat)
    requires |keys| == |values| && i < |keys|
    requires forall a, b :: 0 <= a < b < |keys| ==> keys[a] != keys[b]
    ensures keys[i] in Kept(keys, values) <==> Truthy(values[i])
    ensures Truthy(values[i]) ==> Kept(keys, values)[keys[i]] == values[i]
  {
    var n := |keys| - 1;
    assert Kept(keys, values) == Kept(keys[..n], values[..n]) + KeepTruthy(keys[n], values[n]);
    if i < n {
      assert keys[i] != keys[n];
      assert keys[..n][i] == keys[i] && values[..n][i] == values[i];
      KeptAt(keys[..n], values[..n], i);
    } else {
      KeptKeys(keys[..n], values[..n], keys[n]);
      assert keys[n] !in keys[..n];
    }
  }

  /** The merge rules of `note()` on the built fields: comment, content and
      header are kept when truthy, tags and urls when non-empty, and every
      keyword pair is then written over the result. */
  function AssembleNote(comment: Value, content: Value, header: Value, tags: Value, urls: Value,
                        kwargs: seq<(string, Value)>): Note
  {
    Overlay(Kept(FieldKeys, [comment, content, header, tags, urls]), kwargs)
  }

  /** What `note()` returns or raises, given the date it has already settled on. */
  function NoteResult(configs: Configs, date: Value, comment: Value, content: Value, header: Value,
                      tags: seq<Value>, urls: Value, kwargs: seq<(string, Value)>): (r: Result<Note>)
    ensures r.Err? <==> Header(configs, date, header).Err? || TagsResult(configs, tags).Err?
  {
    var h :- Header(configs, date, header);
    var t :- TagsResult(configs, tags);
    Ok(AssembleNote(comment, content, h[HeaderKey], t[TagsKey], Urls(urls)[UrlsKey], kwargs))
  }

  /** The merge rules on the built fields: every keyword pair is in the note
      with its value; a field no keyword names is present exactly when it is
      truthy, holding its value; no other key appears. */
  lemma AssembledFields(values: seq<Value>, kwargs: seq<(string, Value)>)
    requires |values| == |FieldKeys|
    requires DistinctKeys(kwargs)
    ensures var n := AssembleNote(values[0], values[1], values[2], values[3], values[4], kwargs);
      && (forall i :: 0 <= i < |kwargs| ==> kwargs[i].0 in n && n[kwargs[i].0] == kwargs[i].1)
      && (forall k :: k in n ==> k in FieldKeys || k in KeysOf(kwargs))
      && (forall i :: 0 <= i < |FieldKeys| && FieldKeys[i] !in KeysOf(kwargs) ==>
            (FieldKeys[i] in n <==> Truthy(values[i])) && (FieldKeys[i] in n ==> n[FieldKeys[i]] == values[i]))
  {
    assert [values[0], values[1], values[2], values[3], values[4]] == values;
    FieldKeysDistinct();
    forall k | k in Kept(FieldKeys, values)
      ensures k in FieldKeys
    {
      KeptKeys(FieldKeys, values, k);
    }
    forall i | 0 <= i < |FieldKeys|
      ensures FieldKeys[i] in Kept(FieldKeys, values) <==> Truthy(values[i])
      ensures Truthy(values[i]) ==> Kept(FieldKeys, values)[FieldKeys[i]] == values[i]
    {
      KeptAt(FieldKeys, values, i);
    }
    OverlayLookup(Kept(FieldKeys, values), kwargs);
  }

  /** The inclusion rules of `note()`: every keyword pair is in the note with
      its value; a field no keyword names is present exactly when it is
      truthy (tags and urls: non-empty), holding its built value; no other
      key appears. */
  lemma NoteFields(configs: Configs, date: Value, comment: Value, content: Value, header: Value,
                   tags: seq<Value>, urls: Value, kwargs: seq<(string, Value)>)
    requires DistinctKeys(kwargs)
    requires NoteResult(configs, date, comment, content, header, tags, urls, kwargs).Ok?
    ensures var n := NoteResult(configs, date, comment, content, header, tags, urls, kwargs).value;
      && (forall i :: 0 <= i < |kwargs| ==> kwargs[i].0 in n && n[kwargs[i].0] == kwargs[i].1)
      && n.Keys <= {CommentKey, ContentKey, HeaderKey, TagsKey, UrlsKey} + KeysOf(kwargs)
      && (CommentKey !in KeysOf(kwargs) ==>
            (CommentKey in n <==> Truthy(comment)) && (CommentKey in n ==> n[CommentKey] == comment))
      && (ContentKey !in KeysOf(kwargs) ==>
            (ContentKey in n <==> Truthy(content)) && (ContentKey in n ==> n[ContentKey] == content))
      && (HeaderKey !in KeysOf(kwargs) ==>
            (HeaderKey in n <==> Truthy(Header(configs, date, header).value[HeaderKey]))
            && (HeaderKey in n ==> n[HeaderKey] == Header(configs, date, header).value[HeaderKey]))
      && (TagsKey !in KeysOf(kwargs) ==>
            (TagsKey in n <==> |tags| > 0) && (TagsKey in n ==> n[TagsKey] == VList(TagsAfter(configs, tags))))
      && (UrlsKey !in KeysOf(kwargs) ==>
            (UrlsKey in n <==> Truthy(urls)) && (UrlsKey in n ==> n[UrlsKey] == urls))
  {
    var h := Header(configs, date, header).value[HeaderKey];
    var t := TagsResult(configs, tags).value[TagsKey];
    AssembledFields([comment, content, h, t, Urls(urls)[UrlsKey]], kwargs);
  }

  /** With a truthy date (a given one, or the timestamp) the note always has
      a header, so it is never empty; unless a keyword replaces it, the header
      is built from that same date: the date itself for a falsy header, and
      the header, " / " and the date when `append_date_to_header` is truthy. */
  lemma NoteHasHeader(configs: Configs, date: Value, comment: Value, content: Value, header: Value,
                      tags: seq<Value>, urls: Value, kwargs: seq<(string, Value)>)
    requires Truthy(date) && DistinctKeys(kwargs)
    requires NoteResult(configs, date, comment, content, header, tags, urls, kwargs).Ok?
    ensures var n := NoteResult(configs, date, comment, content, header, tags, urls, kwargs).value;
      && HeaderKey in n
      && (HeaderKey !in KeysOf(kwargs) && !Truthy(header) ==> n[HeaderKey] == date)
      && (HeaderKey !in KeysOf(kwargs) && Truthy(header) && Truthy(configs[AppendDateToHeader]) ==>
            n[HeaderKey] == VStr(Str(header) + " / " + Str(date)))
  {
    HeaderIsTruthy(configs, date, header);
    var h := Header(configs, date, header).value[HeaderKey];
    var t := TagsResult(configs, tags).value[TagsKey];
    AssembledFields([comment, content, h, t, Urls(urls)[UrlsKey]], kwargs);
  }

  /** `note()` with no arguments is the timestamp under `header` alone. */
  lemma DefaultNote(configs: Configs, now: string)
    requires now != []
    ensures NoteResult(configs, VStr(now), VNone, VNone, VNone, [], VNone, []) == Ok(map[HeaderKey := VStr(now)])
  {
    assert TagsAfter(configs, []) == [];
    assert TagsResult(configs, []) == Ok(map[TagsKey := VList([])]);
    assert Urls(VNone)[UrlsKey] == VList([]);
    var values := [VNone, VNone, VStr(now), VList([]), VList([])];
    AssembledFields(values, []);
    var n := AssembleNote(VNone, VNone, VStr(now), VList([]), VList([]), []);
    assert KeysOf<string, Value>([]) == {};
    forall k | k in n
      ensures k == HeaderKey
    {
      var i :| 0 <= i < |FieldKeys| && FieldKeys[i] == k;
      assert Truthy(values[i]);
    }
    assert HeaderKey == FieldKeys[2];
    assert n == map[HeaderKey := VStr(now)];
  }
}
