/** The options text the package hands to the file provider
    (`makeFileOpts`): a JSON object naming the directory and the file name of
    a log file path. */
module FileOpts {
  import opened Results
  import opened GoStrings
  import opened Quoting

  /** The directory and file name makeFileOpts writes for `fullpath`:
      `filepath.Split`, with "." for a path that has no directory part. */
  function FileLocation(fullpath: string): (r: (string, string))
    ensures '/' !in r.1
    ensures r.0 == "." <==> '/' !in fullpath
    ensures r.0 == "." ==> r.1 == fullpath
    ensures r.0 != "." ==> r.0 + r.1 == fullpath && r.0[|r.0| - 1] == '/'
  {
    var (dir, file) := SplitPath(fullpath);
    if dir == "" then (".", file) else (dir, file)
  }

  const DirKey: string := "{\"dir\":"
  const FileKey: string := ",\"filename\":"

  /** `{"dir":<dir>,"filename":<file>}` with both values quoted in `syn`. */
  function RenderFileOpts(syn: Syntax, dir: string, file: string): (text: string)
    ensures |text| > |DirKey| && text[..|DirKey|] == DirKey && text[|text| - 1] == '}'
  {
    DirKey + (Quote(syn, dir) + FileField(syn, file))
  }

  /** The part after the directory: `,"filename":<file>}`. */
  function FileField(syn: Syntax, file: string): (text: string)
  {
    FileKey + (Quote(syn, file) + "}")
  }

  /** makeFileOpts as written: the values are quoted with strconv.Quote. */
  function MakeFileOpts(fullpath: string): (opts: string)
    ensures |opts| > |DirKey| && opts[..|DirKey|] == DirKey && opts[|opts| - 1] == '}'
  {
    var (dir, file) := FileLocation(fullpath);
    RenderFileOpts(GoSyntax, dir, file)
  }

  /** makeFileOpts as its JSON consumer needs it: the values are JSON strings. */
  function MakeFileOptsJson(fullpath: string): (opts: string)
    ensures |opts| > |DirKey| && opts[..|DirKey|] == DirKey && opts[|opts| - 1] == '}'
  {
    var (dir, file) := FileLocation(fullpath);
    RenderFileOpts(JsonSyntax, dir, file)
  }

  /** Reads back an options text of exactly the shape RenderFileOpts writes,
      with string values in `syn`: the directory and the file name. */
  function ReadFileOpts(syn: Syntax, s: string): (r: Option<(string, string)>)
  {
    if !(DirKey <= s) then None
    else match ReadQuoted(syn, s[|DirKey|..])
      case None => None
      case Some((dir, rest)) =>
        match ReadFileField(syn, rest)
        case None => None
        case Some(file) => Some((dir, file))
  }

  /** Reads back what FileField writes. */
  function ReadFileField(syn: Syntax, s: string): (r: Option<string>)
  {
    if !(FileKey <= s) then None
    else match ReadQuoted(syn, s[|FileKey|..])
      case None => None
      case Some((file, rest)) => if rest == "}" then Some(file) else None
  }

  lemma ReadFileFieldRoundTrip(syn: Syntax, file: string)
    ensures ReadFileField(syn, FileField(syn, file)) == Some(file)
  {
    var v := Quote(syn, file) + "}";
    assert (FileKey + v)[|FileKey|..] == v;
    ReadQuoteRoundTrip(syn, file, "}");
  }

  /** Reading an options text gives back the two values it was written with. */
  lemma RenderRoundTrip(syn: Syntax, dir: string, file: string)
    ensures ReadFileOpts(syn, RenderFileOpts(syn, dir, file)) == Some((dir, file))
  {
    var v := Quote(syn, dir) + FileField(syn, file);
    assert (DirKey + v)[|DirKey|..] == v;
    ReadQuoteRoundTrip(syn, dir, FileField(syn, file));
    ReadFileFieldRoundTrip(syn, file);
  }

  /** makeFileOpts as written: a Go-literal reader recovers the directory and
      the file name it split `fullpath` into. */
  lemma MakeFileOptsRoundTrip(fullpath: string)
    ensures ReadFileOpts(GoSyntax, MakeFileOpts(fullpath)) == Some(FileLocation(fullpath))
  {
    var (dir, file) := FileLocation(fullpath);
    RenderRoundTrip(GoSyntax, dir, file);
  }

  /** The corrected makeFileOpts: a JSON reader recovers the directory and the
      file name, for every path. */
  lemma MakeFileOptsJsonRoundTrip(fullpath: string)
    ensures ReadFileOpts(JsonSyntax, MakeFileOptsJson(fullpath)) == Some(FileLocation(fullpath))
  {
    var (dir, file) := FileLocation(fullpath);
    RenderRoundTrip(JsonSyntax, dir, file);
  }

  /** The two agree on every path without a character strconv.Quote spells
      outside JSON. */
  lemma MakeFileOptsAgree(fullpath: string)
    requires forall i :: 0 <= i < |fullpath| ==> !GoOnlyEscape(fullpath[i])
    ensures MakeFileOpts(fullpath) == MakeFileOptsJson(fullpath)
  {
    var (dir, file) := FileLocation(fullpath);
    if dir != "." {
      assert dir == fullpath[..|dir|] && file == fullpath[|dir|..];
      GoEscapeIsJson(dir);
    }
    assert file == fullpath[|fullpath| - |file|..];
    GoEscapeIsJson(file);
  }

  ghost predicate HasGoOnlyEscape(s: string) {
    exists i :: 0 <= i < |s| && GoOnlyEscape(s[i])
  }

  lemma ReadGoQuotedAsJson(v: string, rest: string)
    ensures HasGoOnlyEscape(v) ==> ReadQuoted(JsonSyntax, Quote(GoSyntax, v) + rest) == None
    ensures !HasGoOnlyEscape(v) ==> ReadQuoted(JsonSyntax, Quote(GoSyntax, v) + rest) == Some((v, rest))
  {
    var q := Quote(GoSyntax, v) + rest;
    assert q[1..] == Escape(GoSyntax, v) + "\"" + rest;
    if HasGoOnlyEscape(v) {
      GoQuoteNotJson(v, rest);
    } else {
      GoEscapeIsJson(v);
      ReadBodyEscape(JsonSyntax, v, rest);
    }
  }

  lemma LocationHasGoOnlyEscape(fullpath: string)
    requires HasGoOnlyEscape(fullpath)
    ensures HasGoOnlyEscape(FileLocation(fullpath).0) || HasGoOnlyEscape(FileLocation(fullpath).1)
  {
    var (dir, file) := FileLocation(fullpath);
    var i :| 0 <= i < |fullpath| && GoOnlyEscape(fullpath[i]);
    if dir == "." {
      assert GoOnlyEscape(file[i]);
    } else if i < |dir| {
      assert fullpath[i] == dir[i];
    } else {
      assert fullpath[i] == file[i - |dir|];
    }
  }

  lemma ReadGoFileFieldAsJson(file: string)
    ensures HasGoOnlyEscape(file) ==> ReadFileField(JsonSyntax, FileField(GoSyntax, file)) == None
  {
    var v := Quote(GoSyntax, file) + "}";
    assert (FileKey + v)[|FileKey|..] == v;
    ReadGoQuotedAsJson(file, "}");
  }

  lemma RenderGoNotJson(dir: string, file: string)
    requires HasGoOnlyEscape(dir) || HasGoOnlyEscape(file)
    ensures ReadFileOpts(JsonSyntax, RenderFileOpts(GoSyntax, dir, file)) == None
  {
    var v := Quote(GoSyntax, dir) + FileField(GoSyntax, file);
    assert (DirKey + v)[|DirKey|..] == v;
    ReadGoQuotedAsJson(dir, FileField(GoSyntax, file));
    ReadGoFileFieldAsJson(file);
  }

  /** makeFileOpts as written: for a path holding such a character (a BEL, a
      VT, another control character or DEL) its text is not JSON of this shape;
      a JSON reader refuses it. */
  lemma MakeFileOptsNotJson(fullpath: string)
    requires HasGoOnlyEscape(fullpath)
    ensures ReadFileOpts(JsonSyntax, MakeFileOpts(fullpath)) == None
  {
    LocationHasGoOnlyEscape(fullpath);
    var (dir, file) := FileLocation(fullpath);
    RenderGoNotJson(dir, file);
  }

  /** The smallest case: a file name that is a single BEL character. */
  lemma BellFileNameNotJson()
    ensures ReadFileOpts(JsonSyntax, MakeFileOpts([0x07 as char])) == None
  {
    assert GoOnlyEscape([0x07 as char][0]);
    MakeFileOptsNotJson([0x07 as char]);
  }
}
