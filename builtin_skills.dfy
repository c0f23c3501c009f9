/**
 * The built-in `read_file` and `list_files` skills: each checks its `path`
 * argument, asks the file service (a parameter here) and shapes the
 * answer for the model: file text cut at 2000 characters with a note of
 * the full length, or a directory listing under a header that counts it.
 */
module BuiltinSkills {
  import opened Wrappers
  import opened Text
  import opened JsValues
  import opened SkillTypes

  const MissingPath: string := "缺少参数: path 是必需的"

  /** The message of the `TypeError` thrown when `args.path` is read on `null`. */
  const PathOfNull: string := "Cannot read properties of null (reading 'path')"

  /** How many characters of a file are passed on to the model. */
  const ReadLimit: nat := 2000

  /**
   * `const path = args.path as string; if (!path) throw ...`: the path as
   * given, when it is truthy.  Only `null` has no properties to read; on any
   * other value that is not an object the read yields `undefined`.
   */
  function PathArgument(args: Json): (r: Result<Json, string>)
    ensures args.JNull? ==> r == Err(PathOfNull)
    ensures !args.JNull? ==> (r.Ok? <==> Truthy(Get(args, "path")))
    ensures !args.JNull? && r.Err? ==> r.error == MissingPath
    ensures r.Ok? ==> Get(args, "path") == Some(r.value)
  {
    if args.JNull? then Err(PathOfNull)
    else
      var path := Get(args, "path");
      if !Truthy(path) then Err(MissingPath) else Ok(path.value)
  }

  /** A number written in decimal between a fixed prefix and a fixed suffix; the digits read back as the number. */
  function Framed(pre: string, n: nat, suf: string): (r: string)
    ensures |r| > |pre| + |suf| && r[..|pre|] == pre && r[|r| - |suf|..] == suf
    ensures AllDigits(r[|pre|..|r| - |suf|]) && DigitsValue(r[|pre|..|r| - |suf|]) == n
  {
    var digits := NatToString(n);
    DigitsRoundTrip(n);
    var r := pre + digits + suf;
    assert r[|pre|..|r| - |suf|] == digits;
    r
  }

  /** The note appended to a cut file: it states the file's full length. */
  function TruncationNote(length: nat): (r: string)
    ensures var pre := "\n\n... (内容已截断，共 "; var suf := " 字符)";
      && |r| > |pre| + |suf| && r[..|pre|] == pre && r[|r| - |suf|..] == suf
      && AllDigits(r[|pre|..|r| - |suf|]) && DigitsValue(r[|pre|..|r| - |suf|]) == length
  {
    Framed("\n\n... (内容已截断，共 ", length, " 字符)")
  }

  /** What `read_file` returns for a file's text. */
  function Truncate(content: string): (r: string)
    ensures |content| <= ReadLimit ==> r == content
    ensures |content| > ReadLimit ==> |r| > ReadLimit && r[..ReadLimit] == content[..ReadLimit]
  {
    if |content| > ReadLimit then content[..ReadLimit] + TruncationNote(|content|) else content
  }

  /** The length the note of a cut file states is the length of the whole file. */
  lemma TruncatedLengthRecoverable(content: string)
    requires |content| > ReadLimit
    ensures exists digits :: (AllDigits(digits) &&
      Truncate(content) == content[..ReadLimit] + "\n\n... (内容已截断，共 " + digits + " 字符)" &&
      DigitsValue(digits) == |content|)
  {
    DigitsRoundTrip(|content|);
    var digits := NatToString(|content|);
    var note := TruncationNote(|content|);
    assert note == Framed("\n\n... (内容已截断，共 ", |content|, " 字符)");
    assert note == "\n\n... (内容已截断，共 " + digits + " 字符)";
    assert Truncate(content) == content[..ReadLimit] + note;
  }

  /** Two files that share their first 2000 characters and their length read the same. */
  lemma TruncateSeesOnlyHeadAndLength(a: string, b: string)
    requires |a| == |b| > ReadLimit && a[..ReadLimit] == b[..ReadLimit]
    ensures Truncate(a) == Truncate(b)
  {
  }

  /** The `read_file` handler, given the file service's read. */
  function ReadFile(readFile: Json -> Result<string, string>, args: Json): (r: Result<string, string>)
    ensures PathArgument(args).Err? ==> r == Err(PathArgument(args).error)
    ensures PathArgument(args).Ok? ==>
      var read := readFile(PathArgument(args).value);
      && (read.Err? ==> r == Err(read.error))
      && (read.Ok? ==> r == Ok(Truncate(read.value)))
  {
    match PathArgument(args)
    case Err(e) => Err(e)
    case Ok(path) =>
      match readFile(path)
      case Err(e) => Err(e)
      case Ok(content) => Ok(Truncate(content))
  }

  /** A missing path is refused before any read: what the file service would answer does not matter. */
  lemma ReadRefusedBeforeRead(readA: Json -> Result<string, string>, readB: Json -> Result<string, string>, args: Json)
    requires !args.JNull? && !Truthy(Get(args, "path"))
    ensures ReadFile(readA, args) == ReadFile(readB, args) == Err(MissingPath)
  {
  }

  /** The header of a non-empty listing: it counts the entries. */
  function ListingHeader(count: nat): (r: string)
    ensures var pre := "目录包含 "; var suf := " 个项目:\n";
      && |r| > |pre| + |suf| && r[..|pre|] == pre && r[|r| - |suf|..] == suf
      && AllDigits(r[|pre|..|r| - |suf|]) && DigitsValue(r[|pre|..|r| - |suf|]) == count
  {
    Framed("目录包含 ", count, " 个项目:\n")
  }

  const EmptyListing: string := "目录为空"

  /** What `list_files` returns for a directory's entries. */
  function Listing(files: seq<string>): (r: string)
    ensures files == [] ==> r == EmptyListing
    ensures files != [] ==> StartsWith(r, ListingHeader(|files|))
  {
    if |files| > 0 then ListingHeader(|files|) + Join(files, "\n") else EmptyListing
  }

  /**
   * A non-empty listing gives back the number of entries and, when no
   * name holds a line feed, the entries themselves in order.
   */
  lemma ListingRecoverable(files: seq<string>)
    requires files != []
    requires forall i :: 0 <= i < |files| ==> '\n' !in files[i]
    ensures var r := Listing(files); var h := ListingHeader(|files|);
      && r[..|h|] == h && Split(r[|h|..]) == files
    ensures DigitsValue(NatToString(|files|)) == |files|
  {
    var h := ListingHeader(|files|);
    assert Listing(files)[|h|..] == Join(files, "\n");
    JoinSplit(files);
    DigitsRoundTrip(|files|);
  }

  /** The `list_files` handler, given the file service's listing. */
  function ListFiles(listFiles: Json -> Result<seq<string>, string>, args: Json): (r: Result<string, string>)
    ensures PathArgument(args).Err? ==> r == Err(PathArgument(args).error)
    ensures PathArgument(args).Ok? ==>
      var listed := listFiles(PathArgument(args).value);
      && (listed.Err? ==> r == Err(listed.error))
      && (listed.Ok? ==> r == Ok(Listing(listed.value)))
  {
    match PathArgument(args)
    case Err(e) => Err(e)
    case Ok(path) =>
      match listFiles(path)
      case Err(e) => Err(e)
      case Ok(files) => Ok(Listing(files))
  }

  /** A missing path is refused before any listing. */
  lemma ListRefusedBeforeListing(listA: Json -> Result<seq<string>, string>, listB: Json -> Result<seq<string>, string>, args: Json)
    requires !args.JNull? && !Truthy(Get(args, "path"))
    ensures ListFiles(listA, args) == ListFiles(listB, args) == Err(MissingPath)
  {
  }

  /** The parameter schema both skills declare: one string property `path`, which is required. */
  function PathSchema(description: string): (schema: Json)
    ensures Get(schema, "required") == Some(JArr([JStr("path")]))
    ensures Get(schema, "type") == Some(JStr("object"))
  {
    JObj(map[
      "type" := JStr("object"),
      "properties" := JObj(map[
        "path" := JObj(map["type" := JStr("string"), "description" := JStr(description)])]),
      "required" := JArr([JStr("path")])])
  }

  function ReadFileSkill(readFile: Json -> Result<string, string>): (s: Skill)
    ensures s.id == "builtin/read_file" && s.name == "read_file"
    ensures Get(s.parameters, "required") == Some(JArr([JStr("path")]))
    ensures forall args :: s.handler(args) == ReadFile(readFile, args)
  {
    Skill(
      "builtin/read_file",
      "read_file",
      "读取用户电脑上的一个文件内容。只能读取安全目录下的文件（Desktop, Documents, Downloads）。",
      PathSchema("文件的完整绝对路径"),
      args => ReadFile(readFile, args))
  }

  function ListFilesSkill(listFiles: Json -> Result<seq<string>, string>): (s: Skill)
    ensures s.id == "builtin/list_files" && s.name == "list_files"
    ensures Get(s.parameters, "required") == Some(JArr([JStr("path")]))
    ensures forall args :: s.handler(args) == ListFiles(listFiles, args)
  {
    Skill(
      "builtin/list_files",
      "list_files",
      "列出用户电脑上某个目录下的所有文件和文件夹名称。只能列出安全目录下的内容（Desktop, Documents, Downloads）。",
      PathSchema("目录的完整绝对路径"),
      args => ListFiles(listFiles, args))
  }
}
