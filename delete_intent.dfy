/**
 * Recognising "delete this file / folder" requests typed in Chinese, such
 * as 删除桌面上的 notes.txt or 删掉文档上的 旧项目 文件夹, and turning them
 * into an absolute path under the user's home directory.  The two fixed
 * regular expressions of the source are written out as matchers that try
 * start positions from left to right and make the same greedy, lazy and
 * backtracking choices the expressions make.
 */
module DeleteIntent {
  import opened Wrappers
  import opened Text
  import opened Patterns

  /** The characters besides white space that end a name in the delete patterns: `，。！？`. */
  const Stops: set<char> := {'，', '。', '！', '？'}

  /** The alternation `删掉|删除|移除|删了`. */
  predicate VerbAt(t: string, i: nat)
  {
    At(t, i, "删掉") || At(t, i, "删除") || At(t, i, "移除") || At(t, i, "删了")
  }

  /** Where the optional `的` and the name begin: the position just after `上`. */
  function AfterUpperAt(t: string, p: nat): (r: Option<(string, nat)>)
    ensures r.Some? ==> r.value.0 in DirMap && 1 <= r.value.1 <= |t| && At(t, r.value.1 - 1, "上")
  {
    if !VerbAt(t, p) then None
    else
      var a := SkipSpaces(t, p + 2);
      match DirAt(t, a)
      case None => None
      case Some(d) =>
        var b := SkipSpaces(t, a + 2);
        if At(t, b, "上") then Some((d, b + 1)) else None
  }

  /**
   * `的?\s*([^\s，。！？]+)` from `c`: with a `的` the name is tried after
   * it first; if nothing follows, the `的` itself starts the name.
   */
  function FileNameAfter(t: string, c: nat): (r: Option<string>)
    requires c <= |t|
    ensures r.Some? ==> r.value != [] && AllNameChars(Stops, r.value)
  {
    var withDe := c < |t| && t[c] == '的';
    var e := SkipSpaces(t, if withDe then c + 1 else c);
    var f := NameEnd(Stops, t, e);
    if f > e then Some(t[e..f])
    else if withDe then Some(t[c..NameEnd(Stops, t, c)])
    else None
  }

  /**
   * The file pattern anchored at `p`:
   * `(?:删掉|删除|移除|删了)\s*(桌面|文档|文稿|下载)\s*上的?\s*([^\s，。！？]+)`.
   */
  function FileMatchAt(t: string, p: nat): (r: Option<Capture>)
    ensures r.Some? ==> r.value.dir in DirMap && r.value.name != [] && AllNameChars(Stops, r.value.name)
  {
    match AfterUpperAt(t, p)
    case None => None
    case Some((d, c)) =>
      match FileNameAfter(t, c)
      case None => None
      case Some(n) => Some(Capture(d, n))
  }

  /**
   * `的?\s*([^\s，。！？]+?)\s*文件夹` from `c`, with the `的` taken first
   * and then, if that fails, left for the name.
   */
  function FolderNameAfter(t: string, c: nat): (r: Option<string>)
    requires c <= |t|
    ensures r.Some? ==> r.value != [] && AllNameChars(Stops, r.value)
  {
    var withDe := c < |t| && t[c] == '的';
    var first := FolderNameFrom(Stops, t, SkipSpaces(t, if withDe then c + 1 else c));
    if first.Some? || !withDe then first else FolderNameFrom(Stops, t, c)
  }

  /**
   * The folder pattern anchored at `p`:
   * `(?:删掉|删除|移除|删了)\s*(桌面|文档|文稿|下载)\s*上的?\s*([^\s，。！？]+?)\s*文件夹`.
   */
  function DirMatchAt(t: string, p: nat): (r: Option<Capture>)
    ensures r.Some? ==> r.value.dir in DirMap && r.value.name != [] && AllNameChars(Stops, r.value.name)
  {
    match AfterUpperAt(t, p)
    case None => None
    case Some((d, c)) =>
      match FolderNameAfter(t, c)
      case None => None
      case Some(n) => Some(Capture(d, n))
  }

  /** `String.prototype.match` without the global flag: the leftmost start position that matches. */
  function FirstMatch(t: string, p: nat, folder: bool): (r: Option<Capture>)
    ensures r.Some? ==> r.value.dir in DirMap && r.value.name != [] && AllNameChars(Stops, r.value.name)
    decreases |t| + 1 - p
  {
    if p > |t| then None
    else
      var here := if folder then DirMatchAt(t, p) else FileMatchAt(t, p);
      if here.Some? then here else FirstMatch(t, p + 1, folder)
  }

  const Prefixes: seq<string> := ["这个", "那个", "那个叫", "名叫", "叫"]

  /** The first alternative of `^(这个|那个|那个叫|名叫|叫)` that `name` starts with. */
  function LeadingPrefix(name: string): (r: Option<string>)
    ensures r.Some? ==> r.value in Prefixes && StartsWith(name, r.value)
    ensures r.None? ==> forall i :: 0 <= i < |Prefixes| ==> !StartsWith(name, Prefixes[i])
    ensures r != Some("那个叫")
  {
    if StartsWith(name, "这个") then Some("这个")
    else if StartsWith(name, "那个") then Some("那个")
    else if StartsWith(name, "名叫") then Some("名叫")
    else if StartsWith(name, "叫") then Some("叫")
    else
      assert !StartsWith(name, "那个叫") by {
        StartsWithLonger(name, "那个", "叫");
        assert "那个" + "叫" == "那个叫";
      }
      None
  }

  /** `normalizeName`: drop one leading 这个/那个/名叫/叫 and the white space after it, then trim. */
  function NormalizeName(name: string): (r: string)
    ensures r == [] || (!IsSpace(r[0]) && !IsSpace(r[|r| - 1]))
    ensures LeadingPrefix(name).None? ==> r == Trim(name)
    ensures LeadingPrefix(name).Some? ==> r == Trim(name[SkipSpaces(name, |LeadingPrefix(name).value|)..])
  {
    match LeadingPrefix(name)
    case None => Trim(name)
    case Some(w) => Trim(name[SkipSpaces(name, |w|)..])
  }

  /**
   * A name that starts with 这个, 那个, 名叫 or 叫 and white space loses
   * both: what is left is the rest of the name, trimmed.
   */
  lemma NormalizeStripsPrefix(w: string, gap: string, rest: string)
    requires w in Prefixes && w != "那个叫" && Spaces(gap) && (rest == [] || !IsSpace(rest[0]))
    ensures NormalizeName(w + gap + rest) == Trim(rest)
  {
    var name := w + gap + rest;
    assert w == "这个" || w == "那个" || w == "名叫" || w == "叫";
    assert name[..|w|] == w;
    assert name[0] == w[0];
    assert LeadingPrefix(name) == Some(w) by {
      if |w| == 2 {
        assert name[..2] == w;
      }
    }
    assert name[|w|..|w| + |gap|] == gap;
    SkipSpacesRun(name, |w|, |w| + |gap|);
    assert name[|w| + |gap|..] == rest;
  }

  /**
   * The alternative 那个叫 is never tried, since 那个 comes first and
   * matches: a name starting with 那个叫 keeps its 叫.
   */
  lemma LongerPrefixNeverTried(rest: string)
    ensures NormalizeName("那个叫" + rest) == Trim("叫" + rest)
    ensures StartsWith(NormalizeName("那个叫" + rest), "叫")
  {
    var name := "那个叫" + rest;
    assert name[..2] == "那个";
    assert !StartsWith(name, "这个") by { assert name[0] == '那'; }
    assert LeadingPrefix(name) == Some("那个");
    assert SkipSpaces(name, 2) == 2 by { assert name[2] == '叫'; }
    assert name[2..] == "叫" + rest;
    var u := "叫" + rest;
    assert TrimStart(u) == u;
    var r := TrimEnd(u);
    assert !IsSpace(u[0]);
    assert r != [];
    assert r[0] == '叫';
  }

  /** `/^(删掉|删除|移除|删了)/.test(trimmed)`. */
  predicate StartsWithVerb(t: string)
  {
    VerbAt(t, 0)
  }

  /** The path built from a capture, or `null` when the normalized name is empty. */
  function PathFrom(homeDir: string, c: Capture): (r: Option<string>)
    ensures r.None? <==> NormalizeName(Trim(c.name)) == []
    ensures r.Some? ==> var folder := homeDir + "/" + DirFor(c.dir) + "/";
      StartsWith(r.value, folder) && r.value[|folder|..] == NormalizeName(Trim(c.name))
  {
    var name := NormalizeName(Trim(c.name));
    if name == [] then None else Some(homeDir + "/" + DirFor(c.dir) + "/" + name)
  }

  /** `parseDeleteFileIntent`. */
  function ParseDeleteFileIntent(userMessage: string, homeDir: string): (r: Option<string>)
    ensures r.Some? ==> homeDir != "" && StartsWithVerb(Trim(userMessage)) && !Contains(Trim(userMessage), Folder)
    ensures r.Some? <==>
      && homeDir != "" && StartsWithVerb(Trim(userMessage)) && !Contains(Trim(userMessage), Folder)
      && FirstMatch(Trim(userMessage), 0, false).Some?
      && NormalizeName(Trim(FirstMatch(Trim(userMessage), 0, false).value.name)) != []
    ensures r.Some? ==> var c := FirstMatch(Trim(userMessage), 0, false).value;
      r.value == homeDir + "/" + DirFor(c.dir) + "/" + NormalizeName(Trim(c.name))
    ensures r.Some? ==>
      exists d, name :: (d in {"Desktop", "Documents", "Downloads"} && name != [] &&
        r.value == homeDir + "/" + d + "/" + name)
  {
    if homeDir == "" then None
    else
      var t := Trim(userMessage);
      if !StartsWithVerb(t) then None
      else if Contains(t, Folder) then None
      else
        match FirstMatch(t, 0, false)
        case None => None
        case Some(c) => PathFrom(homeDir, c)
  }

  /** `parseDeleteDirIntent`. */
  function ParseDeleteDirIntent(userMessage: string, homeDir: string): (r: Option<string>)
    ensures r.Some? ==> homeDir != "" && StartsWithVerb(Trim(userMessage)) && Contains(Trim(userMessage), Folder)
    ensures r.Some? <==>
      && homeDir != "" && StartsWithVerb(Trim(userMessage)) && Contains(Trim(userMessage), Folder)
      && FirstMatch(Trim(userMessage), 0, true).Some?
      && NormalizeName(Trim(FirstMatch(Trim(userMessage), 0, true).value.name)) != []
    ensures r.Some? ==> var c := FirstMatch(Trim(userMessage), 0, true).value;
      r.value == homeDir + "/" + DirFor(c.dir) + "/" + NormalizeName(Trim(c.name))
    ensures r.Some? ==>
      exists d, name :: (d in {"Desktop", "Documents", "Downloads"} && name != [] &&
        r.value == homeDir + "/" + d + "/" + name)
  {
    if homeDir == "" then None
    else
      var t := Trim(userMessage);
      if !StartsWithVerb(t) then None
      else if !Contains(t, Folder) then None
      else
        match FirstMatch(t, 0, true)
        case None => None
        case Some(c) => PathFrom(homeDir, c)
  }

  /** A message is never read both as deleting a file and as deleting a folder. */
  lemma AtMostOneDeleteIntent(userMessage: string, homeDir: string)
    ensures ParseDeleteFileIntent(userMessage, homeDir).None? || ParseDeleteDirIntent(userMessage, homeDir).None?
  {
  }

  const Verbs: seq<string> := ["删掉", "删除", "移除", "删了"]

  /**
   * The words of a request in front of the name: a verb, white space, a
   * folder word, white space, `上`, an optional `的`, white space.
   */
  datatype Head = Head(verb: string, gap1: string, dir: string, gap2: string, de: string, gap3: string)
  {
    predicate Valid()
    {
      verb in Verbs && dir in DirMap && (de == "" || de == "的") && Spaces(gap1) && Spaces(gap2) && Spaces(gap3)
    }

    /** The request made of these words followed by `rest`. */
    function Request(rest: string): string
    {
      verb + (gap1 + (dir + (gap2 + ("上" + (de + (gap3 + rest))))))
    }

    /** The words alone. */
    function Words(): string
    {
      verb + (gap1 + (dir + (gap2 + ("上" + (de + gap3)))))
    }

    /** Where the request goes on after `上`. */
    function AfterUpper(): nat
    {
      |verb| + |gap1| + |dir| + |gap2| + 1
    }

    /** Where the name starts. */
    function NameStart(): nat
    {
      AfterUpper() + |de| + |gap3|
    }

    /**
     * What may follow: something that does not start with white space, nor
     * with a `的` the optional `的` would take.
     */
    predicate Fits(rest: string)
    {
      rest != [] && !IsSpace(rest[0]) && (de == "" && gap3 == [] ==> rest[0] != '的')
    }
  }

  /** Verbs and folder words are two characters long. */
  lemma HeadLengths(h: Head)
    requires h.Valid()
    ensures |h.verb| == 2 && |h.dir| == 2
  {
    assert h.verb == "删掉" || h.verb == "删除" || h.verb == "移除" || h.verb == "删了";
    assert h.dir == "桌面" || h.dir == "文档" || h.dir == "文稿" || h.dir == "下载";
  }

  /** The pieces of a request up to `上`, by position. */
  lemma HeadFront(h: Head, rest: string)
    requires |h.verb| == 2 && |h.dir| == 2
    ensures var t := h.Request(rest); var a := 2 + |h.gap1|; var b := a + 2 + |h.gap2|;
      && b + 1 == h.AfterUpper() && b < |t|
      && t[..2] == h.verb && t[2..a] == h.gap1 && t[a..a + 2] == h.dir && t[a + 2..b] == h.gap2 && t[b] == '上'
  {
    var t := h.Request(rest);
    var a := 2 + |h.gap1|;
    var b := a + 2 + |h.gap2|;
    var r4 := "上" + (h.de + (h.gap3 + rest));
    var r3 := h.gap2 + r4;
    var r2 := h.dir + r3;
    var r1 := h.gap1 + r2;
    assert t[0..] == h.verb + r1;
    Peel(t, 0, 2, h.verb, r1);
    Peel(t, 2, a, h.gap1, r2);
    Peel(t, a, a + 2, h.dir, r3);
    Peel(t, a + 2, b, h.gap2, r4);
    assert t[b] == t[b..][0];
    assert t[..2] == t[0..2];
  }

  /** The pieces of a request after `上`, by position. */
  lemma HeadBack(h: Head, rest: string)
    ensures var t := h.Request(rest); var c := h.AfterUpper(); var e := h.NameStart();
      && e <= |t| && t[c..c + |h.de|] == h.de && t[c + |h.de|..e] == h.gap3 && t[e..] == rest
  {
  }

  /**
   * Where the pattern's pieces fall in a request: the verb and the folder
   * word are found, `的` is seen exactly when the request has it, and the
   * name starts right after the white space that follows.
   */
  lemma HeadLayout(h: Head, rest: string)
    requires h.Valid() && h.Fits(rest)
    ensures var t := h.Request(rest); var c := h.AfterUpper();
      && AfterUpperAt(t, 0) == Some((h.dir, c))
      && ((c < |t| && t[c] == '的') <==> h.de == "的")
      && SkipSpaces(t, c + |h.de|) == h.NameStart()
      && StartsWithVerb(t) && !IsSpace(t[0]) && t[h.NameStart()..] == rest
  {
    HeadUpper(h, rest);
    HeadName(h, rest);
  }

  /** The verb, the folder word and `上` of a request are found where they stand. */
  lemma HeadUpper(h: Head, rest: string)
    requires h.Valid()
    ensures var t := h.Request(rest);
      AfterUpperAt(t, 0) == Some((h.dir, h.AfterUpper())) && StartsWithVerb(t) && !IsSpace(t[0])
  {
    var t := h.Request(rest);
    var a := 2 + |h.gap1|;
    var b := a + 2 + |h.gap2|;
    HeadLengths(h);
    HeadFront(h, rest);
    VerbStart(t, h.verb);
    DirWordAt(t, a, h.dir);
    SkipSpacesRun(t, 2, a);
    SkipSpacesRun(t, a + 2, b);
    AfterUpperFrom(t, a, b, h.dir);
  }

  /** `AfterUpperAt` at the start of a text, given where its pieces end. */
  lemma AfterUpperFrom(t: string, a: nat, b: nat, d: string)
    requires StartsWithVerb(t) && 2 <= a && a + 2 <= b < |t|
    requires SkipSpaces(t, 2) == a && DirAt(t, a) == Some(d) && SkipSpaces(t, a + 2) == b && t[b] == '上'
    ensures AfterUpperAt(t, 0) == Some((d, b + 1))
  {
    assert t[b..][..1] == "上";
  }

  /** After `上`, `的` is seen exactly when the request has it, and the name follows the white space. */
  lemma HeadName(h: Head, rest: string)
    requires h.Valid() && h.Fits(rest)
    ensures var t := h.Request(rest); var c := h.AfterUpper();
      && ((c < |t| && t[c] == '的') <==> h.de == "的")
      && SkipSpaces(t, c + |h.de|) == h.NameStart()
      && t[h.NameStart()..] == rest
  {
    var t := h.Request(rest);
    var c := h.AfterUpper();
    var e := h.NameStart();
    HeadBack(h, rest);
    assert t[e] == rest[0];
    SkipSpacesRun(t, c + |h.de|, e);
    if h.de == "的" {
      assert t[c] == '的';
    } else if h.gap3 != [] {
      assert t[c] == h.gap3[0];
    } else {
      assert t[c] == rest[0];
    }
  }

  /** A text that starts with a verb. */
  lemma VerbStart(t: string, verb: string)
    requires verb in Verbs && |t| >= 2 && t[..2] == verb
    ensures StartsWithVerb(t) && !IsSpace(t[0])
  {
    assert verb == "删掉" || verb == "删除" || verb == "移除" || verb == "删了";
    assert t[0..][..2] == verb;
    assert t[0] == verb[0];
  }

  /** A folder word at `a`. */
  lemma DirWordAt(t: string, a: nat, dir: string)
    requires dir in DirMap && a + 2 <= |t| && t[a..a + 2] == dir
    ensures DirAt(t, a) == Some(dir) && !IsSpace(t[a])
  {
    assert dir == "桌面" || dir == "文档" || dir == "文稿" || dir == "下载";
    assert t[a] == dir[0];
    assert t[a..][..2] == dir;
    DirAtFinds(t, a, dir);
  }

  /** A request is its words followed by the rest. */
  lemma RequestSplits(h: Head, rest: string)
    ensures h.Request(rest) == h.Words() + rest
  {
  }

  /** No word in front of the name holds 件, and the last character in front of it is not 文. */
  lemma HeadCharacters(h: Head)
    requires h.Valid()
    ensures '件' !in h.Words() && h.Words()[|h.Words()| - 1] != '文'
  {
    NoJianIn(h.verb, h.dir);
    assert '件' !in h.gap1 && '件' !in h.gap2 && '件' !in h.gap3;
    WordsEnd(h);
  }

  lemma NoJianIn(verb: string, dir: string)
    requires verb in Verbs && dir in DirMap
    ensures '件' !in verb && '件' !in dir
  {
    assert verb == "删掉" || verb == "删除" || verb == "移除" || verb == "删了";
    assert dir == "桌面" || dir == "文档" || dir == "文稿" || dir == "下载";
  }

  lemma WordsEnd(h: Head)
    requires h.Valid()
    ensures h.Words()[|h.Words()| - 1] != '文'
  {
    var w := h.Words();
    if h.gap3 != [] {
      assert w[|w| - 1] == h.gap3[|h.gap3| - 1];
    } else if h.de != "" {
      assert w[|w| - 1] == '的';
    } else {
      assert w[|w| - 1] == '上';
    }
  }

  /** A request whose rest holds no `文件夹` holds none at all. */
  lemma RequestHasNoFolder(h: Head, rest: string)
    requires h.Valid() && !Contains(rest, Folder)
    ensures !Contains(h.Request(rest), Folder)
  {
    var w := h.Words();
    var t := w + rest;
    RequestSplits(h, rest);
    HeadCharacters(h);
    forall i | 0 <= i <= |t| ensures !StartsWith(t[i..], Folder) {
      FolderAt(t, i);
      if i + 1 < |w| {
        assert t[i + 1] == w[i + 1];
      } else if i + 1 == |w| {
        assert t[i] == w[|w| - 1];
      } else {
        assert t[i..] == rest[i - |w|..];
      }
    }
  }

  /** A match at the first position tried is the match reported. */
  lemma FirstMatchAtStart(t: string, folder: bool, c: Capture)
    requires (if folder then DirMatchAt(t, 0) else FileMatchAt(t, 0)) == Some(c)
    ensures FirstMatch(t, 0, folder) == Some(c)
  {
  }

  /** The path of a capture whose name is made of name characters: the name as normalized. */
  lemma PathOfName(homeDir: string, d: string, name: string)
    requires d in DirMap && name != [] && AllNameChars(Stops, name)
    ensures PathFrom(homeDir, Capture(d, name)) ==
      if NormalizeName(name) == [] then None else Some(homeDir + "/" + DirMap[d] + "/" + NormalizeName(name))
  {
    assert IsNameChar(Stops, name[0]) && IsNameChar(Stops, name[|name| - 1]);
    TrimKeeps(name);
  }

  /** A match is the folder word before `上` and the name after it. */
  lemma MatchAfterUpper(t: string, d: string, c: nat, name: string, folder: bool)
    requires AfterUpperAt(t, 0) == Some((d, c))
    requires (if folder then FolderNameAfter(t, c) else FileNameAfter(t, c)) == Some(name)
    ensures (if folder then DirMatchAt(t, 0) else FileMatchAt(t, 0)) == Some(Capture(d, name))
  {
  }

  /** After `上`, the file pattern takes the name characters from `e` to the end of the text. */
  lemma FileNameToEnd(t: string, c: nat, e: nat)
    requires c <= |t| && SkipSpaces(t, if c < |t| && t[c] == '的' then c + 1 else c) == e
    requires e < |t| && AllNameChars(Stops, t[e..])
    ensures FileNameAfter(t, c) == Some(t[e..])
  {
    NameEndToEnd(Stops, t, e);
    assert t[e..|t|] == t[e..];
  }

  /** After the head, a name made of name characters to the end of the text is taken whole, at the first position tried. */
  lemma FileMatchAfterHead(h: Head, name: string)
    requires h.Valid() && h.Fits(name) && AllNameChars(Stops, name)
    ensures FirstMatch(h.Request(name), 0, false) == Some(Capture(h.dir, name))
  {
    var t := h.Request(name);
    var c := h.AfterUpper();
    HeadLayout(h, name);
    assert (if c < |t| && t[c] == '的' then c + 1 else c) == c + |h.de|;
    FileNameToEnd(t, c, h.NameStart());
    MatchAfterUpper(t, h.dir, c, name, false);
    FirstMatchAtStart(t, false, Capture(h.dir, name));
  }

  /** A trimmed message that starts with a verb and holds no `文件夹` is understood through its leftmost file match. */
  lemma FileParseThroughMatch(t: string, homeDir: string, c: Capture)
    requires homeDir != "" && Trim(t) == t && StartsWithVerb(t) && !Contains(t, Folder)
    requires FirstMatch(t, 0, false) == Some(c)
    ensures ParseDeleteFileIntent(t, homeDir) == PathFrom(homeDir, c)
  {
  }

  /** A trimmed message that starts with a verb and holds `文件夹` is understood through its leftmost folder match. */
  lemma DirParseThroughMatch(t: string, homeDir: string, c: Capture)
    requires homeDir != "" && Trim(t) == t && StartsWithVerb(t) && Contains(t, Folder)
    requires FirstMatch(t, 0, true) == Some(c)
    ensures ParseDeleteDirIntent(t, homeDir) == PathFrom(homeDir, c)
  {
  }

  /** A file request is trimmed and starts with its verb. */
  lemma FileRequestShape(h: Head, name: string)
    requires h.Valid() && h.Fits(name) && AllNameChars(Stops, name)
    ensures var t := h.Request(name); Trim(t) == t && StartsWithVerb(t)
  {
    var t := h.Request(name);
    RequestStart(h, name);
    HeadBack(h, name);
    assert t[|t| - 1] == t[h.NameStart()..][|name| - 1];
    assert IsNameChar(Stops, name[|name| - 1]);
    TrimKeeps(t);
  }

  /** A file request is understood through the capture of its folder word and name. */
  lemma FileRequestMatched(h: Head, name: string, homeDir: string)
    requires h.Valid() && h.Fits(name) && homeDir != ""
    requires AllNameChars(Stops, name) && !Contains(name, Folder)
    ensures ParseDeleteFileIntent(h.Request(name), homeDir) == PathFrom(homeDir, Capture(h.dir, name))
  {
    FileRequestShape(h, name);
    RequestHasNoFolder(h, name);
    FileMatchAfterHead(h, name);
    FileParseThroughMatch(h.Request(name), homeDir, Capture(h.dir, name));
  }

  /**
   * A file request is understood: any verb, any white space, the folder
   * word, `上` with or without `的`, and a name free of `文件夹` yield the
   * path of that name, as normalized, in that folder.
   */
  lemma FileRequestUnderstood(h: Head, name: string, homeDir: string)
    requires h.Valid() && h.Fits(name) && homeDir != ""
    requires AllNameChars(Stops, name) && !Contains(name, Folder)
    ensures ParseDeleteFileIntent(h.Request(name), homeDir) ==
      if NormalizeName(name) == [] then None else Some(homeDir + "/" + DirMap[h.dir] + "/" + NormalizeName(name))
  {
    FileRequestMatched(h, name, homeDir);
    PathOfName(homeDir, h.dir, name);
  }

  /** After `上`, the folder pattern takes the name from `e` up to the white space and `文件夹` closing the text. */
  lemma FolderNameToFolder(t: string, c: nat, e: nat, name: string, gap: string)
    requires c <= |t| && SkipSpaces(t, if c < |t| && t[c] == '的' then c + 1 else c) == e
    requires e + |name| + |gap| + 3 == |t| && t[e..] == name + gap + Folder
    requires name != [] && AllNameChars(Stops, name) && '文' !in name && Spaces(gap)
    ensures FolderNameAfter(t, c) == Some(name)
  {
    FolderNameToEnd(Stops, t, e, name, gap);
  }

  /** After the head, a name free of `文` closed by white space and `文件夹` is taken up to them, at the first position tried. */
  lemma DirMatchAfterHead(h: Head, name: string, gap: string)
    requires h.Valid() && h.Fits(name + gap + Folder)
    requires name != [] && AllNameChars(Stops, name) && '文' !in name && Spaces(gap)
    ensures FirstMatch(h.Request(name + gap + Folder), 0, true) == Some(Capture(h.dir, name))
  {
    var rest := name + gap + Folder;
    var t := h.Request(rest);
    var c := h.AfterUpper();
    HeadLayout(h, rest);
    assert (if c < |t| && t[c] == '的' then c + 1 else c) == c + |h.de|;
    FolderNameToFolder(t, c, h.NameStart(), name, gap);
    MatchAfterUpper(t, h.dir, c, name, true);
    FirstMatchAtStart(t, true, Capture(h.dir, name));
  }

  /** A request starts with its verb. */
  lemma RequestStart(h: Head, rest: string)
    requires h.Valid()
    ensures StartsWithVerb(h.Request(rest)) && !IsSpace(h.Request(rest)[0])
  {
    HeadLengths(h);
    assert h.Request(rest)[..2] == h.verb;
    VerbStart(h.Request(rest), h.verb);
  }

  /** A folder request ends with `文件夹`. */
  lemma FolderRequestEnd(h: Head, name: string, gap: string)
    ensures var t := h.Request(name + gap + Folder);
      Contains(t, Folder) && !IsSpace(t[|t| - 1])
  {
    var rest := name + gap + Folder;
    var t := h.Request(rest);
    HeadBack(h, rest);
    var e := h.NameStart();
    assert t[|t| - 3..] == t[e..][|rest| - 3..];
    assert rest[|rest| - 3..] == Folder;
    assert t[|t| - 1] == '夹';
  }

  /** A folder request is trimmed, starts with its verb and holds `文件夹`. */
  lemma FolderRequestShape(h: Head, name: string, gap: string)
    requires h.Valid()
    ensures var t := h.Request(name + gap + Folder);
      Trim(t) == t && StartsWithVerb(t) && Contains(t, Folder)
  {
    var t := h.Request(name + gap + Folder);
    RequestStart(h, name + gap + Folder);
    FolderRequestEnd(h, name, gap);
    TrimKeeps(t);
  }

  /** A folder request is understood through the capture of its folder word and name. */
  lemma FolderRequestMatched(h: Head, name: string, gap: string, homeDir: string)
    requires h.Valid() && h.Fits(name + gap + Folder) && homeDir != ""
    requires name != [] && AllNameChars(Stops, name) && '文' !in name && Spaces(gap)
    ensures ParseDeleteDirIntent(h.Request(name + gap + Folder), homeDir) == PathFrom(homeDir, Capture(h.dir, name))
  {
    FolderRequestShape(h, name, gap);
    DirMatchAfterHead(h, name, gap);
    DirParseThroughMatch(h.Request(name + gap + Folder), homeDir, Capture(h.dir, name));
  }

  /**
   * A folder request is understood: any verb, any white space, the folder
   * word, `上` with or without `的`, a name free of `文`, white space and
   * 文件夹 yield the path of that name, as normalized, in that folder.
   */
  lemma FolderRequestUnderstood(h: Head, name: string, gap: string, homeDir: string)
    requires h.Valid() && h.Fits(name) && homeDir != ""
    requires AllNameChars(Stops, name) && '文' !in name && Spaces(gap)
    ensures ParseDeleteDirIntent(h.Request(name + gap + Folder), homeDir) ==
      if NormalizeName(name) == [] then None else Some(homeDir + "/" + DirMap[h.dir] + "/" + NormalizeName(name))
  {
    var rest := name + gap + Folder;
    assert rest[0] == name[0];
    FolderRequestMatched(h, name, gap, homeDir);
    PathOfName(homeDir, h.dir, name);
  }

  /** Without a delete verb at any position from `p` on, neither pattern matches from `p`. */
  lemma {:induction false} NoVerbNoMatch(t: string, p: nat, folder: bool)
    requires forall q :: p <= q <= |t| ==> !VerbAt(t, q)
    ensures FirstMatch(t, p, folder) == None
    decreases |t| + 1 - p
  {
    if p <= |t| {
      assert !VerbAt(t, p);
      NoVerbNoMatch(t, p + 1, folder);
    }
  }

  /** Every match goes through a `上`. */
  lemma MatchNeedsUpper(t: string, p: nat)
    requires '上' !in t
    ensures AfterUpperAt(t, p) == None
  {
  }

  lemma {:induction false} NoUpperNoMatch(t: string, p: nat, folder: bool)
    requires '上' !in t
    ensures FirstMatch(t, p, folder) == None
    decreases |t| + 1 - p
  {
    if p <= |t| {
      MatchNeedsUpper(t, p);
      NoUpperNoMatch(t, p + 1, folder);
    }
  }

  /** `上` is not optional in the delete patterns: a message without it is understood as neither request. */
  lemma UpperIsRequired(userMessage: string, homeDir: string)
    requires '上' !in userMessage
    ensures ParseDeleteFileIntent(userMessage, homeDir) == None
    ensures ParseDeleteDirIntent(userMessage, homeDir) == None
  {
    var t := Trim(userMessage);
    var u := TrimStart(userMessage);
    assert '上' !in u by {
      assert u == userMessage[|userMessage| - |u|..];
    }
    assert '上' !in t by {
      assert t == TrimEnd(u) == u[..|t|];
    }
    NoUpperNoMatch(t, 0, false);
    NoUpperNoMatch(t, 0, true);
  }
}
