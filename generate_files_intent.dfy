/**
 * Recognising "generate N files into a folder" requests such as
 * 生成10个JSON文件到桌面的 水果 文件夹, and carrying them out: one file per
 * number 1..N, named after the topic and format, created through a
 * callback whose failures are counted.
 */
module GenerateFilesIntent {
  import opened Wrappers
  import opened Text
  import opened Patterns

  /** The characters besides white space that end a folder name here: `，。！？、`. */
  const Stops: set<char> := {'，', '。', '！', '？', '、'}

  // ---------------------------------------------------------------------
  // The count pattern `生成\s*(\d+)\s*(条|个)`
  // ---------------------------------------------------------------------

  /** `\d+` taken greedily: the end of the run of ASCII digits starting at `i`. */
  function DigitEnd(t: string, i: nat): (j: nat)
    requires i <= |t|
    ensures i <= j <= |t|
    ensures AllDigits(t[i..j])
    ensures j == |t| || !IsDigit(t[j])
    decreases |t| - i
  {
    if i < |t| && IsDigit(t[i]) then DigitEnd(t, i + 1) else i
  }

  /** A digit run that stops at a non-digit is exactly what `\d+` takes. */
  lemma {:induction false} DigitEndAt(t: string, i: nat, j: nat)
    requires i <= j <= |t| && AllDigits(t[i..j]) && (j == |t| || !IsDigit(t[j]))
    ensures DigitEnd(t, i) == j
    decreases j - i
  {
    if i < j {
      assert t[i] == t[i..j][0];
      var u := t[i + 1..j];
      forall k | 0 <= k < |u| ensures IsDigit(u[k]) {
        assert u[k] == t[i..j][k + 1];
      }
      DigitEndAt(t, i + 1, j);
    }
  }

  /**
   * The count pattern anchored at `p`: the number its digits spell. The
   * greedy choices never need revisiting, since giving back a digit or a
   * space leaves a digit or a space where `条|个` must stand.
   */
  function CountAt(t: string, p: nat): (r: Option<nat>)
  {
    if !At(t, p, "生成") then None
    else
      var a := SkipSpaces(t, p + 2);
      var b := DigitEnd(t, a);
      if b == a then None
      else
        var c := SkipSpaces(t, b);
        if At(t, c, "条") || At(t, c, "个") then Some(DigitsValue(t[a..b])) else None
  }

  /** `t.match(...)` without the global flag: the leftmost start position where the count pattern matches. */
  function FirstCount(t: string, p: nat): (r: Option<nat>)
    ensures r.None? <==> forall q :: p <= q <= |t| ==> CountAt(t, q).None?
    ensures r.Some? ==> exists q :: p <= q <= |t| && CountAt(t, q) == r && forall k :: p <= k < q ==> CountAt(t, k).None?
    decreases |t| + 1 - p
  {
    if p > |t| then None
    else if CountAt(t, p).Some? then CountAt(t, p)
    else FirstCount(t, p + 1)
  }

  /** `Math.min(100, Math.max(1, n))`. */
  function Clamp(n: nat): (r: nat)
    ensures 1 <= r <= 100
    ensures 1 <= n <= 100 ==> r == n
    ensures n == 0 ==> r == 1
    ensures n > 100 ==> r == 100
  {
    if n < 1 then 1 else if n > 100 then 100 else n
  }

  // ---------------------------------------------------------------------
  // The folder pattern `(?:到|在)\s*(桌面|文档|文稿|下载)\s*上?的?\s*([^\s，。！？、]+?)\s*文件夹`
  // ---------------------------------------------------------------------

  predicate PlaceAt(t: string, p: nat)
  {
    At(t, p, "到") || At(t, p, "在")
  }

  /**
   * `的?\s*` from `c`: where the name may start, in the order the regular
   * expression tries them, first with the `的` taken when it is there, then
   * without it.  Giving back white space before the name would make the
   * name start with white space, which its class excludes, so only these
   * starts matter.
   */
  function DeStarts(t: string, c: nat): (r: seq<nat>)
    requires c <= |t|
    ensures 1 <= |r| <= 2 && forall i :: 0 <= i < |r| ==> r[i] <= |t|
  {
    (if At(t, c, "的") then [SkipSpaces(t, c + 1)] else []) + [SkipSpaces(t, c)]
  }

  /** `\s*上?的?\s*` from `x`: the starts with the `上` taken come first, then those without it. */
  function NameStarts(t: string, x: nat): (r: seq<nat>)
    requires x <= |t|
    ensures 1 <= |r| && forall i :: 0 <= i < |r| ==> r[i] <= |t|
  {
    var b := SkipSpaces(t, x);
    (if At(t, b, "上") then DeStarts(t, b + 1) else []) + DeStarts(t, b)
  }

  /** The lazy name and `\s*文件夹` from the first start where they match. */
  function FirstFolderName(t: string, starts: seq<nat>): (r: Option<string>)
    requires forall i :: 0 <= i < |starts| ==> starts[i] <= |t|
    ensures r.Some? ==> r.value != [] && AllNameChars(Stops, r.value)
  {
    if starts == [] then None
    else
      var r := FolderNameFrom(Stops, t, starts[0]);
      if r.Some? then r else FirstFolderName(t, starts[1..])
  }

  /** `\s*上?的?\s*` then the lazy name and `\s*文件夹`, from `x`. */
  function NameAfterDir(t: string, x: nat): (r: Option<string>)
    requires x <= |t|
    ensures r.Some? ==> r.value != [] && AllNameChars(Stops, r.value)
  {
    FirstFolderName(t, NameStarts(t, x))
  }

  /** `(?:到|在)\s*(桌面|文档|文稿|下载)` anchored at `p`: the folder word and where it ends. */
  function DirAfterPlace(t: string, p: nat): (r: Option<(string, nat)>)
    ensures r.Some? ==> r.value.0 in DirMap && r.value.1 <= |t|
  {
    if !PlaceAt(t, p) then None
    else
      var a := SkipSpaces(t, p + 1);
      match DirAt(t, a)
      case None => None
      case Some(d) => Some((d, a + 2))
  }

  /** The folder pattern anchored at `p`. */
  function DirMatchAt(t: string, p: nat): (r: Option<Capture>)
    ensures r.Some? ==> r.value.dir in DirMap && r.value.name != [] && AllNameChars(Stops, r.value.name)
  {
    match DirAfterPlace(t, p)
    case None => None
    case Some((d, x)) =>
      match NameAfterDir(t, x)
      case None => None
      case Some(n) => Some(Capture(d, n))
  }

  /** The leftmost start position where the folder pattern matches. */
  function FirstDirMatch(t: string, p: nat): (r: Option<Capture>)
    ensures r.Some? ==> r.value.dir in DirMap && r.value.name != [] && AllNameChars(Stops, r.value.name)
    decreases |t| + 1 - p
  {
    if p > |t| then None
    else if DirMatchAt(t, p).Some? then DirMatchAt(t, p)
    else FirstDirMatch(t, p + 1)
  }

  // ---------------------------------------------------------------------
  // The intent
  // ---------------------------------------------------------------------

  datatype Format = Json | Txt

  /** The topics `'fruit_vegetable'`, `'test'` and `'data'`. */
  datatype Topic = FruitVegetable | Test | Data

  datatype Intent = Intent(dirPath: string, count: nat, format: Format, topic: Topic, folderName: string)

  /** `/json|JSON|\.json/i.test(t)`: every alternative contains `json` up to ASCII case. */
  function FormatOf(t: string): (r: Format)
    ensures r == Json <==> exists i :: 0 <= i <= |t| && StartsWithIgnoreCase(t[i..], "json")
  {
    if ContainsIgnoreCase(t, "json") then Json else Txt
  }

  /** The topic words, tried in order: 水果 or 蔬菜, then 测试. */
  function TopicOf(t: string): (r: Topic)
    ensures r == FruitVegetable <==> Contains(t, "水果") || Contains(t, "蔬菜")
    ensures r == Test <==> !Contains(t, "水果") && !Contains(t, "蔬菜") && Contains(t, "测试")
    ensures r == Data <==> !Contains(t, "水果") && !Contains(t, "蔬菜") && !Contains(t, "测试")
  {
    if Contains(t, "水果") || Contains(t, "蔬菜") then FruitVegetable
    else if Contains(t, "测试") then Test
    else Data
  }

  /** `parseGenerateFilesIntent`. */
  function ParseGenerateFilesIntent(userMessage: string, homeDir: string): (r: Option<Intent>)
    ensures r.Some? <==>
      homeDir != "" && FirstCount(Trim(userMessage), 0).Some? && FirstDirMatch(Trim(userMessage), 0).Some?
    ensures r.Some? ==> 1 <= r.value.count <= 100 && r.value.count == Clamp(FirstCount(Trim(userMessage), 0).value)
    ensures r.Some? ==>
      var c := FirstDirMatch(Trim(userMessage), 0).value;
      && r.value.folderName == c.name && r.value.folderName != [] && AllNameChars(Stops, r.value.folderName)
      && r.value.dirPath == homeDir + "/" + DirMap[c.dir] + "/" + c.name
    ensures r.Some? ==> r.value.format == FormatOf(Trim(userMessage)) && r.value.topic == TopicOf(Trim(userMessage))
  {
    if homeDir == "" then None
    else
      var t := Trim(userMessage);
      match FirstCount(t, 0)
      case None => None
      case Some(n) =>
        var count := Clamp(n);
        if count < 1 then None
        else
          match FirstDirMatch(t, 0)
          case None => None
          case Some(c) =>
            var folderName := Trim(c.name);
            assert folderName == c.name by { NameUntouched(c.name); }
            if folderName == [] then None
            else
              Some(Intent(homeDir + "/" + DirFor(c.dir) + "/" + folderName, count, FormatOf(t), TopicOf(t), folderName))
  }

  // ---------------------------------------------------------------------
  // What a well-formed request is understood as
  // ---------------------------------------------------------------------

  /** The words of a count phrase: 生成, white space, the digits, white space, 条 or 个. */
  datatype CountWords = CountWords(gap1: string, digits: string, gap2: string, unit: string)
  {
    predicate Valid()
    {
      Spaces(gap1) && digits != [] && AllDigits(digits) && Spaces(gap2) && (unit == "条" || unit == "个")
    }

    function Words(): string
    {
      "生成" + (gap1 + (digits + (gap2 + unit)))
    }

    /** The count phrase followed by `rest`. */
    function Request(rest: string): string
    {
      "生成" + (gap1 + (digits + (gap2 + (unit + rest))))
    }
  }

  /**
   * The words of a folder phrase in front of the name: 到 or 在, white
   * space, a folder word, white space, an optional 上, an optional 的,
   * white space.
   */
  datatype PlaceWords = PlaceWords(place: string, gap1: string, dir: string, gap2: string, up: string, de: string, gap3: string)
  {
    predicate Valid()
    {
      && (place == "到" || place == "在") && dir in DirMap && (up == "" || up == "上") && (de == "" || de == "的")
      && Spaces(gap1) && Spaces(gap2) && Spaces(gap3)
    }

    /** The folder phrase with `rest` after its words. */
    function Request(rest: string): string
    {
      place + (gap1 + (dir + (gap2 + (up + (de + (gap3 + rest))))))
    }

    /**
     * A name that can follow: made of name characters, free of `文`, and
     * not starting with a 上 or 的 that the optional words would take.
     */
    predicate Fits(name: string)
    {
      && name != [] && AllNameChars(Stops, name) && '文' !in name
      && (up == "" && de == "" ==> name[0] != '上')
      && (de == "" && (up == "" || gap3 == []) ==> name[0] != '的')
    }
  }

  /**
   * A request: a count phrase, then words free of 到 and 在, then a folder
   * phrase whose name is closed by white space and 文件夹.
   */
  function GenerateRequest(count: CountWords, middle: string, place: PlaceWords, name: string, gap: string): string
  {
    count.Request(middle + place.Request(name + gap + Folder))
  }

  /** The count pattern matches at `p` when its pieces are found one after the other. */
  lemma CountFrom(t: string, p: nat, a: nat, b: nat, c: nat, unit: string)
    requires At(t, p, "生成") && p + 2 <= a <= b <= c <= |t|
    requires SkipSpaces(t, p + 2) == a && DigitEnd(t, a) == b && a < b && SkipSpaces(t, b) == c
    requires (unit == "条" || unit == "个") && At(t, c, unit)
    ensures CountAt(t, p) == Some(DigitsValue(t[a..b]))
  {
  }

  /** The pieces of a count phrase, by position. */
  lemma CountPieces(count: CountWords, rest: string, t: string, a: nat, b: nat, c: nat, d: nat)
    requires t == count.Request(rest) && |count.unit| == 1
    requires a == 2 + |count.gap1| && b == a + |count.digits| && c == b + |count.gap2| && d == c + 1
    ensures d <= |t| && t[0..2] == "生成" && t[2..a] == count.gap1 && t[a..b] == count.digits
    ensures t[b..c] == count.gap2 && t[c..d] == count.unit
  {
    assert t[0..] == t;
    Peel(t, 0, 2, "生成", count.gap1 + (count.digits + (count.gap2 + (count.unit + rest))));
    Peel(t, 2, a, count.gap1, count.digits + (count.gap2 + (count.unit + rest)));
    Peel(t, a, b, count.digits, count.gap2 + (count.unit + rest));
    Peel(t, b, c, count.gap2, count.unit + rest);
    Peel(t, c, d, count.unit, rest);
  }

  /** A count phrase at the start of a text is read back as the number its digits spell. */
  lemma CountPhraseRead(count: CountWords, rest: string)
    requires count.Valid()
    ensures CountAt(count.Request(rest), 0) == Some(DigitsValue(count.digits))
  {
    var t := count.Request(rest);
    var a := 2 + |count.gap1|;
    var b := a + |count.digits|;
    var c := b + |count.gap2|;
    var d := c + 1;
    CountPieces(count, rest, t, a, b, c, d);
    AtFromSlice(t, 0, 2, "生成");
    AtFromSlice(t, c, d, count.unit);
    assert t[a] == t[a..b][0];
    assert t[c] == t[c..d][0];
    SkipSpacesRun(t, 2, a);
    if count.gap2 != [] {
      assert t[b] == t[b..c][0];
    }
    DigitEndAt(t, a, b);
    SkipSpacesRun(t, b, c);
    CountFrom(t, 0, a, b, c, count.unit);
  }

  /** A folder phrase at `p` starts with 到 or 在 and names its folder word. */
  lemma PlaceFound(t: string, p: nat, w: string, gap1: string, dir: string, tail: string, x: nat)
    requires (w == "到" || w == "在") && dir in DirMap && Spaces(gap1)
    requires p <= |t| && t[p..] == w + (gap1 + (dir + tail)) && x == p + 1 + |gap1| + 2
    ensures x <= |t| && DirAfterPlace(t, p) == Some((dir, x)) && t[x..] == tail
  {
    var a := p + 1 + |gap1|;
    Peel(t, p, p + 1, w, gap1 + (dir + tail));
    Peel(t, p + 1, a, gap1, dir + tail);
    Peel(t, a, x, dir, tail);
    AtFromSlice(t, p, p + 1, w);
    AtFromSlice(t, a, x, dir);
    assert t[a] == dir[0];
    SkipSpacesRun(t, p + 1, a);
    DirAtFinds(t, a, dir);
    PlaceFrom(t, p, a, dir);
  }

  /** The name is the one found from the first start tried, when one is found there. */
  lemma FirstStartFinds(t: string, x: nat, e: nat, name: string)
    requires x <= |t| && NameStarts(t, x)[0] == e && FolderNameFrom(Stops, t, e) == Some(name)
    ensures NameAfterDir(t, x) == Some(name)
  {
  }

  /** Only a `的` makes `At(t, c, "的")`. */
  lemma DeChar(t: string, c: nat)
    ensures At(t, c, "的") <==> c < |t| && t[c] == '的'
  {
    if c < |t| {
      assert t[c..][..1][0] == t[c];
      if t[c] == '的' {
        assert t[c..][..1] == "的";
      }
    }
  }

  /** Only a `上` makes `At(t, c, "上")`. */
  lemma UpChar(t: string, c: nat)
    ensures At(t, c, "上") <==> c < |t| && t[c] == '上'
  {
    if c < |t| {
      assert t[c..][..1][0] == t[c];
      if t[c] == '上' {
        assert t[c..][..1] == "上";
      }
    }
  }

  /** The pieces after the folder word, by position. */
  lemma AfterDirPieces(t: string, x: nat, b: nat, c: nat, g: nat, e: nat, place: PlaceWords, rest: string)
    requires x <= |t| && t[x..] == place.gap2 + (place.up + (place.de + (place.gap3 + rest)))
    requires b == x + |place.gap2| && c == b + |place.up| && g == c + |place.de| && e == g + |place.gap3|
    ensures e <= |t| && t[x..b] == place.gap2 && t[b..c] == place.up && t[c..g] == place.de && t[g..e] == place.gap3
    ensures t[e..] == rest
  {
    Peel(t, x, b, place.gap2, place.up + (place.de + (place.gap3 + rest)));
    Peel(t, b, c, place.up, place.de + (place.gap3 + rest));
    Peel(t, c, g, place.de, place.gap3 + rest);
    Peel(t, g, e, place.gap3, rest);
  }

  /**
   * After the folder word, white space, the optional 上 and 的 and white
   * space are passed over as the request has them, and the name that
   * follows is the one reported.
   */
  lemma AfterDirFinds(t: string, x: nat, place: PlaceWords, name: string, gap: string)
    requires place.Valid() && place.Fits(name) && Spaces(gap) && x <= |t|
    requires t[x..] == place.gap2 + (place.up + (place.de + (place.gap3 + (name + gap + Folder))))
    ensures NameAfterDir(t, x) == Some(name)
  {
    if place.up == "上" {
      UpAfterDir(t, x, place, name, gap);
    } else if place.de == "的" {
      DeAfterDir(t, x, place, name, gap);
    } else {
      BareAfterDir(t, x, place, name, gap);
    }
  }

  /** The name at `e` is found, and starts with a character that is neither white space nor `文`. */
  lemma AfterDirName(t: string, e: nat, place: PlaceWords, name: string, gap: string)
    requires place.Fits(name) && Spaces(gap) && e <= |t| && t[e..] == name + gap + Folder
    ensures e < |t| && t[e] == name[0] && !IsSpace(t[e])
    ensures FolderNameFrom(Stops, t, e) == Some(name)
  {
    assert IsNameChar(Stops, name[0]);
    assert t[e] == t[e..][0];
    FolderNameToEnd(Stops, t, e, name, gap);
  }

  /** From the characters found: `上` taken, then the name after the `的` and white space, if any. */
  lemma UpPath(t: string, x: nat, b: nat, c: nat, g: nat, e: nat, name: string)
    requires x <= b && c == b + 1 && c <= g <= e <= |t| && SkipSpaces(t, x) == b && t[b] == '上'
    requires if c < |t| && t[c] == '的' then g == c + 1 else g == c
    requires SkipSpaces(t, g) == e && FolderNameFrom(Stops, t, e) == Some(name)
    ensures NameAfterDir(t, x) == Some(name)
  {
    UpChar(t, b);
    DeChar(t, c);
    assert NameStarts(t, x)[0] == DeStarts(t, c)[0];
    FirstStartFinds(t, x, e, name);
  }

  /** From the characters found: no `上`, so the name is taken from `b` on, after a `的` if there is one. */
  lemma NoUpPath(t: string, x: nat, b: nat, g: nat, e: nat, name: string)
    requires x <= b <= g <= e <= |t| && SkipSpaces(t, x) == b && (b < |t| ==> t[b] != '上')
    requires if b < |t| && t[b] == '的' then g == b + 1 else g == b
    requires SkipSpaces(t, g) == e && FolderNameFrom(Stops, t, e) == Some(name)
    ensures NameAfterDir(t, x) == Some(name)
  {
    UpChar(t, b);
    DeChar(t, b);
    assert NameStarts(t, x)[0] == DeStarts(t, b)[0];
    FirstStartFinds(t, x, e, name);
  }

  /** With the `上`: it is taken, then the `的` if there is one. */
  lemma UpAfterDir(t: string, x: nat, place: PlaceWords, name: string, gap: string)
    requires place.Valid() && place.Fits(name) && Spaces(gap) && place.up == "上" && x <= |t|
    requires t[x..] == place.gap2 + (place.up + (place.de + (place.gap3 + (name + gap + Folder))))
    ensures NameAfterDir(t, x) == Some(name)
  {
    var b := x + |place.gap2|;
    var c := b + |place.up|;
    var g := c + |place.de|;
    var e := g + |place.gap3|;
    AfterDirPieces(t, x, b, c, g, e, place, name + gap + Folder);
    AfterDirName(t, e, place, name, gap);
    SkipSpacesRun(t, g, e);
    assert t[b] == '上' by { assert t[b] == t[b..c][0]; }
    SkipSpacesRun(t, x, b);
    if place.de == "的" {
      assert t[c] == '的' by { assert t[c] == t[c..g][0]; }
    } else if place.gap3 != [] {
      assert t[c] == t[g..e][0];
    }
    UpPath(t, x, b, c, g, e, name);
  }

  /** Without the `上` but with the `的`. */
  lemma DeAfterDir(t: string, x: nat, place: PlaceWords, name: string, gap: string)
    requires place.Valid() && place.Fits(name) && Spaces(gap) && place.up == "" && place.de == "的" && x <= |t|
    requires t[x..] == place.gap2 + (place.up + (place.de + (place.gap3 + (name + gap + Folder))))
    ensures NameAfterDir(t, x) == Some(name)
  {
    var b := x + |place.gap2|;
    var c := b + |place.up|;
    var g := c + |place.de|;
    var e := g + |place.gap3|;
    AfterDirPieces(t, x, b, c, g, e, place, name + gap + Folder);
    AfterDirName(t, e, place, name, gap);
    SkipSpacesRun(t, g, e);
    assert t[c] == '的' by { assert t[c] == t[c..g][0]; }
    SkipSpacesRun(t, x, b);
    NoUpPath(t, x, b, g, e, name);
  }

  /** Without either: the white space on both sides of where they would stand is one run. */
  lemma BareAfterDir(t: string, x: nat, place: PlaceWords, name: string, gap: string)
    requires place.Valid() && place.Fits(name) && Spaces(gap) && place.up == "" && place.de == "" && x <= |t|
    requires t[x..] == place.gap2 + (place.up + (place.de + (place.gap3 + (name + gap + Folder))))
    ensures NameAfterDir(t, x) == Some(name)
  {
    var b := x + |place.gap2|;
    var c := b + |place.up|;
    var g := c + |place.de|;
    var e := g + |place.gap3|;
    AfterDirPieces(t, x, b, c, g, e, place, name + gap + Folder);
    AfterDirName(t, e, place, name, gap);
    SkipSpacesOver(t, x, b);
    SkipSpacesRun(t, g, e);
    SkipSpacesRun(t, e, e);
    NoUpPath(t, x, e, e, e, name);
  }

  /** The folder pattern matches at `p` when its pieces are found one after the other. */
  lemma DirMatchFrom(t: string, p: nat, d: string, x: nat, name: string)
    requires DirAfterPlace(t, p) == Some((d, x)) && NameAfterDir(t, x) == Some(name)
    ensures DirMatchAt(t, p) == Some(Capture(d, name))
  {
  }

  lemma PlaceFrom(t: string, p: nat, a: nat, d: string)
    requires PlaceAt(t, p) && p < |t| && SkipSpaces(t, p + 1) == a && DirAt(t, a) == Some(d)
    ensures DirAfterPlace(t, p) == Some((d, a + 2))
  {
  }

  /** A folder phrase closing the text is matched where it starts. */
  lemma PlacePhraseMatch(t: string, p: nat, place: PlaceWords, name: string, gap: string)
    requires place.Valid() && place.Fits(name) && Spaces(gap)
    requires p <= |t| && t[p..] == place.Request(name + gap + Folder)
    ensures DirMatchAt(t, p) == Some(Capture(place.dir, name))
  {
    var x := p + 1 + |place.gap1| + 2;
    var tail := place.gap2 + (place.up + (place.de + (place.gap3 + (name + gap + Folder))));
    PlaceFound(t, p, place.place, place.gap1, place.dir, tail, x);
    AfterDirFinds(t, x, place, name, gap);
    DirMatchFrom(t, p, place.dir, x, name);
  }

  /** Only 到 and 在 begin a folder phrase. */
  lemma PlaceChar(t: string, q: nat)
    ensures PlaceAt(t, q) ==> q < |t| && (t[q] == '到' || t[q] == '在')
  {
    if PlaceAt(t, q) {
      assert t[q..][..1][0] == t[q];
    }
  }

  /** Positions where no folder phrase can begin are passed over. */
  lemma {:induction false} SkipToPlace(t: string, p: nat, m: nat)
    requires p <= m <= |t|
    requires forall q :: p <= q < m ==> !PlaceAt(t, q)
    ensures FirstDirMatch(t, p) == FirstDirMatch(t, m)
    decreases m - p
  {
    if p < m {
      SkipToPlace(t, p + 1, m);
    }
  }

  /** A count phrase holds neither 到 nor 在. */
  lemma CountHasNoPlace(count: CountWords)
    requires count.Valid()
    ensures '到' !in count.Words() && '在' !in count.Words()
  {
    assert '到' !in count.gap1 && '在' !in count.gap1 && '到' !in count.gap2 && '在' !in count.gap2;
    assert '到' !in count.digits && '在' !in count.digits;
  }

  /** The two halves of a request: the count phrase with the words after it, then the folder phrase. */
  lemma RequestHalves(count: CountWords, middle: string, place: PlaceWords, name: string, gap: string)
    ensures GenerateRequest(count, middle, place, name, gap) ==
      (count.Words() + middle) + place.Request(name + gap + Folder)
  {
  }

  /** In a request, the count phrase and the folder phrase are the leftmost matches. */
  lemma RequestMatches(count: CountWords, middle: string, place: PlaceWords, name: string, gap: string)
    requires count.Valid() && place.Valid() && place.Fits(name) && Spaces(gap)
    requires '到' !in middle && '在' !in middle
    ensures var t := GenerateRequest(count, middle, place, name, gap);
      && FirstCount(t, 0) == Some(DigitsValue(count.digits))
      && FirstDirMatch(t, 0) == Some(Capture(place.dir, name))
  {
    var t := GenerateRequest(count, middle, place, name, gap);
    var front := count.Words() + middle;
    var m := |front|;
    CountPhraseRead(count, middle + place.Request(name + gap + Folder));
    RequestHalves(count, middle, place, name, gap);
    CountHasNoPlace(count);
    forall q | 0 <= q < m ensures !PlaceAt(t, q) {
      PlaceChar(t, q);
      assert t[q] == front[q];
    }
    SkipToPlace(t, 0, m);
    assert t[m..] == place.Request(name + gap + Folder);
    PlacePhraseMatch(t, m, place, name, gap);
  }

  /** A text already trimmed whose two leftmost matches are known is understood through them. */
  lemma ParseFromMatches(t: string, n: nat, d: string, name: string, homeDir: string)
    requires Trim(t) == t && homeDir != "" && d in DirMap
    requires FirstCount(t, 0) == Some(n) && FirstDirMatch(t, 0) == Some(Capture(d, name))
    ensures ParseGenerateFilesIntent(t, homeDir) ==
      Some(Intent(homeDir + "/" + DirMap[d] + "/" + name, Clamp(n), FormatOf(t), TopicOf(t), name))
  {
    NameUntouched(name);
  }

  /** A folder name has no white space at either end, so trimming keeps it. */
  lemma NameUntouched(name: string)
    requires name != [] && AllNameChars(Stops, name)
    ensures Trim(name) == name
  {
    assert IsNameChar(Stops, name[0]) && IsNameChar(Stops, name[|name| - 1]);
    TrimKeeps(name);
  }

  /** A request begins with 生 and ends with 夹, so trimming leaves it as it is. */
  lemma RequestTrimmed(count: CountWords, middle: string, place: PlaceWords, name: string, gap: string)
    ensures var t := GenerateRequest(count, middle, place, name, gap); Trim(t) == t
  {
    var t := GenerateRequest(count, middle, place, name, gap);
    var rest := name + gap + Folder;
    var u := place.Request(rest);
    assert t[0] == '生';
    RequestHalves(count, middle, place, name, gap);
    assert t[|t| - 1] == u[|u| - 1];
    assert u[|u| - 1] == rest[|rest| - 1] by {
      assert u == (place.place + (place.gap1 + (place.dir + (place.gap2 + (place.up + (place.de + place.gap3)))))) + rest;
    }
    assert rest[|rest| - 1] == '夹';
    TrimKeeps(t);
  }

  /**
   * A request is understood: whatever white space, 条 or 个, words in
   * between, 到 or 在, and 上 or 的 it uses, the number comes back clamped
   * to [1, 100] and the folder comes back as the home directory, the
   * folder the spoken word stands for, and the name.
   */
  lemma RequestUnderstood(count: CountWords, middle: string, place: PlaceWords, name: string, gap: string, homeDir: string)
    requires count.Valid() && place.Valid() && place.Fits(name) && Spaces(gap) && homeDir != ""
    requires '到' !in middle && '在' !in middle
    ensures var t := GenerateRequest(count, middle, place, name, gap);
      ParseGenerateFilesIntent(t, homeDir) ==
        Some(Intent(homeDir + "/" + DirMap[place.dir] + "/" + name, Clamp(DigitsValue(count.digits)), FormatOf(t), TopicOf(t), name))
  {
    var t := GenerateRequest(count, middle, place, name, gap);
    RequestTrimmed(count, middle, place, name, gap);
    RequestMatches(count, middle, place, name, gap);
    ParseFromMatches(t, DigitsValue(count.digits), place.dir, name, homeDir);
  }

  // ---------------------------------------------------------------------
  // Carrying the intent out
  // ---------------------------------------------------------------------

  const Fruits: seq<string> := ["苹果", "香蕉", "橙子", "葡萄", "草莓", "西瓜", "樱桃", "桃子", "梨", "芒果", "柠檬", "菠萝"]
  const Vegetables: seq<string> := ["番茄", "黄瓜", "胡萝卜", "土豆", "菠菜", "白菜", "芹菜", "茄子", "青椒", "洋葱", "南瓜", "玉米"]

  /** An entry of the pool: its type and its name. */
  datatype Produce = Produce(kind: string, name: string)

  /** The size of the pool: the fruits followed by the vegetables. */
  const PoolSize: nat := 24

  /** Entry `k` of the pool: the fruits first, then the vegetables, each tagged with its type. */
  function PoolEntry(k: nat): (e: Produce)
    requires k < PoolSize
    ensures k < 12 ==> e == Produce("fruit", Fruits[k])
    ensures k >= 12 ==> e == Produce("vegetable", Vegetables[k - 12])
  {
    if k < |Fruits| then Produce("fruit", Fruits[k]) else Produce("vegetable", Vegetables[k - |Fruits|])
  }

  /** One record of a generated JSON file. */
  datatype Item = ProduceItem(id: nat, kind: string, name: string) | TestItem(id: nat, caption: string)

  /** The item at position `i` of file `index` for the fruit-and-vegetable topic. */
  function PoolItem(index: nat, i: nat): Item
  {
    var e := PoolEntry((index * 3 + i) % PoolSize);
    ProduceItem(index * 3 + i + 1, e.kind, e.name)
  }

  /** The records of the JSON file with zero-based number `index`. */
  function Items(index: nat, topic: Topic): (r: seq<Item>)
    ensures |r| == if topic == FruitVegetable then 3 else 1
    ensures forall k :: 0 <= k < |r| ==> r[k].id == index * |r| + k + 1
  {
    if topic == FruitVegetable then [PoolItem(index, 0), PoolItem(index, 1), PoolItem(index, 2)]
    else [TestItem(index + 1, "测试数据 " + NatToString(index + 1))]
  }

  /** `buildJsonContent`, up to serialization: the records it writes. */
  method BuildJsonContent(index: nat, topic: Topic) returns (items: seq<Item>)
    ensures items == Items(index, topic)
  {
    if topic == FruitVegetable {
      items := [];
      for i := 0 to 3
        invariant |items| == i
        invariant forall j :: 0 <= j < i ==> items[j] == PoolItem(index, j)
      {
        var e := PoolEntry((index * 3 + i) % PoolSize);
        items := items + [ProduceItem(index * 3 + i + 1, e.kind, e.name)];
      }
      assert items == [PoolItem(index, 0), PoolItem(index, 1), PoolItem(index, 2)];
      return;
    }
    items := [TestItem(index + 1, "测试数据 " + NatToString(index + 1))];
  }

  /**
   * A fruit-and-vegetable file holds three records, numbered on from the
   * files before it and drawn from the pool in turn; any other file holds
   * one test record numbered after the file.
   */
  lemma ItemsShape(index: nat, topic: Topic)
    ensures topic == FruitVegetable ==>
      |Items(index, topic)| == 3 && forall i :: 0 <= i < 3 ==>
        var item := Items(index, topic)[i];
        item.ProduceItem? && item.id == index * 3 + i + 1 &&
        Produce(item.kind, item.name) == PoolEntry((index * 3 + i) % PoolSize)
    ensures topic != FruitVegetable ==>
      |Items(index, topic)| == 1 && Items(index, topic)[0].TestItem? && Items(index, topic)[0].id == index + 1
  {
  }

  /** The records of files 0 .. n-1, one file after the other. */
  function Collect(files: nat -> seq<Item>, n: nat): seq<Item>
  {
    if n == 0 then [] else Collect(files, n - 1) + files(n - 1)
  }

  function AllItems(n: nat, topic: Topic): seq<Item>
  {
    Collect((index: nat) => Items(index, topic), n)
  }

  /** The ids of one fruit-and-vegetable file. */
  lemma ItemIds(index: nat)
    ensures |Items(index, FruitVegetable)| == 3
    ensures forall j :: 0 <= j < 3 ==> Items(index, FruitVegetable)[j].id == index * 3 + j + 1
  {
  }

  /** Files of three records numbered on from the files before them number all records 1, 2, 3, … */
  lemma {:induction false} CollectIds(files: nat -> seq<Item>, n: nat)
    requires forall index: nat :: |files(index)| == 3
    requires forall index: nat, j :: 0 <= j < 3 ==> files(index)[j].id == index * 3 + j + 1
    ensures |Collect(files, n)| == 3 * n
    ensures forall k :: 0 <= k < 3 * n ==> Collect(files, n)[k].id == k + 1
  {
    if n > 0 {
      CollectIds(files, n - 1);
      var prev := Collect(files, n - 1);
      var last := files(n - 1);
      var all := prev + last;
      assert Collect(files, n) == all;
      forall k | 0 <= k < 3 * n ensures all[k].id == k + 1 {
        if k < 3 * (n - 1) {
          assert all[k] == prev[k];
        } else {
          assert all[k] == last[k - 3 * (n - 1)];
        }
      }
    }
  }

  /** Across the fruit-and-vegetable files the ids run 1, 2, 3, … without gap or repeat. */
  lemma IdsConsecutive(n: nat)
    ensures |AllItems(n, FruitVegetable)| == 3 * n
    ensures forall k :: 0 <= k < 3 * n ==> AllItems(n, FruitVegetable)[k].id == k + 1
  {
    var files := (index: nat) => Items(index, FruitVegetable);
    forall index: nat ensures |files(index)| == 3 && forall j :: 0 <= j < 3 ==> files(index)[j].id == index * 3 + j + 1 {
      ItemIds(index);
    }
    CollectIds(files, n);
  }

  /** Eight files go once through the pool; the ninth starts over with the same produce. */
  lemma PoolRepeatsEveryEightFiles(index: nat, i: nat)
    requires i < 3
    ensures PoolItem(index + 8, i).name == PoolItem(index, i).name
    ensures PoolItem(index + 8, i).kind == PoolItem(index, i).kind
    ensures PoolItem(index + 8, i).id == PoolItem(index, i).id + 24
  {
    var x := index * 3 + i;
    assert (index + 8) * 3 + i == x + PoolSize;
    WrapsAround(x);
  }

  lemma WrapsAround(x: nat)
    ensures (x + PoolSize) % PoolSize == x % PoolSize
  {
  }

  /** The base name of the files: `data` for the fruit-and-vegetable topic, `test` otherwise. */
  function BaseName(topic: Topic): string
  {
    if topic == FruitVegetable then "data" else "test"
  }

  function Extension(format: Format): string
  {
    if format == Json then "json" else "txt"
  }

  /** What the files hold: the JSON records, or the text file's number (its timestamp is not modelled). */
  datatype Content = JsonContent(items: seq<Item>) | TextContent(number: nat)

  /** `${dirPath}/${baseName}_`: the part of every path before the number. */
  function PathStem(intent: Intent): string
  {
    intent.dirPath + "/" + BaseName(intent.topic) + "_"
  }

  /** The path of file number `i`. */
  function PathFor(intent: Intent, i: nat): (r: string)
    ensures StartsWith(r, PathStem(intent)) && |r| > |PathStem(intent)|
    ensures var ext := "." + Extension(intent.format); |ext| < |r| && r[|r| - |ext|..] == ext
  {
    PathStem(intent) + NatToString(i) + "." + Extension(intent.format)
  }

  function ContentFor(intent: Intent, i: nat): Content
    requires i >= 1
  {
    if intent.format == Json then JsonContent(Items(i - 1, intent.topic)) else TextContent(i)
  }

  /** The numbers, in increasing order, of the files among 1..n whose creation succeeded. */
  function Created(intent: Intent, createFile: (string, Content) -> bool, n: nat): seq<nat>
  {
    if n == 0 then []
    else Created(intent, createFile, n - 1) + (if createFile(PathFor(intent, n), ContentFor(intent, n)) then [n] else [])
  }

  function PathsOf(intent: Intent, numbers: seq<nat>): (r: seq<string>)
    ensures |r| == |numbers|
  {
    seq(|numbers|, k requires 0 <= k < |numbers| => PathFor(intent, numbers[k]))
  }

  /**
   * `executeGenerateFilesIntent`: tries files 1..count in turn; each
   * success adds its path and counts as a success, each failure counts as
   * a failure.
   */
  method ExecuteGenerateFilesIntent(intent: Intent, createFile: (string, Content) -> bool)
    returns (success: nat, failed: nat, paths: seq<string>)
    ensures success + failed == intent.count
    ensures |paths| == success
    ensures paths == PathsOf(intent, Created(intent, createFile, intent.count))
  {
    paths := [];
    success, failed := 0, 0;
    for i := 1 to intent.count + 1
      invariant success + failed == i - 1
      invariant paths == PathsOf(intent, Created(intent, createFile, i - 1))
      invariant |paths| == success
    {
      var baseName := if intent.topic == FruitVegetable then "data" else "test";
      var ext := if intent.format == Json then "json" else "txt";
      var path := intent.dirPath + "/" + baseName + "_" + NatToString(i) + "." + ext;
      var content;
      if intent.format == Json {
        var items := BuildJsonContent(i - 1, intent.topic);
        content := JsonContent(items);
      } else {
        content := TextContent(i);
      }
      assert path == PathFor(intent, i);
      assert content == ContentFor(intent, i);
      var ok := createFile(path, content);
      ghost var before := Created(intent, createFile, i - 1);
      if ok {
        assert Created(intent, createFile, i) == before + [i];
        PathsOfSnoc(intent, before, i);
        paths := paths + [path];
        success := success + 1;
      } else {
        assert Created(intent, createFile, i) == before;
        failed := failed + 1;
      }
    }
  }

  lemma PathsOfSnoc(intent: Intent, numbers: seq<nat>, i: nat)
    ensures PathsOf(intent, numbers + [i]) == PathsOf(intent, numbers) + [PathFor(intent, i)]
  {
  }

  /** The created files are numbered in increasing order, each between 1 and n. */
  lemma {:induction false} CreatedIncreasing(intent: Intent, createFile: (string, Content) -> bool, n: nat)
    ensures forall k :: 0 <= k < |Created(intent, createFile, n)| ==> 1 <= Created(intent, createFile, n)[k] <= n
    ensures forall j, k :: 0 <= j < k < |Created(intent, createFile, n)| ==>
      Created(intent, createFile, n)[j] < Created(intent, createFile, n)[k]
  {
    if n > 0 {
      CreatedIncreasing(intent, createFile, n - 1);
    }
  }

  /** File `i` is among the created ones exactly when its creation succeeded. */
  lemma {:induction false} CreatedExactly(intent: Intent, createFile: (string, Content) -> bool, n: nat, i: nat)
    requires 1 <= i
    ensures i in Created(intent, createFile, n) <==> i <= n && createFile(PathFor(intent, i), ContentFor(intent, i))
  {
    if n > 0 {
      CreatedExactly(intent, createFile, n - 1, i);
      CreatedIncreasing(intent, createFile, n - 1);
    }
  }

  /** When every creation succeeds, every file 1..n is reported, in order. */
  lemma {:induction false} AllCreated(intent: Intent, createFile: (string, Content) -> bool, n: nat)
    requires forall p, c :: createFile(p, c)
    ensures Created(intent, createFile, n) == seq(n, k => k + 1)
  {
    if n > 0 {
      AllCreated(intent, createFile, n - 1);
    }
  }

  /** Different file numbers give different paths, so no file is written twice. */
  lemma PathForInjective(intent: Intent, i: nat, j: nat)
    ensures PathFor(intent, i) == PathFor(intent, j) ==> i == j
  {
    var stem, tail := PathStem(intent), "." + Extension(intent.format);
    var si, sj := NatToString(i), NatToString(j);
    if PathFor(intent, i) == PathFor(intent, j) {
      assert PathFor(intent, i) == stem + si + tail;
      assert PathFor(intent, j) == stem + sj + tail;
      assert |si| == |sj|;
      assert si == (stem + si + tail)[|stem|..|stem| + |si|];
      assert sj == (stem + sj + tail)[|stem|..|stem| + |sj|];
      DigitsRoundTrip(i);
      DigitsRoundTrip(j);
    }
  }

  /** Every file lies directly in the intent's folder. */
  lemma PathsInFolder(intent: Intent, i: nat)
    ensures StartsWith(PathFor(intent, i), intent.dirPath + "/")
  {
    var head := intent.dirPath + "/";
    assert PathFor(intent, i) == head + (BaseName(intent.topic) + "_" + NatToString(i) + "." + Extension(intent.format));
  }
}
