/**
 * The pieces shared by the fixed Chinese request patterns: the spoken
 * folder words and the folders they stand for, white-space runs, runs of
 * name characters, and the lazy `name…文件夹` search.  A name character is
 * any character that is neither white space nor one of a pattern's stop
 * characters (the `[^\s，。！？]` classes).
 */
module Patterns {
  import opened Wrappers
  import opened Text

  /** `DIR_MAP`: the spoken folder names and the folders they stand for. */
  const DirMap: map<string, string> :=
    map["桌面" := "Desktop", "文档" := "Documents", "文稿" := "Documents", "下载" := "Downloads"]

  const Folder: string := "文件夹"

  /** `DIR_MAP[dirName] || 'Desktop'`. */
  function DirFor(dirName: string): (r: string)
    ensures r in {"Desktop", "Documents", "Downloads"}
    ensures dirName in DirMap ==> r == DirMap[dirName]
  {
    if dirName in DirMap then DirMap[dirName] else "Desktop"
  }

  /** `StartsWith(t[i..], w)`, for any position `i`. */
  predicate At(t: string, i: nat, w: string)
  {
    i <= |t| && StartsWith(t[i..], w)
  }

  /** A text holding `w` from `i` on has `w` at `i`. */
  lemma AtFromSlice(t: string, i: nat, j: nat, w: string)
    requires j == i + |w| <= |t| && t[i..j] == w
    ensures At(t, i, w)
  {
    assert t[i..][..|w|] == t[i..j];
  }

  /** A text whose tail from `x` is `s + rest` holds `s` from `x` and `rest` after it. */
  lemma Peel(t: string, x: nat, y: nat, s: string, rest: string)
    requires x <= |t| && t[x..] == s + rest && y == x + |s|
    ensures y <= |t| && t[x..y] == s && t[y..] == rest
  {
    assert t[x..y] == t[x..][..|s|];
    assert t[y..] == t[x..][|s|..];
  }

  /** The capture `(桌面|文档|文稿|下载)`: the alternative that matches at `i`, if any. */
  function DirAt(t: string, i: nat): (r: Option<string>)
    ensures r.Some? ==> r.value in DirMap && |r.value| == 2 && At(t, i, r.value)
  {
    if At(t, i, "桌面") then Some("桌面")
    else if At(t, i, "文档") then Some("文档")
    else if At(t, i, "文稿") then Some("文稿")
    else if At(t, i, "下载") then Some("下载")
    else None
  }

  /** The spoken folder words differ in their first two characters, so the one present is found. */
  lemma DirAtFinds(t: string, i: nat, d: string)
    requires d in DirMap && At(t, i, d)
    ensures DirAt(t, i) == Some(d)
  {
    assert t[i..][..2] == d;
  }

  /** What a successful match captures: the folder word and the name. */
  datatype Capture = Capture(dir: string, name: string)

  /** `\s*`: the end of the run of white space starting at `i`. */
  function SkipSpaces(t: string, i: nat): (j: nat)
    requires i <= |t|
    ensures i <= j <= |t|
    ensures forall k :: i <= k < j ==> IsSpace(t[k])
    ensures j == |t| || !IsSpace(t[j])
    decreases |t| - i
  {
    if i < |t| && IsSpace(t[i]) then SkipSpaces(t, i + 1) else i
  }

  /** A run of white space: what `\s*` may consume. */
  predicate Spaces(s: string)
  {
    forall k :: 0 <= k < |s| ==> IsSpace(s[k])
  }

  /** `\s*` from `i` takes a white-space run up to the first character that is not white space. */
  lemma {:induction false} SkipSpacesRun(t: string, i: nat, j: nat)
    requires i <= j <= |t| && Spaces(t[i..j]) && (j == |t| || !IsSpace(t[j]))
    ensures SkipSpaces(t, i) == j
    decreases j - i
  {
    if i < j {
      assert t[i] == t[i..j][0];
      var u := t[i + 1..j];
      forall k | 0 <= k < |u| ensures IsSpace(u[k]) {
        assert u[k] == t[i..j][k + 1];
      }
      SkipSpacesRun(t, i + 1, j);
    }
  }
  /** `\s*` from `i` passes over a white-space run to `j` and goes on from there. */
  lemma {:induction false} SkipSpacesOver(t: string, i: nat, j: nat)
    requires i <= j <= |t| && Spaces(t[i..j])
    ensures SkipSpaces(t, i) == SkipSpaces(t, j)
    decreases j - i
  {
    if i < j {
      assert t[i] == t[i..j][0];
      var u := t[i + 1..j];
      forall k | 0 <= k < |u| ensures IsSpace(u[k]) {
        assert u[k] == t[i..j][k + 1];
      }
      SkipSpacesOver(t, i + 1, j);
    }
  }


  /** The class `[^\s…]` whose listed characters are `stops`. */
  predicate IsNameChar(stops: set<char>, c: char)
  {
    !IsSpace(c) && c !in stops
  }

  predicate AllNameChars(stops: set<char>, s: string)
  {
    forall k :: 0 <= k < |s| ==> IsNameChar(stops, s[k])
  }

  /** `[^\s…]+` taken greedily: the end of the run of name characters starting at `i`. */
  function NameEnd(stops: set<char>, t: string, i: nat): (j: nat)
    requires i <= |t|
    ensures i <= j <= |t|
    ensures AllNameChars(stops, t[i..j])
    ensures j == |t| || !IsNameChar(stops, t[j])
    decreases |t| - i
  {
    if i < |t| && IsNameChar(stops, t[i]) then NameEnd(stops, t, i + 1) else i
  }

  /** Taking a name greedily from where the rest of the text is all name characters runs to the end. */
  lemma {:induction false} NameEndToEnd(stops: set<char>, t: string, i: nat)
    requires i <= |t| && AllNameChars(stops, t[i..])
    ensures NameEnd(stops, t, i) == |t|
    decreases |t| - i
  {
    if i < |t| {
      assert t[i..][0] == t[i];
      var u := t[i + 1..];
      forall k | 0 <= k < |u| ensures IsNameChar(stops, u[k]) {
        assert u[k] == t[i..][k + 1];
      }
      NameEndToEnd(stops, t, i + 1);
    }
  }

  /** Taking a name greedily runs at least to the end of a run of name characters. */
  lemma {:induction false} NameEndPast(stops: set<char>, t: string, i: nat, j: nat)
    requires i <= j <= |t| && AllNameChars(stops, t[i..j])
    ensures NameEnd(stops, t, i) >= j
    decreases j - i
  {
    if i < j {
      assert t[i] == t[i..j][0];
      var u := t[i + 1..j];
      forall k | 0 <= k < |u| ensures IsNameChar(stops, u[k]) {
        assert u[k] == t[i..j][k + 1];
      }
      NameEndPast(stops, t, i + 1, j);
    }
  }

  /** An occurrence of `文件夹` begins with the characters 文 and 件. */
  lemma FolderAt(t: string, i: nat)
    ensures At(t, i, Folder) ==> i + 1 < |t| && t[i] == '文' && t[i + 1] == '件'
  {
    if At(t, i, Folder) {
      assert t[i..][..3] == Folder;
      assert t[i..][..3][0] == t[i] && t[i..][..3][1] == t[i + 1];
    }
  }

  /** White space and then `文件夹` follow position `k`. */
  predicate FolderAfter(t: string, k: nat)
    requires k <= |t|
  {
    At(t, SkipSpaces(t, k), Folder)
  }

  /**
   * `[^\s…]+?\s*文件夹` taken lazily: the first end `k`, up to the end `n`
   * of the run of name characters, after which white space and `文件夹` follow.
   */
  function LazyFolderEnd(t: string, n: nat, k: nat): (r: Option<nat>)
    requires k <= n <= |t|
    ensures r.Some? ==> k <= r.value <= n && FolderAfter(t, r.value)
    decreases n - k
  {
    if FolderAfter(t, k) then Some(k)
    else if k == n then None
    else LazyFolderEnd(t, n, k + 1)
  }

  /**
   * The lazy search takes the first end that works: no earlier end is
   * followed by `文件夹`, and when it finds none, no end of the run is.
   */
  lemma {:induction false} LazyFolderEndIsFirst(t: string, n: nat, k: nat)
    requires k <= n <= |t|
    ensures var r := LazyFolderEnd(t, n, k);
      && (r.Some? ==> forall m :: k <= m < r.value ==> !FolderAfter(t, m))
      && (r.None? ==> forall m :: k <= m <= n ==> !FolderAfter(t, m))
    decreases n - k
  {
    if !FolderAfter(t, k) && k < n {
      LazyFolderEndIsFirst(t, n, k + 1);
    }
  }

  /** The lazy folder-name search stops at the first end followed by `文件夹`. */
  lemma {:induction false} LazyFolderEndFinds(t: string, n: nat, k: nat, target: nat)
    requires k <= target <= n <= |t|
    requires forall m :: k <= m < target ==> !FolderAfter(t, m)
    requires FolderAfter(t, target)
    ensures LazyFolderEnd(t, n, k) == Some(target)
    decreases target - k
  {
    if k < target {
      LazyFolderEndFinds(t, n, k + 1, target);
    }
  }

  /** The name of a folder pattern whose name starts at `e`. */
  function FolderNameFrom(stops: set<char>, t: string, e: nat): (r: Option<string>)
    requires e <= |t|
    ensures r.Some? ==> r.value != [] && AllNameChars(stops, r.value)
  {
    if e < |t| && e < NameEnd(stops, t, e) then
      match LazyFolderEnd(t, NameEnd(stops, t, e), e + 1)
      case Some(k) =>
        assert forall j :: 0 <= j < k - e ==> t[e..k][j] == t[e..NameEnd(stops, t, e)][j];
        Some(t[e..k])
      case None => None
    else None
  }

  /**
   * A name free of `文`, then white space and a `文件夹` closing the text:
   * the lazy folder-name search takes exactly that name.
   */
  lemma FolderNameToEnd(stops: set<char>, t: string, e: nat, name: string, gap: string)
    requires e + |name| + |gap| + 3 == |t| && t[e..] == name + gap + Folder
    requires name != [] && AllNameChars(stops, name) && '文' !in name && Spaces(gap)
    ensures FolderNameFrom(stops, t, e) == Some(name)
  {
    var end := e + |name|;
    var f := end + |gap|;
    assert t[e..end] == name;
    assert t[end..f] == gap;
    assert t[f..] == Folder;
    assert t[f] == '文';
    SkipSpacesRun(t, end, f);
    assert FolderAfter(t, end);
    NameEndPast(stops, t, e, end);
    forall m | e + 1 <= m < end ensures !FolderAfter(t, m) {
      assert t[m] == name[m - e];
      assert SkipSpaces(t, m) == m;
      FolderAt(t, m);
    }
    LazyFolderEndFinds(t, NameEnd(stops, t, e), e + 1, end);
  }
}
