/**
 * The skill registry: the immutable built-in skills followed by the skills
 * installed at run time, with lookup by name and install/uninstall.
 */
module Registry {
  import opened Wrappers
  import opened JsValues
  import opened SkillTypes

  /** `Array.prototype.findIndex`: the first position whose element satisfies `p`, or -1. */
  function FindIndex<T>(s: seq<T>, p: T -> bool): (k: int)
    ensures -1 <= k < |s|
    ensures k >= 0 ==> p(s[k]) && forall j :: 0 <= j < k ==> !p(s[j])
    ensures k == -1 <==> forall j :: 0 <= j < |s| ==> !p(s[j])
  {
    if s == [] then -1
    else if p(s[0]) then 0
    else
      var k := FindIndex(s[1..], p);
      if k == -1 then -1 else k + 1
  }

  function NameIs(name: string): Skill -> bool
  {
    (s: Skill) => s.name == name
  }

  function IdIs(id: string): Skill -> bool
  {
    (s: Skill) => s.id == id
  }

  /** `skills.find(s => s.name === name)`. */
  function FindByName(skills: seq<Skill>, name: string): (r: Option<Skill>)
    ensures r.None? <==> forall i :: 0 <= i < |skills| ==> skills[i].name != name
    ensures r.Some? ==> r.value.name == name && exists k :: (0 <= k < |skills| && skills[k] == r.value &&
      forall j :: 0 <= j < k ==> skills[j].name != name)
  {
    var k := FindIndex(skills, NameIs(name));
    if k == -1 then None else Some(skills[k])
  }

  /** Lookup in a concatenation prefers the first list whenever it has a skill of that name. */
  lemma FindByNamePrefersFirst(xs: seq<Skill>, ys: seq<Skill>, name: string, i: nat)
    requires i < |xs| && xs[i].name == name
    ensures FindByName(xs + ys, name) == FindByName(xs, name)
  {
    var k, k' := FindIndex(xs + ys, NameIs(name)), FindIndex(xs, NameIs(name));
    assert (xs + ys)[i] == xs[i];
    assert NameIs(name)((xs + ys)[i]);
    assert k <= i && 0 <= k' <= i;
    assert (xs + ys)[k'] == xs[k'];
    assert (xs + ys)[k] == xs[k];
  }

  /** Lookup in a concatenation falls through to the second list when the first has no skill of that name. */
  lemma FindByNameFallsThrough(xs: seq<Skill>, ys: seq<Skill>, name: string)
    requires forall i :: 0 <= i < |xs| ==> xs[i].name != name
    ensures FindByName(xs + ys, name) == FindByName(ys, name)
  {
    var k, k' := FindIndex(xs + ys, NameIs(name)), FindIndex(ys, NameIs(name));
    forall j | 0 <= j < |ys| ensures (xs + ys)[|xs| + j] == ys[j] { }
    forall j | 0 <= j < |xs| ensures !NameIs(name)((xs + ys)[j]) {
      assert (xs + ys)[j] == xs[j];
    }
    if k' >= 0 {
      assert NameIs(name)((xs + ys)[|xs| + k']);
      assert k == |xs| + k';
    }
  }

  /** `installed.filter(s => s.id !== id)`: every skill except those with this id, in order. */
  function WithoutId(skills: seq<Skill>, id: string): (r: seq<Skill>)
    ensures forall s :: s in r <==> s in skills && s.id != id
    ensures |r| <= |skills|
    ensures (exists i :: 0 <= i < |skills| && skills[i].id == id) ==> |r| < |skills|
  {
    if skills == [] then []
    else (if skills[0].id == id then [] else [skills[0]]) + WithoutId(skills[1..], id)
  }

  lemma {:induction false} WithoutIdAbsent(skills: seq<Skill>, id: string)
    requires forall i :: 0 <= i < |skills| ==> skills[i].id != id
    ensures WithoutId(skills, id) == skills
  {
    if skills != [] {
      WithoutIdAbsent(skills[1..], id);
      assert skills == [skills[0]] + skills[1..];
    }
  }

  predicate DistinctIds(skills: seq<Skill>)
  {
    forall i, j :: 0 <= i < j < |skills| ==> skills[i].id != skills[j].id
  }

  predicate DistinctNames(skills: seq<Skill>)
  {
    forall i, j :: 0 <= i < j < |skills| ==> skills[i].name != skills[j].name
  }

  /**
   * With distinct ids, cutting out the first skill with `id` (`findIndex`
   * then `splice`) is the same as filtering every skill with that id out.
   */
  lemma {:induction false} SpliceIsFilter(skills: seq<Skill>, id: string)
    requires DistinctIds(skills)
    ensures var k := FindIndex(skills, IdIs(id));
      (if k == -1 then skills else skills[..k] + skills[k + 1..]) == WithoutId(skills, id)
  {
    if skills != [] {
      var tail := skills[1..];
      assert DistinctIds(tail) by {
        forall i, j | 0 <= i < j < |tail| ensures tail[i].id != tail[j].id {
          assert tail[i] == skills[i + 1] && tail[j] == skills[j + 1];
        }
      }
      assert WithoutId(skills, id) == (if skills[0].id == id then [] else [skills[0]]) + WithoutId(tail, id);
      if skills[0].id == id {
        forall i | 0 <= i < |tail| ensures tail[i].id != id {
          assert tail[i] == skills[i + 1];
        }
        WithoutIdAbsent(tail, id);
        assert FindIndex(skills, IdIs(id)) == 0;
      } else {
        SpliceIsFilter(tail, id);
        SpliceStep(skills, id, FindIndex(tail, IdIs(id)));
      }
    }
  }

  lemma SpliceStep(skills: seq<Skill>, id: string, k': int)
    requires skills != [] && skills[0].id != id
    requires k' == FindIndex(skills[1..], IdIs(id))
    ensures var k := FindIndex(skills, IdIs(id));
      (if k == -1 then skills else skills[..k] + skills[k + 1..]) ==
      [skills[0]] + (if k' == -1 then skills[1..] else skills[1..][..k'] + skills[1..][k' + 1..])
  {
    var k := FindIndex(skills, IdIs(id));
    assert k == (if k' == -1 then -1 else k' + 1);
    if k == -1 {
      assert skills == [skills[0]] + skills[1..];
    } else {
      CutCons(skills, k');
    }
  }

  /** Cutting position `j + 1` out of a list keeps its head and cuts position `j` out of its tail. */
  lemma CutCons<T>(s: seq<T>, j: nat)
    requires j + 1 < |s|
    ensures s[..j + 1] + s[j + 2..] == [s[0]] + (s[1..][..j] + s[1..][j + 1..])
  {
    assert s[..j + 1] == [s[0]] + s[1..][..j];
    assert s[j + 2..] == s[1..][j + 1..];
  }

  /** Cutting one position out of a list keeps its ids and names distinct. */
  lemma SpliceKeepsDistinct(skills: seq<Skill>, k: nat)
    requires k < |skills| && DistinctIds(skills) && DistinctNames(skills)
    ensures var r := skills[..k] + skills[k + 1..];
      DistinctIds(r) && DistinctNames(r) && forall i :: 0 <= i < |r| ==> r[i].id != skills[k].id
  {
    var r := skills[..k] + skills[k + 1..];
    assert forall i :: 0 <= i < |r| ==> r[i] == skills[if i < k then i else i + 1];
  }

  /** `installed.some(s => s.id === skill.id || s.name === skill.name)`. */
  predicate Clashes(installed: seq<Skill>, skill: Skill)
  {
    exists i :: 0 <= i < |installed| && (installed[i].id == skill.id || installed[i].name == skill.name)
  }

  /** The example skill registered at start-up; its handler reads the clock, so it is a parameter. */
  function GetTimeSkill(clock: Handler): (s: Skill)
    ensures s.id == "installed/get_time" && s.name == "get_time"
  {
    Skill(
      "installed/get_time",
      "get_time",
      "获取当前本地日期和时间，用于回答用户关于“现在几点”“今天几号”等问题。",
      JObj(map[
        "type" := JStr("object"),
        "properties" := JObj(map[
          "timezone" := JObj(map[
            "type" := JStr("string"),
            "description" := JStr("可选，时区，如 Asia/Shanghai。不传则使用本地时区。")])]),
        "required" := JArr([])]),
      clock)
  }

  class SkillRegistry {
    /** The built-in skills, fixed when the module loads. */
    const builtins: seq<Skill>
    /** The skills installed at run time, in installation order. */
    var installed: seq<Skill>

    /** Installed skills never share an id or a name. */
    ghost predicate Valid()
      reads this
    {
      DistinctIds(installed) && DistinctNames(installed)
    }

    /** Module load: `loadInstalledSkills` registers the time skill into the empty installed list. */
    constructor (builtins: seq<Skill>, clock: Handler)
      ensures Valid()
      ensures this.builtins == builtins
      ensures installed == [GetTimeSkill(clock)]
    {
      this.builtins := builtins;
      installed := [];
      new;
      RegisterSkill(GetTimeSkill(clock));
    }

    /** Built-ins first, then installed skills, each list in its own order. */
    function GetAllSkills(): (r: seq<Skill>)
      reads this
      ensures |r| == |builtins| + |installed|
      ensures forall i :: 0 <= i < |builtins| ==> r[i] == builtins[i]
      ensures forall i :: 0 <= i < |installed| ==> r[|builtins| + i] == installed[i]
    {
      builtins + installed
    }

    /** The first skill in `GetAllSkills()` whose name is exactly `name`, if any. */
    function GetSkillByName(name: string): (r: Option<Skill>)
      reads this
      ensures r.None? <==> forall i :: 0 <= i < |GetAllSkills()| ==> GetAllSkills()[i].name != name
      ensures r.Some? ==> r.value.name == name
      ensures r.Some? ==> exists k :: 0 <= k < |GetAllSkills()| && GetAllSkills()[k] == r.value &&
                                      forall j :: 0 <= j < k ==> GetAllSkills()[j].name != name
    {
      FindByName(GetAllSkills(), name)
    }

    /** Install `skill` at the end unless an installed skill already has its id or its name. */
    method RegisterSkill(skill: Skill)
      requires Valid()
      modifies this
      ensures Valid()
      ensures Clashes(old(installed), skill) ==> installed == old(installed)
      ensures !Clashes(old(installed), skill) ==> installed == old(installed) + [skill]
    {
      if Clashes(installed, skill) {
        return;
      }
      installed := installed + [skill];
    }

    /** Remove the installed skill with this id, keeping the order of the others. */
    method UnregisterSkill(id: string)
      requires Valid()
      modifies this
      ensures Valid()
      ensures installed == WithoutId(old(installed), id)
      ensures forall i :: 0 <= i < |installed| ==> installed[i].id != id
    {
      var idx := FindIndex(installed, IdIs(id));
      SpliceIsFilter(installed, id);
      if idx != -1 {
        SpliceKeepsDistinct(installed, idx);
        installed := installed[..idx] + installed[idx + 1..];
      }
    }
  }

  /** A built-in skill shadows an installed skill of the same name. */
  lemma BuiltinShadowsInstalled(reg: SkillRegistry, name: string, i: nat)
    requires i < |reg.builtins| && reg.builtins[i].name == name
    ensures reg.GetSkillByName(name) == FindByName(reg.builtins, name)
  {
    FindByNamePrefersFirst(reg.builtins, reg.installed, name, i);
  }

  /** A name no built-in uses is looked up among the installed skills. */
  lemma InstalledFoundWhenNoBuiltin(reg: SkillRegistry, name: string)
    requires forall i :: 0 <= i < |reg.builtins| ==> reg.builtins[i].name != name
    ensures reg.GetSkillByName(name) == FindByName(reg.installed, name)
  {
    FindByNameFallsThrough(reg.builtins, reg.installed, name);
  }
}
