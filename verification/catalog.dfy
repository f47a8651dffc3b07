/** Resource catalog: which themes exist and which card sub-types a theme
    exposes (`pick_theme`, `pick_sub_types`). The resource tree is a snapshot
    of the directory listings under the plugin's `resource` directory. */
module Catalog {
  import opened Results
  import opened Seqs

  /** One entry of `fs.readdir(dir, { withFileTypes: true })`. */
  datatype Entry = Entry(name: string, isDirectory: bool)

  /** A path below the resource root, one segment per element: `[]` is the
      root, `[theme]` a theme directory, `[theme, type]` a sub-type directory. */
  type Path = seq<string>

  /** The listing of every directory that can be read; a path outside the
      domain is one whose `readdir` throws. */
  type FileSystem = map<Path, seq<Entry>>

  function ReadDir(fs: FileSystem, dir: Path): Option<seq<Entry>> {
    if dir in fs then Some(fs[dir]) else None
  }

  function EntryName(e: Entry): string { e.name }

  /** Names of a listing, in listing order (plain `fs.readdir(dir)`). */
  function Names(entries: seq<Entry>): seq<string> {
    Map(EntryName, entries)
  }

  /** `ALL_SUB_TYPES`, spelling ("Sowrds") included. */
  const AllSubTypes: seq<string> := ["MajorArcana", "Cups", "Pentacles", "Sowrds", "Wands"]

  /** `OFFICIAL_THEMES`: the built-in themes and their fixed sub-type lists. */
  const OfficialThemes: map<string, seq<string>> :=
    map["BilibiliTarot" := ["MajorArcana", "Cups", "Pentacles", "Sowrds", "Wands"],
        "TouhouTarot" := ["MajorArcana"]]

  /** `Object.keys(OFFICIAL_THEMES)`, in declaration order. */
  const OfficialThemeNames: seq<string> := ["BilibiliTarot", "TouhouTarot"]

  /** `Math.floor(Math.random() * n)` for a roll `Math.random()` returned. */
  function RandomIndex(roll: real, n: nat): (i: nat)
    requires 0.0 <= roll < 1.0
    requires n > 0
    ensures i < n
  {
    var x := roll * n as real;
    assert x < n as real;
    x.Floor
  }

  predicate IsDirectory(e: Entry) { e.isDirectory }

  /** Every theme `pick_theme` chooses from: the custom theme directories
      followed by the built-in names, duplicates removed by a `Set`. */
  function AllThemes(root: seq<Entry>): seq<string> {
    Dedup(Names(Filter(root, IsDirectory)) + OfficialThemeNames)
  }

  /** A name occurs among the filtered entries exactly when some entry of
      the listing passes the filter under that name. */
  lemma NamesOfFiltered(entries: seq<Entry>, p: Entry -> bool, s: string)
    ensures s in Names(Filter(entries, p)) <==> exists e :: e in entries && p(e) && e.name == s
  {
    var kept := Filter(entries, p);
    if s in Names(kept) {
      var k :| 0 <= k < |kept| && Names(kept)[k] == s;
      assert multiset(kept)[kept[k]] > 0;
    }
    if e :| e in entries && p(e) && e.name == s {
      assert multiset(kept)[e] > 0;
      var k :| 0 <= k < |kept| && kept[k] == e;
      assert Names(kept)[k] == s;
    }
  }

  /** The candidates are exactly the directory names of the root and the
      built-in names, each once. */
  lemma {:induction false} AllThemesMembers(root: seq<Entry>)
    ensures Distinct(AllThemes(root))
    ensures forall t :: t in AllThemes(root) <==>
      t in OfficialThemes || exists e :: e in root && e.isDirectory && e.name == t
  {
    var dirs := Filter(root, IsDirectory);
    var all := AllThemes(root);
    forall t
      ensures t in all <==> t in OfficialThemes || exists e :: e in root && e.isDirectory && e.name == t
    {
      NamesOfFiltered(root, IsDirectory, t);
      assert t in Names(dirs) + OfficialThemeNames <==> t in Names(dirs) || t in OfficialThemeNames;
    }
  }

  /** Both built-in names are always candidates, so there are at least two
      and the fallback of `pick_theme` is dead code. */
  lemma AllThemesAtLeastTwo(root: seq<Entry>)
    ensures |AllThemes(root)| >= 2
  {
    var all := AllThemes(root);
    AllThemesMembers(root);
    assert "BilibiliTarot" in all && "TouhouTarot" in all;
    var i :| 0 <= i < |all| && all[i] == "BilibiliTarot";
    var j :| 0 <= j < |all| && all[j] == "TouhouTarot";
    assert i != j;
  }

  /** With no custom theme directory the candidates are the built-in names,
      in declaration order. */
  lemma NoCustomThemes(root: seq<Entry>)
    requires forall e :: e in root ==> !e.isDirectory
    ensures AllThemes(root) == OfficialThemeNames
  {
    var dirs := Filter(root, IsDirectory);
    assert multiset(dirs) == multiset{};
    var xs := Names(dirs) + OfficialThemeNames;
    assert xs == OfficialThemeNames;
    assert xs[..1] == ["BilibiliTarot"] && xs[..1][..0] == [];
    assert Dedup(xs[..1]) == ["BilibiliTarot"];
  }

  /** `pick_theme`: list the resource root (a failure propagates), then pick
      the candidate at index `floor(roll * count)`. For an empty candidate
      list the code falls back to the built-in names; `AllThemesAtLeastTwo`
      shows that this branch is never taken. */
  function PickTheme(fs: FileSystem, roll: real): (r: Result<string, Error>)
    requires 0.0 <= roll < 1.0
    ensures r.Failure? <==> [] !in fs
    ensures r.Failure? ==> r.error == ResourceUnreadable
    ensures r.Success? ==>
      (r.value in OfficialThemes || exists e :: e in fs[[]] && e.isDirectory && e.name == r.value)
  {
    match ReadDir(fs, [])
    case None => Failure(ResourceUnreadable)
    case Some(root) =>
      var all := AllThemes(root);
      if |all| > 0 then
        AllThemesMembers(root);
        var t := all[RandomIndex(roll, |all|)];
        assert t in all;
        Success(t)
      else
        Success(OfficialThemeNames[RandomIndex(roll, |OfficialThemeNames|)])
  }

  /** Every candidate theme is chosen by some roll: the roll `k / count`
      selects the `k`-th candidate. */
  lemma EveryThemeReachable(fs: FileSystem, k: nat)
    requires [] in fs
    requires k < |AllThemes(fs[[]])|
    ensures var roll := k as real / |AllThemes(fs[[]])| as real;
      && 0.0 <= roll < 1.0
      && PickTheme(fs, roll) == Success(AllThemes(fs[[]])[k])
  {
    var n := |AllThemes(fs[[]])|;
    RandomIndexHits(k, n);
  }

  /** The roll `k / n` lands on index `k`. */
  lemma RandomIndexHits(k: nat, n: nat)
    requires k < n
    ensures 0.0 <= k as real / n as real < 1.0
    ensures RandomIndex(k as real / n as real, n) == k
  {
    var roll := k as real / n as real;
    assert roll * n as real == k as real;
  }

  predicate IsSubTypeDir(e: Entry) {
    e.isDirectory && e.name in AllSubTypes
  }

  /** `pick_sub_types`: a built-in theme gets its fixed list whatever is on
      disk; any other theme gets the names of its sub-directories that are
      known sub-types, in listing order, and an unreadable theme directory
      gives the empty list. Membership is checked against the object's own keys
      (see `PickSubTypesAsWritten` for the inherited-key lookup). */
  function PickSubTypes(fs: FileSystem, theme: string): (r: seq<string>)
    ensures theme in OfficialThemes ==> r == OfficialThemes[theme]
    ensures theme !in OfficialThemes && [theme] !in fs ==> r == []
    ensures theme !in OfficialThemes && [theme] in fs ==>
      && IsSubsequence(r, Names(fs[[theme]]))
      && (forall s :: s in r <==> exists e :: e in fs[[theme]] && e.isDirectory && e.name == s && s in AllSubTypes)
    ensures forall s :: s in r ==> s in AllSubTypes
  {
    if theme in OfficialThemes then OfficialThemes[theme]
    else
      match ReadDir(fs, [theme])
      case None => []
      case Some(entries) => SubTypeDirs(entries)
  }

  /** The known sub-type directories of a listing, in listing order. */
  function SubTypeDirs(entries: seq<Entry>): (r: seq<string>)
    ensures IsSubsequence(r, Names(entries))
    ensures forall s :: s in r <==> exists e :: e in entries && e.isDirectory && e.name == s && s in AllSubTypes
  {
    var dirs := Filter(entries, IsSubTypeDir);
    SubsequenceMap(EntryName, dirs, entries);
    forall s
      ensures s in Names(dirs) <==> exists e :: e in entries && e.isDirectory && e.name == s && s in AllSubTypes
    {
      NamesOfFiltered(entries, IsSubTypeDir, s);
    }
    Names(dirs)
  }

  /** What is on disk never matters for a built-in theme. */
  lemma OfficialSubTypesIgnoreDisk(fs1: FileSystem, fs2: FileSystem, theme: string)
    requires theme in OfficialThemes
    ensures PickSubTypes(fs1, theme) == PickSubTypes(fs2, theme) != []
  {
  }

  /** Property names every plain object inherits from `Object.prototype`
      (section 20.1.3 of ECMA-262, with the legacy accessors of its annex
      B.2.2), so that `name in OFFICIAL_THEMES` holds for each of them. */
  const InheritedKeys: set<string> :=
    {"constructor", "hasOwnProperty", "isPrototypeOf", "propertyIsEnumerable",
     "toLocaleString", "toString", "valueOf", "__proto__",
     "__defineGetter__", "__defineSetter__", "__lookupGetter__", "__lookupSetter__"}

  /** The inherited members whose `length` is 0: the methods `toString`,
      `toLocaleString` and `valueOf` take no arguments. Every other
      inherited member has a positive `length` (a function) or none at all
      (`__proto__` yields the prototype object). */
  const ZeroLengthKeys: set<string> := {"toLocaleString", "toString", "valueOf"}

  /** What `pick_sub_types` hands back as written: an array, or the inherited
      member (a function or the prototype object) it read by mistake. */
  datatype SubTypeLookup = Listed(subTypes: seq<string>) | Inherited(key: string)

  /** `pick_sub_types` as written: the `in` test also succeeds for inherited
      keys, and `OFFICIAL_THEMES[theme]` then returns the inherited member
      instead of scanning the theme directory. */
  function PickSubTypesAsWritten(fs: FileSystem, theme: string): (r: SubTypeLookup)
    ensures r.Inherited? <==> theme in InheritedKeys
    ensures r.Listed? ==> r.subTypes == PickSubTypes(fs, theme)
  {
    if theme in OfficialThemes then Listed(OfficialThemes[theme])
    else if theme in InheritedKeys then Inherited(theme)
    else Listed(PickSubTypes(fs, theme))
  }

  /** A custom theme directory called `toString` that holds a `Cups`
      directory: the lookup as written never lists it, while the own-key
      lookup finds the `Cups` sub-type. */
  lemma InheritedThemeNeverScanned()
    ensures var fs := map[[] := [Entry("toString", true)], ["toString"] := [Entry("Cups", true)]];
      && PickSubTypesAsWritten(fs, "toString") == Inherited("toString")
      && PickSubTypes(fs, "toString") == ["Cups"]
  {
    var fs := map[[] := [Entry("toString", true)], ["toString"] := [Entry("Cups", true)]];
    var entries := fs[["toString"]];
    assert Filter(entries, IsSubTypeDir) == entries by {
      assert entries[1..] == [];
    }
  }
}
