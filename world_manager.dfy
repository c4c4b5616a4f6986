/**
 * The world list of voxel/world_manager.py: `WorldInfo` records, their
 * dict form in worlds.json, and the `WorldManager` that creates, finds,
 * renames, deletes and sorts them. The file system is taken out: the
 * worlds.json file is the `stored` field, the clock and the random seed
 * are parameters.
 */
module WorldManagement {
  import opened Wrappers

  // ---------------------------------------------------------------------
  // World records

  /** One `WorldInfo`. */
  datatype WorldInfo = WorldInfo(name: string, folder: string, seed: int, created: string, lastPlayed: string,
                                 screenshot: Option<string>, gameMode: string, difficulty: int)

  /**
   * What `WorldInfo.__init__` can build: `last_played or created` is
   * empty only when `created` is.
   */
  predicate WellFormed(w: WorldInfo)
  {
    w.lastPlayed != "" || w.created == ""
  }

  /** `WorldInfo.__init__`: a missing or empty `last_played` falls back to `created`. */
  function MakeInfo(name: string, folder: string, seed: int, created: string, lastPlayed: Option<string>,
                    screenshot: Option<string>, gameMode: string, difficulty: int): (w: WorldInfo)
    ensures WellFormed(w)
    ensures lastPlayed.Some? && lastPlayed.value != "" ==> w.lastPlayed == lastPlayed.value
    ensures lastPlayed.None? || lastPlayed.value == "" ==> w.lastPlayed == created
    ensures w.name == name && w.folder == folder && w.seed == seed && w.created == created && w.screenshot == screenshot
  {
    var played := if lastPlayed.Some? && lastPlayed.value != "" then lastPlayed.value else created;
    WorldInfo(name, folder, seed, created, played, screenshot, gameMode, difficulty)
  }

  // ---------------------------------------------------------------------
  // The dict form

  /** The JSON values a world's dict holds. */
  datatype Json = JStr(s: string) | JInt(i: int) | JNull

  type Dict = map<string, Json>

  /** `to_dict`. */
  function ToDict(w: WorldInfo): (d: Dict)
    ensures d.Keys == {"name", "folder", "seed", "created", "last_played", "screenshot", "game_mode", "difficulty"}
  {
    map["name" := JStr(w.name), "folder" := JStr(w.folder), "seed" := JInt(w.seed), "created" := JStr(w.created),
        "last_played" := JStr(w.lastPlayed), "screenshot" := (if w.screenshot.Some? then JStr(w.screenshot.value) else JNull),
        "game_mode" := JStr(w.gameMode), "difficulty" := JInt(w.difficulty)]
  }

  /** `dict.get(key, default)`. */
  function Get(d: Dict, key: string, default: Json): Json
  {
    if key in d then d[key] else default
  }

  /** A value that may be a string or null; `None` for a value of another type. */
  function OptText(v: Json): Option<Option<string>>
  {
    match v
    case JStr(s) => Some(Some(s))
    case JNull => Some(None)
    case JInt(_) => None
  }

  /** The four keys `from_dict` reads with `data[...]`. */
  predicate HasRequired(d: Dict)
  {
    "name" in d && "folder" in d && "seed" in d && "created" in d
  }

  /**
   * Every key present holds a value of its field's type: text for the
   * names and dates, a number for the seed and the difficulty, text or
   * null for the last-played time and the screenshot.
   */
  predicate FieldsTyped(d: Dict)
  {
    ("name" in d ==> d["name"].JStr?) && ("folder" in d ==> d["folder"].JStr?)
    && ("seed" in d ==> d["seed"].JInt?) && ("created" in d ==> d["created"].JStr?)
    && ("last_played" in d ==> !d["last_played"].JInt?) && ("screenshot" in d ==> !d["screenshot"].JInt?)
    && ("game_mode" in d ==> d["game_mode"].JStr?) && ("difficulty" in d ==> d["difficulty"].JInt?)
  }

  /**
   * `from_dict`: `None` when one of the four required keys is missing
   * (the `KeyError` it raises) or a value is not of the field's type;
   * the optional keys take their defaults, and an empty or missing
   * last-played time falls back to the creation time.
   */
  function FromDict(d: Dict): (r: Option<WorldInfo>)
    ensures r.Some? <==> HasRequired(d) && FieldsTyped(d)
    ensures r.Some? ==>
      && WellFormed(r.value)
      && r.value.name == d["name"].s && r.value.folder == d["folder"].s
      && r.value.seed == d["seed"].i && r.value.created == d["created"].s
      && r.value.lastPlayed == (if "last_played" in d && d["last_played"].JStr? && d["last_played"].s != ""
                                then d["last_played"].s else d["created"].s)
      && r.value.screenshot == (if "screenshot" in d && d["screenshot"].JStr? then Some(d["screenshot"].s) else None)
      && r.value.gameMode == (if "game_mode" in d then d["game_mode"].s else "Survival")
      && r.value.difficulty == (if "difficulty" in d then d["difficulty"].i else 2)
  {
    if !HasRequired(d) then None
    else
      var played := OptText(Get(d, "last_played", JNull));
      var shot := OptText(Get(d, "screenshot", JNull));
      var mode := Get(d, "game_mode", JStr("Survival"));
      var level := Get(d, "difficulty", JInt(2));
      if d["name"].JStr? && d["folder"].JStr? && d["seed"].JInt? && d["created"].JStr?
         && played.Some? && shot.Some? && mode.JStr? && level.JInt?
      then Some(MakeInfo(d["name"].s, d["folder"].s, d["seed"].i, d["created"].s, played.value, shot.value, mode.s, level.i))
      else None
  }

  /** A record survives `to_dict` then `from_dict` exactly when `__init__` could have built it. */
  lemma DictRoundTrip(w: WorldInfo)
    ensures FromDict(ToDict(w)) == Some(w) <==> WellFormed(w)
  {
    var d := ToDict(w);
    assert d["name"] == JStr(w.name) && d["folder"] == JStr(w.folder) && d["seed"] == JInt(w.seed);
    assert d["created"] == JStr(w.created) && d["last_played"] == JStr(w.lastPlayed);
    assert d["game_mode"] == JStr(w.gameMode) && d["difficulty"] == JInt(w.difficulty);
    assert d["screenshot"] == if w.screenshot.Some? then JStr(w.screenshot.value) else JNull;
  }

  /** The `"worlds"` list `_save_worlds` writes. */
  function ToDicts(ws: seq<WorldInfo>): (ds: seq<Dict>)
    ensures |ds| == |ws| && forall i :: 0 <= i < |ws| ==> ds[i] == ToDict(ws[i])
  {
    seq(|ws|, i requires 0 <= i < |ws| => ToDict(ws[i]))
  }

  /** The list comprehension of `_load_worlds`: `None` as soon as one `from_dict` fails. */
  function ParseAll(ds: seq<Dict>): (r: Option<seq<WorldInfo>>)
    ensures r.Some? ==> |r.value| == |ds| && forall i :: 0 <= i < |ds| ==> FromDict(ds[i]) == Some(r.value[i])
    ensures r.None? ==> exists i :: 0 <= i < |ds| && FromDict(ds[i]).None?
  {
    if |ds| == 0 then Some([])
    else
      var init := ParseAll(ds[..|ds| - 1]);
      var last := FromDict(ds[|ds| - 1]);
      if init.Some? && last.Some? then Some(init.value + [last.value]) else None
  }

  /**
   * `_load_worlds`: the `"worlds"` list of worlds.json (`None` when the
   * file is missing or unreadable); a list that does not parse gives no
   * worlds, as the exception handler does.
   */
  function LoadWorlds(file: Option<seq<Dict>>): (ws: seq<WorldInfo>)
    ensures forall i :: 0 <= i < |ws| ==> WellFormed(ws[i])
  {
    if file.None? then []
    else
      var parsed := ParseAll(file.value);
      if parsed.Some? then parsed.value else []
  }

  /** Saving well-formed worlds and loading them back gives the same list. */
  lemma {:induction false} SavedWorldsReload(ws: seq<WorldInfo>)
    requires forall i :: 0 <= i < |ws| ==> WellFormed(ws[i])
    ensures ParseAll(ToDicts(ws)) == Some(ws)
    ensures LoadWorlds(Some(ToDicts(ws))) == ws
  {
    if |ws| > 0 {
      var init := ws[..|ws| - 1];
      SavedWorldsReload(init);
      assert ToDicts(ws)[..|ws| - 1] == ToDicts(init);
      DictRoundTrip(ws[|ws| - 1]);
      assert init + [ws[|ws| - 1]] == ws;
    }
  }

  // ---------------------------------------------------------------------
  // Folder names

  /** The ASCII letters and digits. */
  predicate AsciiAlnum(c: char)
  {
    'a' <= c <= 'z' || 'A' <= c <= 'Z' || '0' <= c <= '9'
  }

  /**
   * Python's `str.isalnum` on one character. The Unicode letter and digit
   * categories are not tabulated here: the test is any predicate that
   * agrees with the ASCII letters and digits on ASCII characters.
   */
  type AlnumTest = f: char -> bool | forall c: char :: c as int < 128 ==> (f(c) <==> AsciiAlnum(c))
    witness AsciiAlnum

  /** A character `_generate_folder_name` keeps. */
  predicate FolderChar(isAlnum: AlnumTest, c: char)
  {
    isAlnum(c) || c == '-' || c == '_'
  }

  /** The sanitising join of `_generate_folder_name`: every other character becomes '_'. */
  function Sanitized(isAlnum: AlnumTest, name: string): (r: string)
    ensures |r| == |name|
    ensures forall i :: 0 <= i < |r| ==> FolderChar(isAlnum, r[i])
    ensures forall i :: 0 <= i < |r| ==> if FolderChar(isAlnum, name[i]) then r[i] == name[i] else r[i] == '_'
  {
    seq(|name|, i requires 0 <= i < |name| => if FolderChar(isAlnum, name[i]) then name[i] else '_')
  }

  /**
   * On an ASCII name every Python `isalnum` gives the same folder name:
   * ASCII letters, digits, '-' and '_' are kept and every other
   * character becomes '_'.
   */
  lemma SanitizedAscii(isAlnum: AlnumTest, name: string)
    requires forall i :: 0 <= i < |name| ==> name[i] as int < 128
    ensures Sanitized(isAlnum, name) == Sanitized(AsciiAlnum, name)
  {
    var a, b := Sanitized(isAlnum, name), Sanitized(AsciiAlnum, name);
    forall i | 0 <= i < |name|
      ensures a[i] == b[i]
    {
      assert isAlnum(name[i]) == AsciiAlnum(name[i]);
    }
  }

  /** The base folder name: the sanitised name, or "world" for an empty one. */
  function BaseName(isAlnum: AlnumTest, name: string): (base: string)
    ensures base != "" && forall i :: 0 <= i < |base| ==> FolderChar(isAlnum, base[i])
    ensures name == "" ==> base == "world"
    ensures name != "" ==> base == Sanitized(isAlnum, name)
  {
    var s := Sanitized(isAlnum, name);
    if s == "" then "world" else s
  }

  /** The decimal digit of `d`. */
  function Digit(d: int): (c: char)
    requires 0 <= d < 10
    ensures '0' <= c <= '9'
  {
    (48 + d) as char
  }

  /** `str(n)` for a natural number. */
  function Decimal(n: nat): (s: string)
    ensures |s| >= 1 && forall i :: 0 <= i < |s| ==> '0' <= s[i] <= '9'
  {
    if n < 10 then [Digit(n)] else Decimal(n / 10) + [Digit(n % 10)]
  }

  /** Different numbers have different decimal strings. */
  lemma {:induction false} DecimalInjective(n: nat, m: nat)
    requires Decimal(n) == Decimal(m)
    ensures n == m
    decreases n + m
  {
    if n >= 10 && m >= 10 {
      var a, b := Decimal(n), Decimal(m);
      assert a[..|a| - 1] == Decimal(n / 10) && b[..|b| - 1] == Decimal(m / 10);
      assert Digit(n % 10) == a[|a| - 1] == b[|b| - 1] == Digit(m % 10);
      DecimalInjective(n / 10, m / 10);
    }
  }

  /** The `k`-th name tried: the base itself, then `f"{base}_{k}"`. */
  function Candidate(base: string, k: nat): string
  {
    if k == 0 then base else base + "_" + Decimal(k)
  }

  /** Different counters give different folder names. */
  lemma CandidatesDiffer(base: string, j: nat, k: nat)
    requires j != k
    ensures Candidate(base, j) != Candidate(base, k)
  {
    if j != 0 && k != 0 && Candidate(base, j) == Candidate(base, k) {
      var p := |base| + 1;
      assert Candidate(base, j)[p..] == Decimal(j);
      assert Candidate(base, k)[p..] == Decimal(k);
      DecimalInjective(j, k);
    }
  }

  /** The folders of the listed worlds. */
  function Folders(ws: seq<WorldInfo>): set<string>
  {
    set w | w in ws :: w.folder
  }

  /** The names tried before counter `n`. */
  ghost function Tried(base: string, n: nat): (s: set<string>)
    ensures forall j :: 0 <= j < n ==> Candidate(base, j) in s
    ensures |s| == n
  {
    if n == 0 then {}
    else
      var s := Tried(base, n - 1);
      NotTriedYet(base, n - 1, n - 1);
      s + {Candidate(base, n - 1)}
  }

  /** No name tried before counter `n` comes again at counter `m >= n`. */
  lemma {:induction false} NotTriedYet(base: string, n: nat, m: nat)
    requires n <= m
    ensures Candidate(base, m) !in (if n == 0 then {} else Tried(base, n - 1) + {Candidate(base, n - 1)})
  {
    if n > 0 {
      CandidatesDiffer(base, n - 1, m);
      NotTriedYet(base, n - 1, m);
    }
  }

  /** A subset is no larger than its superset. */
  lemma {:induction false} SubsetNoLarger<T>(a: set<T>, b: set<T>)
    requires a <= b
    ensures |a| <= |b|
    decreases a
  {
    if a != {} {
      var x :| x in a;
      SubsetNoLarger(a - {x}, b - {x});
    }
  }

  /** `folder` is the first free name of the sequence `base`, `base_1`, `base_2`, ... */
  ghost predicate FirstFree(base: string, folder: string, ws: seq<WorldInfo>)
  {
    exists k: nat :: folder == Candidate(base, k) && folder !in Folders(ws)
      && forall j :: 0 <= j < k ==> Candidate(base, j) in Folders(ws)
  }

  // ---------------------------------------------------------------------
  // Lookups and orderings

  /** The index of the first world `p` accepts, or `|ws|` when there is none. */
  function FirstIndex(ws: seq<WorldInfo>, p: WorldInfo -> bool): (i: nat)
    ensures i <= |ws| && (i < |ws| ==> p(ws[i]))
    ensures forall j :: 0 <= j < i ==> !p(ws[j])
  {
    if |ws| == 0 then 0
    else if p(ws[0]) then 0
    else 1 + FirstIndex(ws[1..], p)
  }

  /** The test `get_world` applies. */
  function FolderIs(folder: string): WorldInfo -> bool
  {
    (w: WorldInfo) => w.folder == folder
  }

  /** The test `get_world_by_name` applies. */
  function NameIs(name: string): WorldInfo -> bool
  {
    (w: WorldInfo) => w.name == name
  }

  /** The scan of `get_world` and `get_world_by_name`: the earliest world `p` accepts, if any. */
  function FirstWhere(ws: seq<WorldInfo>, p: WorldInfo -> bool): (r: Option<WorldInfo>)
    ensures r.Some? <==> exists i :: 0 <= i < |ws| && p(ws[i])
    ensures forall i :: 0 <= i < |ws| && p(ws[i]) && (forall j :: 0 <= j < i ==> !p(ws[j])) ==> r == Some(ws[i])
  {
    var i := FirstIndex(ws, p);
    if i < |ws| then Some(ws[i]) else None
  }

  /** The list comprehension of `delete_world`: the worlds whose folder differs, in order. */
  function Without(ws: seq<WorldInfo>, folder: string): (r: seq<WorldInfo>)
    ensures forall w :: w in r <==> w in ws && w.folder != folder
    ensures |r| <= |ws|
  {
    if |ws| == 0 then []
    else
      var init := Without(ws[..|ws| - 1], folder);
      var last := ws[|ws| - 1];
      if last.folder != folder then init + [last] else init
  }

  /** `Without` keeps the order of the rest: it distributes over concatenation. */
  lemma {:induction false} WithoutKeepsOrder(a: seq<WorldInfo>, b: seq<WorldInfo>, folder: string)
    ensures Without(a + b, folder) == Without(a, folder) + Without(b, folder)
    decreases |b|
  {
    if |b| == 0 {
      assert a + b == a;
    } else {
      var b' := b[..|b| - 1];
      assert (a + b)[..|a + b| - 1] == a + b';
      WithoutKeepsOrder(a, b', folder);
    }
  }

  /** Removing a folder no world has changes nothing. */
  lemma {:induction false} WithoutAbsent(ws: seq<WorldInfo>, folder: string)
    requires folder !in Folders(ws)
    ensures Without(ws, folder) == ws
  {
    if |ws| > 0 {
      var init := ws[..|ws| - 1];
      assert forall w :: w in init ==> w in ws;
      WithoutAbsent(init, folder);
      assert ws[|ws| - 1] in ws;
      assert init + [ws[|ws| - 1]] == ws;
    }
  }

  /** Python's `<=` on strings: lexicographic by code point. */
  predicate TextLe(a: string, b: string)
  {
    |a| == 0 || (|b| > 0 && (a[0] < b[0] || (a[0] == b[0] && TextLe(a[1..], b[1..]))))
  }

  lemma {:induction false} TextLeTotal(a: string, b: string)
    ensures TextLe(a, b) || TextLe(b, a)
  {
    if |a| > 0 && |b| > 0 && a[0] == b[0] {
      TextLeTotal(a[1..], b[1..]);
    }
  }

  lemma {:induction false} TextLeTransitive(a: string, b: string, c: string)
    requires TextLe(a, b) && TextLe(b, c)
    ensures TextLe(a, c)
  {
    if |a| > 0 && a[0] == b[0] && b[0] == c[0] {
      TextLeTransitive(a[1..], b[1..], c[1..]);
    }
  }

  /** Most recently played first. */
  predicate Descending(ws: seq<WorldInfo>)
  {
    forall i, j :: 0 <= i < j < |ws| ==> TextLe(ws[j].lastPlayed, ws[i].lastPlayed)
  }

  /** Puts `w` after the worlds played no earlier than it. */
  function Insert(ws: seq<WorldInfo>, w: WorldInfo): (r: seq<WorldInfo>)
    requires Descending(ws)
    ensures multiset(r) == multiset(ws) + multiset{w}
    ensures Descending(r)
  {
    if |ws| == 0 then [w]
    else if TextLe(w.lastPlayed, ws[0].lastPlayed) then
      var rest := Insert(ws[1..], w);
      InsertHead(ws, w, rest);
      assert ws == [ws[0]] + ws[1..];
      [ws[0]] + rest
    else
      TextLeTotal(w.lastPlayed, ws[0].lastPlayed);
      InsertFront(ws, w);
      [w] + ws
  }

  /** A head played no earlier than every other world keeps the list descending. */
  lemma InsertHead(ws: seq<WorldInfo>, w: WorldInfo, rest: seq<WorldInfo>)
    requires |ws| > 0 && Descending(ws) && TextLe(w.lastPlayed, ws[0].lastPlayed)
    requires multiset(rest) == multiset(ws[1..]) + multiset{w} && Descending(rest)
    ensures Descending([ws[0]] + rest)
  {
    forall j | 0 <= j < |rest|
      ensures TextLe(rest[j].lastPlayed, ws[0].lastPlayed)
    {
      assert rest[j] in multiset(rest);
      if rest[j] != w {
        assert rest[j] in multiset(ws[1..]);
        var k :| 0 <= k < |ws[1..]| && ws[1..][k] == rest[j];
        assert ws[k + 1] == rest[j];
      }
    }
    var r := [ws[0]] + rest;
    forall i, j | 0 <= i < j < |r|
      ensures TextLe(r[j].lastPlayed, r[i].lastPlayed)
    {
      if i > 0 {
        assert r[i] == rest[i - 1] && r[j] == rest[j - 1];
      }
    }
  }

  /** A world played later than the head goes in front. */
  lemma InsertFront(ws: seq<WorldInfo>, w: WorldInfo)
    requires |ws| > 0 && Descending(ws) && TextLe(ws[0].lastPlayed, w.lastPlayed)
    ensures Descending([w] + ws)
  {
    var r := [w] + ws;
    forall i, j | 0 <= i < j < |r|
      ensures TextLe(r[j].lastPlayed, r[i].lastPlayed)
    {
      if i == 0 {
        if j > 1 {
          TextLeTransitive(ws[j - 1].lastPlayed, ws[0].lastPlayed, w.lastPlayed);
        }
      } else {
        assert r[i] == ws[i - 1] && r[j] == ws[j - 1];
      }
    }
  }

  /**
   * `sorted(worlds, key=last_played, reverse=True)`: the worlds, most
   * recently played first.
   */
  function SortByLastPlayed(ws: seq<WorldInfo>): (r: seq<WorldInfo>)
    ensures multiset(r) == multiset(ws) && Descending(r)
  {
    if |ws| == 0 then []
    else
      var init := ws[..|ws| - 1];
      assert init + [ws[|ws| - 1]] == ws;
      Insert(SortByLastPlayed(init), ws[|ws| - 1])
  }

  // ---------------------------------------------------------------------
  // The manager

  class WorldManager {
    /** `self.worlds`. */
    var worlds: seq<WorldInfo>
    /** The `"worlds"` list of worlds.json as last written (`None`: no file). */
    var stored: Option<seq<Dict>>

    /** Every world is one `WorldInfo.__init__` could build. */
    ghost predicate Valid()
      reads this
    {
      forall i :: 0 <= i < |worlds| ==> WellFormed(worlds[i])
    }

    /** `__init__` with `_load_worlds` reading `file`. */
    constructor(file: Option<seq<Dict>>)
      ensures Valid() && worlds == LoadWorlds(file) && stored == file
    {
      worlds := LoadWorlds(file);
      stored := file;
    }

    /** `_save_worlds`. */
    method SaveWorlds()
      requires Valid()
      modifies this`stored
      ensures stored == Some(ToDicts(worlds))
      ensures LoadWorlds(stored) == worlds
    {
      stored := Some(ToDicts(worlds));
      SavedWorldsReload(worlds);
    }

    /** Some world has folder `folder`: the `any(...)` test of `_generate_folder_name`. */
    predicate InUse(folder: string)
      reads this
      ensures InUse(folder) <==> folder in Folders(worlds)
    {
      exists w :: w in worlds && w.folder == folder
    }

    /**
     * `_generate_folder_name`: the sanitised name (or "world"), then
     * `base_1`, `base_2`, ... until one is not in use. `k` is the counter
     * of the name returned; `isAlnum` is Python's `str.isalnum`.
     */
    method GenerateFolderName(isAlnum: AlnumTest, name: string) returns (folder: string, ghost k: nat)
      ensures folder == Candidate(BaseName(isAlnum, name), k) && folder !in Folders(worlds)
      ensures forall j :: 0 <= j < k ==> Candidate(BaseName(isAlnum, name), j) in Folders(worlds)
      ensures FirstFree(BaseName(isAlnum, name), folder, worlds)
    {
      var base := Sanitized(isAlnum, name);
      if base == "" {
        base := "world";
      }
      folder := base;
      var counter := 1;
      while InUse(folder)
        invariant counter >= 1 && folder == Candidate(base, counter - 1)
        invariant Tried(base, counter - 1) <= Folders(worlds)
        decreases |Folders(worlds)| - (counter - 1)
      {
        assert Tried(base, counter) == Tried(base, counter - 1) + {folder};
        SubsetNoLarger(Tried(base, counter), Folders(worlds));
        folder := base + "_" + Decimal(counter);
        counter := counter + 1;
      }
      k := counter - 1;
    }

    /**
     * `create_world` for its list part: the seed is `seed` or the random
     * `draw`, the folder is fresh (`isAlnum` is Python's `str.isalnum`),
     * and the new world, created and last played at `timestamp`, is
     * appended and saved.
     */
    method CreateWorld(isAlnum: AlnumTest, name: string, seed: Option<int>, draw: int, gameMode: string, difficulty: int, timestamp: string)
      returns (info: WorldInfo)
      requires Valid() && 0 <= draw <= 999999999
      modifies this
      ensures Valid() && worlds == old(worlds) + [info]
      ensures info.name == name && info.seed == (if seed.Some? then seed.value else draw)
      ensures info.created == timestamp && info.lastPlayed == timestamp && info.screenshot == None
      ensures info.gameMode == gameMode && info.difficulty == difficulty
      ensures FirstFree(BaseName(isAlnum, name), info.folder, old(worlds)) && info.folder !in Folders(old(worlds))
      ensures stored == Some(ToDicts(worlds)) && LoadWorlds(stored) == worlds
    {
      var s := if seed.Some? then seed.value else draw;
      var folder, k := GenerateFolderName(isAlnum, name);
      info := MakeInfo(name, folder, s, timestamp, Some(timestamp), None, gameMode, difficulty);
      worlds := worlds + [info];
      SaveWorlds();
    }

    /** `get_world`: the first world with folder `folder`. */
    function GetWorld(folder: string): (r: Option<WorldInfo>)
      reads this
      ensures r.Some? <==> folder in Folders(worlds)
      ensures r.Some? ==> r.value in worlds && r.value.folder == folder
      ensures forall i :: 0 <= i < |worlds| && worlds[i].folder == folder && (forall j :: 0 <= j < i ==> worlds[j].folder != folder) ==> r == Some(worlds[i])
    {
      FirstWhere(worlds, FolderIs(folder))
    }

    /** `get_world_by_name`: the first world named `name`. */
    function GetWorldByName(name: string): (r: Option<WorldInfo>)
      reads this
      ensures r.Some? <==> exists w :: w in worlds && w.name == name
      ensures r.Some? ==> r.value in worlds && r.value.name == name
      ensures forall i :: 0 <= i < |worlds| && worlds[i].name == name && (forall j :: 0 <= j < i ==> worlds[j].name != name) ==> r == Some(worlds[i])
    {
      FirstWhere(worlds, NameIs(name))
    }

    /**
     * `delete_world` for its list part: `false` and no change when no
     * world has the folder; otherwise every world with it is dropped,
     * the rest keep their order, and the list is saved.
     */
    method DeleteWorld(folder: string) returns (ok: bool)
      requires Valid()
      modifies this
      ensures Valid() && ok == (folder in Folders(old(worlds)))
      ensures ok ==> worlds == Without(old(worlds), folder) && stored == Some(ToDicts(worlds))
      ensures !ok ==> worlds == old(worlds) && stored == old(stored)
    {
      var world := GetWorld(folder);
      if world.None? {
        return false;
      }
      worlds := Without(worlds, folder);
      SaveWorlds();
      ok := true;
    }

    /** `update_last_played` and `save_screenshot` act on the first world with the folder; the rest stay as they are. */
    method UpdateFirst(folder: string, f: WorldInfo -> WorldInfo) returns (i: nat)
      requires Valid() && forall w :: WellFormed(w) ==> WellFormed(f(w))
      modifies this
      ensures Valid() && i == FirstIndex(old(worlds), FolderIs(folder))
      ensures i < |old(worlds)| ==> worlds == old(worlds)[i := f(old(worlds)[i])] && stored == Some(ToDicts(worlds))
      ensures i == |old(worlds)| ==> worlds == old(worlds) && stored == old(stored)
    {
      i := FirstIndex(worlds, FolderIs(folder));
      var world := GetWorld(folder);
      if world.Some? {
        worlds := worlds[i := f(worlds[i])];
        SaveWorlds();
      }
    }

    /** `update_last_played`: the first world with the folder was last played at `now`. */
    method UpdateLastPlayed(folder: string, now: string) returns (i: nat)
      requires Valid() && now != ""
      modifies this
      ensures Valid() && i == FirstIndex(old(worlds), FolderIs(folder))
      ensures i < |old(worlds)| ==> worlds == old(worlds)[i := old(worlds)[i].(lastPlayed := now)]
      ensures i == |old(worlds)| ==> worlds == old(worlds)
    {
      i := UpdateFirst(folder, (w: WorldInfo) => w.(lastPlayed := now));
    }

    /** `save_screenshot`: the first world with the folder gets the screenshot path. */
    method SaveScreenshot(folder: string, path: string) returns (i: nat)
      requires Valid()
      modifies this
      ensures Valid() && i == FirstIndex(old(worlds), FolderIs(folder))
      ensures i < |old(worlds)| ==> worlds == old(worlds)[i := old(worlds)[i].(screenshot := Some(path))]
      ensures i == |old(worlds)| ==> worlds == old(worlds)
    {
      i := UpdateFirst(folder, (w: WorldInfo) => w.(screenshot := Some(path)));
    }

    /** `get_worlds_sorted_by_last_played`. */
    function SortedByLastPlayed(): (r: seq<WorldInfo>)
      reads this
      ensures multiset(r) == multiset(worlds) && Descending(r)
    {
      SortByLastPlayed(worlds)
    }
  }
}
