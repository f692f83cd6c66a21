/**
 * The memory layer: analyses stored one JSON file per product in a storage
 * directory. The directory is a map from file name to the file's decoded
 * content and modification time; the clock is a parameter. File names are
 * derived from product ids by filtering characters and truncating.
 */
module Memory {
  import opened Python
  import opened Mcp

  // ----- _get_product_filename -----

  /** `c.isalnum()` on ASCII letters and digits. */
  predicate IsAlnum(c: char) {
    'a' <= c <= 'z' || 'A' <= c <= 'Z' || '0' <= c <= '9'
  }

  /** The characters a sanitised id may contain. */
  predicate SafeChar(c: char) {
    IsAlnum(c) || c == '_' || c == '-'
  }

  predicate Safe(s: string) {
    forall i :: 0 <= i < |s| ==> SafeChar(s[i])
  }

  /** The kept characters (alphanumerics, space, `_`, `-`), spaces then turned into `_`. */
  function Kept(s: string): (r: string)
    ensures Safe(r) && |r| <= |s|
  {
    if s == [] then []
    else
      var c := s[0];
      var head := if IsAlnum(c) || c == '_' || c == '-' then [c] else if c == ' ' then ['_'] else [];
      head + Kept(s[1..])
  }

  lemma {:induction false} KeptAppend(a: string, b: string)
    ensures Kept(a + b) == Kept(a) + Kept(b)
  {
    if a == [] {
      assert a + b == b;
    } else {
      assert (a + b)[1..] == a[1..] + b;
      KeptAppend(a[1..], b);
    }
  }

  /** Characters already safe are all kept, unchanged. */
  lemma {:induction false} KeptSafe(s: string)
    requires Safe(s)
    ensures Kept(s) == s
  {
    if s != [] {
      KeptSafe(s[1..]);
    }
  }

  const MaxIdLength := 150

  /** The sanitised id: kept characters, and a long one cut to its first 100, "_" and its last 20. */
  function Sanitize(id: string): (r: string)
    ensures Safe(r)
    ensures |Kept(id)| <= MaxIdLength ==> r == Kept(id)
    ensures |Kept(id)| > MaxIdLength ==> |r| == 121 && r == Kept(id)[..100] + "_" + Kept(id)[|Kept(id)| - 20..]
  {
    var s := Kept(id);
    if |s| > MaxIdLength then
      var stamp := if |s| >= 20 then s[|s| - 20..] else "";
      s[..100] + "_" + stamp
    else s
  }

  /** A sanitised id is its own sanitised form. */
  lemma SanitizeIdempotent(id: string)
    ensures Sanitize(Sanitize(id)) == Sanitize(id)
  {
    KeptSafe(Sanitize(id));
  }

  /** An id of safe characters no longer than 150 is left as it is. */
  lemma SanitizeKeepsSafe(id: string)
    requires Safe(id) && |id| <= MaxIdLength
    ensures Sanitize(id) == id
  {
    KeptSafe(id);
  }

  /** `os.path.join(dir, name)` for a relative name. */
  function Join(dir: string, name: string): (r: string)
    ensures dir == "" ==> r == name
  {
    if name != [] && name[0] == '/' then name
    else if dir == "" || dir[|dir| - 1] == '/' then dir + name
    else dir + "/" + name
  }

  function FileName(id: string): string {
    Sanitize(id) + ".json"
  }

  /** `_get_product_filename`: the storage directory joined with the sanitised id and ".json". */
  function ProductFilename(dir: string, id: string): (r: string)
    ensures dir != "" && dir[|dir| - 1] != '/' ==> r == dir + "/" + Sanitize(id) + ".json"
  {
    Join(dir, FileName(id))
  }

  // ----- product ids -----

  /** A `%Y%m%d_%H%M%S` timestamp. */
  predicate IsStamp(s: string) {
    |s| == 15 && s[8] == '_' && forall i :: 0 <= i < 15 && i != 8 ==> IsDigit(s[i])
  }

  /**
   * The id `store_product_analysis` makes from the title: the title, cut to 50
   * characters and "..." when longer, then "_" and the timestamp. A title without a
   * length, or a long one that is not a string, raises, and no id is made.
   */
  function ProductIdOf(productData: Json, stamp: string, show: Json -> string): (r: Option<string>)
    ensures productData.JObj? && "title" in productData.fields && productData.fields["title"].JStr? ==>
      var t := productData.fields["title"].s;
      r == Some((if |t| > 50 then t[..50] + "..." else t) + "_" + stamp)
  {
    match Subscript(productData, "title")
    case Err(_) => None
    case Ok(title) =>
      match PyLen(title)
      case Err(_) => None
      case Ok(n) =>
        if n > 50 then (if title.JStr? then Some(title.s[..50] + "..." + "_" + stamp) else None)
        else Some((if title.JStr? then title.s else show(title)) + "_" + stamp)
  }

  /** A string title's id never reaches the truncation, and the dots of a cut title are dropped from the file name. */
  lemma TitleFileName(title: string, stamp: string)
    requires IsStamp(stamp)
    ensures var id := (if |title| > 50 then title[..50] + "..." else title) + "_" + stamp;
      |Kept(id)| <= MaxIdLength && Sanitize(id) == Kept(if |title| > 50 then title[..50] else title) + "_" + stamp
  {
    var short := if |title| > 50 then title[..50] else title;
    assert Safe("_" + stamp) by {
      forall i | 0 <= i < 16
        ensures SafeChar(("_" + stamp)[i])
      {
        if i > 0 {
          assert ("_" + stamp)[i] == stamp[i - 1];
          assert i - 1 == 8 || IsDigit(stamp[i - 1]);
        }
      }
    }
    KeptSafe("_" + stamp);
    if |title| > 50 {
      assert (title[..50] + "...") + "_" + stamp == title[..50] + ("..." + ("_" + stamp));
      KeptAppend(title[..50], "..." + ("_" + stamp));
      KeptAppend("...", "_" + stamp);
      assert Kept("...") == "";
    } else {
      assert title + "_" + stamp == title + ("_" + stamp);
      KeptAppend(title, "_" + stamp);
    }
  }

  // ----- the directory -----

  /** A file of the storage directory: its decoded JSON content and its modification time. */
  datatype StoredFile = StoredFile(content: Json, mtime: int)

  const PreferencesFile := "user_preferences.json"

  /** The files the listing methods read: JSON files other than the preferences file. */
  predicate Listed(name: string) {
    |name| >= 5 && name[|name| - 5..] == ".json" && name != PreferencesFile
  }

  /** The files `os.listdir` yields that the listing methods keep. */
  function ListedNames(files: map<string, StoredFile>): (r: set<string>)
    ensures forall n :: n in r <==> n in files && Listed(n)
  {
    set n | n in files && Listed(n)
  }

  /** The entry `store_product_analysis` writes. */
  function EntryOf(productData: Json, analysis: Json, isoTime: string, id: string, prefs: Json): (r: Json)
    ensures r.JObj? && "product_data" in r.fields && r.fields["product_data"] == productData
    ensures ("user_preferences" in r.fields) == Truthy(prefs)
  {
    var entry := map[
      "product_data" := productData,
      "analysis_results" := analysis,
      "timestamp" := JStr(isoTime),
      "product_id" := JStr(id)];
    JObj(if Truthy(prefs) then entry["user_preferences" := prefs] else entry)
  }

  /** `retrieve_product_analysis` on a directory. */
  function RetrieveFrom(files: map<string, StoredFile>, id: string): (r: Option<Json>)
    ensures r.Some? <==> FileName(id) in files
    ensures r.Some? ==> r.value == files[FileName(id)].content
  {
    if FileName(id) in files then Some(files[FileName(id)].content) else None
  }

  /** Retrieving what was just stored under an id gives it back; other file names are untouched. */
  lemma StoreRetrieve(files: map<string, StoredFile>, id: string, entry: Json, now: int, other: string)
    requires FileName(other) != FileName(id)
    ensures RetrieveFrom(files[FileName(id) := StoredFile(entry, now)], id) == Some(entry)
    ensures RetrieveFrom(files[FileName(id) := StoredFile(entry, now)], other) == RetrieveFrom(files, other)
  {
  }

  /** Two ids that differ only in dropped characters share a file, so the later store replaces the earlier. */
  lemma DotsShareFile(id: string)
    ensures FileName(id + ".") == FileName(id)
  {
    KeptAppend(id, ".");
    assert Kept(".") == "";
    assert Kept(id) + "" == Kept(id);
  }

  // ----- search_analyses -----

  /** `c.lower()` on ASCII letters. */
  function LowerChar(c: char): (r: char)
    ensures !('A' <= r <= 'Z')
    ensures 'A' <= c <= 'Z' ==> r as int == c as int + 32
    ensures !('A' <= c <= 'Z') ==> r == c
  {
    if 'A' <= c <= 'Z' then (c as int + 32) as char else c
  }

  /** `s.lower()` on ASCII letters: each character lowercased, in place. */
  function Lower(s: string): (r: string)
    ensures |r| == |s| && forall i :: 0 <= i < |s| ==> r[i] == LowerChar(s[i])
  {
    if s == [] then [] else [LowerChar(s[0])] + Lower(s[1..])
  }

  /** Lowercasing a lowercased text changes nothing. */
  lemma LowerIdempotent(s: string)
    ensures Lower(Lower(s)) == Lower(s)
  {
    var t := Lower(s);
    assert forall i :: 0 <= i < |t| ==> Lower(t)[i] == t[i];
  }

  /** `str(v)`: a string is itself. */
  function Text(v: Json, show: Json -> string): string {
    if v.JStr? then v.s else show(v)
  }

  /** Whether one entry matches the query, or the exception that aborts the search. */
  function Matches(entry: Json, query: string, show: Json -> string): (r: Result<bool, Failure>)
    ensures r.Ok? ==> entry.JObj? && "product_data" in entry.fields && entry.fields["product_data"].JObj?
    ensures r.Ok? ==> Get(entry.fields["product_data"].fields, "title", JStr("")).JStr?
  {
    var data :- Subscript(entry, "product_data");
    var d :- AsDict(data);
    var title := Get(d, "title", JStr(""));
    if !title.JStr? then Err(AttributeError(TypeName(title), "lower"))
    else if HasSubstring(Lower(title.s), Lower(query)) then Ok(true)
    else
      var analysis := Get(entry.fields, "analysis_results", JObj(map[]));
      if !analysis.JObj? then Err(AttributeError(TypeName(analysis), "values"))
      else Ok(exists k :: k in analysis.fields && HasSubstring(Lower(Text(analysis.fields[k], show)), Lower(query)))
  }

  /** An entry with a string title matches iff the query is in its title or in one of its analysis values. */
  lemma MatchMeaning(data: map<string, Json>, analysis: map<string, Json>, rest: map<string, Json>, query: string, show: Json -> string)
    requires "title" in data && data["title"].JStr?
    ensures var entry := JObj(rest["product_data" := JObj(data)]["analysis_results" := JObj(analysis)]);
      Matches(entry, query, show) == Ok(HasSubstring(Lower(data["title"].s), Lower(query)) ||
        exists k :: k in analysis && HasSubstring(Lower(Text(analysis[k], show)), Lower(query)))
  {
  }

  /** The search over the files in the order listed: the names that match, or the first exception. */
  function SearchOver(files: map<string, StoredFile>, order: seq<string>, query: string, show: Json -> string): (r: Result<seq<string>, Failure>)
    requires forall i :: 0 <= i < |order| ==> order[i] in files
    ensures r.Ok? ==> |r.value| <= |order| && forall i :: 0 <= i < |r.value| ==> r.value[i] in order
  {
    if order == [] then Ok([])
    else
      var front := order[..|order| - 1];
      var before :- SearchOver(files, front, query, show);
      assert forall i :: 0 <= i < |before| ==> before[i] in order by {
        assert forall i :: 0 <= i < |front| ==> front[i] == order[i];
      }
      var last := order[|order| - 1];
      var hit :- Matches(files[last].content, query, show);
      Ok(if hit then before + [last] else before)
  }

  /** The search fails exactly when some file's entry cannot be read, whatever the order. */
  lemma {:induction false} SearchFails(files: map<string, StoredFile>, order: seq<string>, query: string, show: Json -> string)
    requires forall i :: 0 <= i < |order| ==> order[i] in files
    ensures SearchOver(files, order, query, show).Err? <==>
      exists i :: 0 <= i < |order| && Matches(files[order[i]].content, query, show).Err?
  {
    if order != [] {
      var front := order[..|order| - 1];
      SearchFails(files, front, query, show);
      assert forall i :: 0 <= i < |front| ==> front[i] == order[i];
    }
  }

  /** A successful search holds exactly the matching files, in listing order, each once. */
  lemma {:induction false} SearchFinds(files: map<string, StoredFile>, order: seq<string>, query: string, show: Json -> string)
    requires forall i :: 0 <= i < |order| ==> order[i] in files
    requires forall i, j :: 0 <= i < j < |order| ==> order[i] != order[j]
    requires SearchOver(files, order, query, show).Ok?
    ensures var found := SearchOver(files, order, query, show).value;
      (forall n :: n in found <==> n in order && Matches(files[n].content, query, show) == Ok(true)) &&
      (forall i, j :: 0 <= i < j < |found| ==> found[i] != found[j])
  {
    if order != [] {
      var front := order[..|order| - 1];
      var last := order[|order| - 1];
      assert forall i :: 0 <= i < |front| ==> front[i] == order[i];
      SearchFinds(files, front, query, show);
      assert last !in front;
    }
  }

  /** The contents of the named files, in order. */
  function Contents(files: map<string, StoredFile>, names: seq<string>): (r: seq<Json>)
    requires forall i :: 0 <= i < |names| ==> names[i] in files
    ensures |r| == |names| && forall i :: 0 <= i < |names| ==> r[i] == files[names[i]].content
  {
    if names == [] then [] else Contents(files, names[..|names| - 1]) + [files[names[|names| - 1]].content]
  }

  /** A listing order: each listed file exactly once. */
  predicate Enumerates(order: seq<string>, files: map<string, StoredFile>) {
    (forall i :: 0 <= i < |order| ==> order[i] in files && Listed(order[i])) &&
    (forall n :: n in files && Listed(n) ==> n in order) &&
    (forall i, j :: 0 <= i < j < |order| ==> order[i] != order[j])
  }

  /** What `search_analyses` returns for a listing order: the matches, or [] when an entry raised. */
  function SearchResult(files: map<string, StoredFile>, order: seq<string>, query: string, show: Json -> string): (r: seq<Json>)
    requires Enumerates(order, files)
  {
    match SearchOver(files, order, query, show)
    case Ok(names) => Contents(files, names)
    case Err(_) => []
  }

  // ----- get_recent_analyses -----

  /** `len(files[:limit])`. */
  function SliceCount(n: nat, limit: int): (r: nat)
    ensures r <= n
    ensures limit >= 0 ==> r <= limit
  {
    if limit >= 0 then (if limit < n then limit else n)
    else if n + limit > 0 then n + limit else 0
  }

  /** The names `get_recent_analyses` loads: the newest listed files, newest first, as many as the slice keeps. */
  predicate Newest(files: map<string, StoredFile>, limit: int, names: seq<string>) {
    (forall i :: 0 <= i < |names| ==> names[i] in files && Listed(names[i])) &&
    (forall i, j :: 0 <= i < j < |names| ==> names[i] != names[j]) &&
    (forall i, j :: 0 <= i < j < |names| ==> files[names[i]].mtime >= files[names[j]].mtime) &&
    (forall n, i :: n in files && Listed(n) && n !in names && 0 <= i < |names| ==> files[n].mtime <= files[names[i]].mtime) &&
    |names| == SliceCount(|ListedNames(files)|, limit)
  }

  /** The recent list never holds more than `limit` entries nor the preferences file. */
  lemma RecentBounds(files: map<string, StoredFile>, limit: int, names: seq<string>)
    requires Newest(files, limit, names)
    ensures limit >= 0 ==> |names| <= limit
    ensures forall i :: 0 <= i < |names| ==> names[i] != PreferencesFile
  {
  }

  lemma ContentsAppend(files: map<string, StoredFile>, names: seq<string>, n: string)
    requires forall i :: 0 <= i < |names| ==> names[i] in files
    requires n in files
    ensures Contents(files, names + [n]) == Contents(files, names) + [files[n].content]
  {
    assert (names + [n])[..|names|] == names;
  }

  /** A listing sorted newest first, each file once. */
  predicate SortedNewestFirst(files: map<string, StoredFile>, listed: set<string>, sorted: seq<string>) {
    (forall i :: 0 <= i < |sorted| ==> sorted[i] in files && sorted[i] in listed) &&
    (forall n :: n in listed ==> n in sorted) &&
    (forall i, j :: 0 <= i < j < |sorted| ==> sorted[i] != sorted[j]) &&
    (forall i, j :: 0 <= i < j < |sorted| ==> files[sorted[i]].mtime >= files[sorted[j]].mtime)
  }

  /** A distinct enumeration of a set has the set's size. */
  lemma {:induction false} DistinctSize(s: seq<string>, pool: set<string>)
    requires forall i :: 0 <= i < |s| ==> s[i] in pool
    requires forall n :: n in pool ==> n in s
    requires forall i, j :: 0 <= i < j < |s| ==> s[i] != s[j]
    ensures |s| == |pool|
  {
    if s != [] {
      var last := s[|s| - 1];
      var front := s[..|s| - 1];
      forall n | n in pool - {last}
        ensures n in front
      {
        var k :| 0 <= k < |s| && s[k] == n;
        assert k < |s| - 1;
        assert front[k] == n;
      }
      DistinctSize(front, pool - {last});
    }
  }

  /** The first `count` files of the sorted listing are the `files[:limit]` of `get_recent_analyses`. */
  lemma SortedPrefixNewest(files: map<string, StoredFile>, limit: int, sorted: seq<string>, count: nat)
    requires SortedNewestFirst(files, ListedNames(files), sorted)
    requires count == SliceCount(|sorted|, limit)
    ensures Newest(files, limit, sorted[..count])
  {
    var listed := ListedNames(files);
    DistinctSize(sorted, listed);
    var names := sorted[..count];
    forall n, i | n in files && Listed(n) && n !in names && 0 <= i < |names|
      ensures files[n].mtime <= files[names[i]].mtime
    {
      var k :| 0 <= k < |sorted| && sorted[k] == n;
      assert k >= count;
    }
  }

  /** A non-empty set of files has one modified no earlier than the others. */
  lemma {:induction false} LatestExists(files: map<string, StoredFile>, pool: set<string>)
    requires pool != {} && pool <= files.Keys
    ensures exists n :: n in pool && forall m :: m in pool ==> files[m].mtime <= files[n].mtime
  {
    var x :| x in pool;
    if pool != {x} {
      var rest := pool - {x};
      LatestExists(files, rest);
      var y :| y in rest && forall m :: m in rest ==> files[m].mtime <= files[y].mtime;
      if files[x].mtime <= files[y].mtime {
        assert forall m :: m in pool ==> files[m].mtime <= files[y].mtime;
      } else {
        assert forall m :: m in pool ==> files[m].mtime <= files[x].mtime;
      }
    }
  }

  /** `files.sort(key=getmtime, reverse=True)`: the listed files, newest first. */
  method NewestFirst(files: map<string, StoredFile>, listed: set<string>) returns (sorted: seq<string>)
    requires listed <= files.Keys
    ensures SortedNewestFirst(files, listed, sorted)
  {
    var pool := listed;
    sorted := [];
    while pool != {}
      invariant pool <= listed
      invariant forall i :: 0 <= i < |sorted| ==> sorted[i] in files && sorted[i] in listed && sorted[i] !in pool
      invariant forall n :: n in listed ==> n in pool || n in sorted
      invariant forall i, j :: 0 <= i < j < |sorted| ==> sorted[i] != sorted[j]
      invariant forall i, j :: 0 <= i < j < |sorted| ==> files[sorted[i]].mtime >= files[sorted[j]].mtime
      invariant forall n, i :: n in pool && 0 <= i < |sorted| ==> files[n].mtime <= files[sorted[i]].mtime
      decreases |pool|
    {
      LatestExists(files, pool);
      var n :| n in pool && forall m :: m in pool ==> files[m].mtime <= files[n].mtime;
      ghost var prev := sorted;
      sorted := sorted + [n];
      assert forall i :: 0 <= i < |prev| ==> sorted[i] == prev[i];
      pool := pool - {n};
    }
  }

  class MemoryLayer {
    const storageDir: string
    const rt: Runtime
    /** The storage directory: file name to file. */
    var files: map<string, StoredFile>

    constructor (storageDir: string, rt: Runtime, existing: map<string, StoredFile>)
      ensures this.storageDir == storageDir && this.rt == rt && files == existing
    {
      this.storageDir := storageDir;
      this.rt := rt;
      files := existing;
    }

    /**
     * `store_product_analysis` at time `now` (as a `%Y%m%d_%H%M%S` stamp, an ISO
     * text and a modification time): the id, or None when the title raised.
     */
    method StoreProductAnalysis(productData: Json, analysis: Json, prefs: Json, stamp: string, isoTime: string, now: int)
      returns (id: Option<string>)
      modifies this
      ensures id == ProductIdOf(productData, stamp, rt.show)
      ensures id.Some? ==> files == old(files)[FileName(id.value) := StoredFile(EntryOf(productData, analysis, isoTime, id.value, prefs), now)]
      ensures id.None? ==> files == old(files)
    {
      id := ProductIdOf(productData, stamp, rt.show);
      if id.None? {
        return;
      }
      var entry := EntryOf(productData, analysis, isoTime, id.value, prefs);
      files := files[FileName(id.value) := StoredFile(entry, now)];
    }

    /** `retrieve_product_analysis`. */
    function RetrieveProductAnalysis(id: string): (r: Option<Json>)
      reads this
      ensures r == RetrieveFrom(files, id)
      ensures FileName(id) !in files ==> r == None
    {
      if FileName(id) in files then Some(files[FileName(id)].content) else None
    }

    /** `os.listdir` filtered to the analysis files, in some order. */
    method ListFiles() returns (order: seq<string>)
      ensures Enumerates(order, files)
    {
      var pool := ListedNames(files);
      order := [];
      while pool != {}
        invariant forall i :: 0 <= i < |order| ==> order[i] in files && Listed(order[i])
        invariant forall n :: n in files && Listed(n) ==> n in order || n in pool
        invariant forall i, j :: 0 <= i < j < |order| ==> order[i] != order[j]
        invariant forall n :: n in pool ==> n in files && Listed(n) && n !in order
        decreases |pool|
      {
        var n :| n in pool;
        order := order + [n];
        pool := pool - {n};
      }
    }

    /** `get_recent_analyses`: the newest `limit` analyses, newest first. */
    method GetRecentAnalyses(limit: int) returns (recent: seq<Json>)
      ensures exists names :: Newest(files, limit, names) && recent == Contents(files, names)
    {
      var listed := ListedNames(files);
      var sorted := NewestFirst(files, listed);
      var recentFiles := sorted[..SliceCount(|sorted|, limit)];
      SortedPrefixNewest(files, limit, sorted, SliceCount(|sorted|, limit));
      recent := [];
      var i := 0;
      while i < |recentFiles|
        invariant 0 <= i <= |recentFiles|
        invariant recent == Contents(files, recentFiles[..i])
      {
        ContentsAppend(files, recentFiles[..i], recentFiles[i]);
        assert recentFiles[..i + 1] == recentFiles[..i] + [recentFiles[i]];
        recent := recent + [files[recentFiles[i]].content];
        i := i + 1;
      }
      assert recentFiles[..i] == recentFiles;
    }

    /** `search_analyses`: every matching analysis once, or [] when an entry raised. */
    method SearchAnalyses(query: string) returns (matches: seq<Json>)
      ensures exists order :: Enumerates(order, files) && matches == SearchResult(files, order, query, rt.show)
    {
      var order := ListFiles();
      var found: seq<string> := [];
      matches := [];
      var i := 0;
      while i < |order|
        invariant 0 <= i <= |order|
        invariant SearchOver(files, order[..i], query, rt.show) == Ok(found)
        invariant forall k :: 0 <= k < |found| ==> found[k] in files
        invariant matches == Contents(files, found)
      {
        assert order[..i + 1][..i] == order[..i];
        var hit := Matches(files[order[i]].content, query, rt.show);
        if hit.Err? {
          SearchLater(files, order, i + 1, query, rt.show);
          return [];
        }
        if hit.value {
          found := found + [order[i]];
          matches := matches + [files[order[i]].content];
        }
        i := i + 1;
      }
      assert order[..|order|] == order;
    }
  }

  /** Once the search over a prefix has failed, it fails over the whole listing. */
  lemma {:induction false} SearchLater(files: map<string, StoredFile>, order: seq<string>, k: nat, query: string, show: Json -> string)
    requires forall i :: 0 <= i < |order| ==> order[i] in files
    requires k <= |order| && SearchOver(files, order[..k], query, show).Err?
    ensures SearchOver(files, order, query, show).Err?
    decreases |order| - k
  {
    if k < |order| {
      assert order[..k + 1][..k] == order[..k];
      SearchLater(files, order, k + 1, query, show);
    } else {
      assert order[..k] == order;
    }
  }
}
