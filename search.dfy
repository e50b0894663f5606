/** The in-memory search index (`get_search_index`): every plugin projected
    to the fields search needs, ordered by popularity, each with the set of
    lower-cased keywords `_get_search_tokens_for_plugin` extracts. */
module Search {
  import opened Values
  import opened Text
  import opened Ranking

  /** The fields keywords are drawn from. */
  const SearchFields: seq<string> := ["name", "tags", "author", "vimorg_short_desc", "github_short_desc"]

  /** The tokens of one field value: a string is split on whitespace, a list
      is taken as it is, None gives nothing and anything else cannot be
      tokenized. */
  function FieldTokens(v: Val): (r: Result<seq<string>>)
    ensures r.Err? <==> v.Int?
  {
    match v
    case Str(s) => Ok(Split(s))
    case List(xs) => Ok(xs)
    case None => Ok([])
    case Int(_) => Err(Untokenizable)
  }

  /** Every search field the plugin carries can be tokenized. */
  predicate Tokenizable(p: Record) {
    forall f :: f in SearchFields && f in p ==> FieldTokens(p[f]).Ok?
  }

  /** The keywords of a plugin: the lower-cased tokens of all its present
      search fields, as a set; a present field that cannot be tokenized is
      an error. */
  function Tokens(p: Record): (r: Result<set<string>>)
    ensures r.Err? <==> exists f :: f in SearchFields && f in p && p[f].Int?
    ensures r.Err? ==> r.error == Untokenizable
  {
    if Tokenizable(p) then
      Ok(set f, w | f in SearchFields && f in p && FieldTokens(p[f]).Ok? && w in FieldTokens(p[f]).value :: Lower(w))
    else Err(Untokenizable)
  }

  /** `_get_search_tokens_for_plugin`: walks the search fields, skipping
      absent ones, and accumulates the lower-cased tokens of each. */
  method SearchTokens(p: Record) returns (r: Result<set<string>>)
    ensures r == Tokens(p)
  {
    var tokens: set<string> := {};
    for i := 0 to |SearchFields|
      invariant forall j :: 0 <= j < i && SearchFields[j] in p ==> FieldTokens(p[SearchFields[j]]).Ok?
      invariant tokens == set f, w | f in SearchFields[..i] && f in p && FieldTokens(p[f]).Ok? && w in FieldTokens(p[f]).value :: Lower(w)
    {
      var field := SearchFields[i];
      assert SearchFields[..i + 1] == SearchFields[..i] + [field];
      if field !in p {
        continue;
      }
      var tokensList: seq<string>;
      match p[field] {
        case Str(s) => tokensList := Split(s);
        case List(xs) => tokensList := xs;
        case None => tokensList := [];
        case Int(_) => return Err(Untokenizable);
      }
      tokens := tokens + set t | t in tokensList :: Lower(t);
    }
    assert SearchFields[..|SearchFields|] == SearchFields;
    return Ok(tokens);
  }

  /** Every keyword is already lower-case. */
  lemma TokensAreLower(p: Record)
    requires Tokens(p).Ok?
    ensures forall t :: t in Tokens(p).value ==> Lower(t) == t
  {
    forall t | t in Tokens(p).value ensures Lower(t) == t {
      var f, w :| f in SearchFields && f in p && FieldTokens(p[f]).Ok? && w in FieldTokens(p[f]).value && t == Lower(w);
      LowerIdempotent(w);
    }
  }

  /** The lower-cased forms of some words, as a set. */
  function LowerAll(ws: seq<string>): (r: set<string>)
    ensures forall t :: t in r <==> exists i :: 0 <= i < |ws| && t == Lower(ws[i])
  {
    set w | w in ws :: Lower(w)
  }

  /** A record holding only a name and tags has as keywords the lower-cased
      tokens of the two. */
  lemma TokensOfNameAndTagsFields(p: Record, ns: seq<string>, ts: seq<string>)
    requires p.Keys == {SearchFields[0], SearchFields[1]}
    requires FieldTokens(p[SearchFields[0]]) == Ok(ns) && FieldTokens(p[SearchFields[1]]) == Ok(ts)
    ensures Tokens(p) == Ok(LowerAll(ns) + LowerAll(ts))
  {
    assert Tokenizable(p);
    var r := Tokens(p).value;
    forall t | t in r ensures t in LowerAll(ns) + LowerAll(ts) {
      var f, w :| f in SearchFields && f in p && FieldTokens(p[f]).Ok? && w in FieldTokens(p[f]).value && t == Lower(w);
      if f == SearchFields[0] {
        assert w in ns;
      } else {
        assert w in ts;
      }
    }
    forall t | t in LowerAll(ns) + LowerAll(ts) ensures t in r {
      if t in LowerAll(ns) {
        var i :| 0 <= i < |ns| && t == Lower(ns[i]);
        assert ns[i] in FieldTokens(p[SearchFields[0]]).value;
      } else {
        var i :| 0 <= i < |ts| && t == Lower(ts[i]);
        assert ts[i] in FieldTokens(p[SearchFields[1]]).value;
      }
    }
    assert r == LowerAll(ns) + LowerAll(ts);
  }

  /** A record whose name is two words and which carries two tags has exactly
      those four tokens, lower-cased, as keywords; duplicates collapse. */
  lemma TokensOfNameAndTags(a: string, b: string, t1: string, t2: string)
    requires a != [] && b != [] && NoSpace(a) && NoSpace(b)
    ensures Tokens(map["name" := Str(a + " " + b), "tags" := List([t1, t2])])
         == Ok({Lower(a), Lower(b), Lower(t1), Lower(t2)})
  {
    var p := map["name" := Str(a + " " + b), "tags" := List([t1, t2])];
    SplitTwoWords(a, b);
    NameAndTagsKeys(p);
    TokensOfNameAndTagsFields(p, [a, b], [t1, t2]);
    LowerAllTwo(a, b);
    LowerAllTwo(t1, t2);
    assert {Lower(a), Lower(b)} + {Lower(t1), Lower(t2)} == {Lower(a), Lower(b), Lower(t1), Lower(t2)};
  }

  /** The keys of a record holding a name and tags. */
  lemma NameAndTagsKeys(p: map<string, Val>)
    requires p.Keys == {"name", "tags"}
    ensures p.Keys == {SearchFields[0], SearchFields[1]}
  {
  }

  lemma LowerAllTwo(a: string, b: string)
    ensures LowerAll([a, b]) == {Lower(a), Lower(b)}
  {
  }

  /** The lower-cased forms of the example's words. */
  lemma LowerExample()
    ensures Lower("Foo") == "foo" && Lower("Bar") == "bar"
    ensures Lower("autocomplete") == "autocomplete" && Lower("C/C++") == "c/c++"
  {
  }

  /** The words of the example contain no whitespace. */
  lemma NoSpaceExample()
    ensures NoSpace("Foo") && NoSpace("Bar")
  {
  }

  /** The keywords of a record named "Foo Bar" tagged autocomplete and C/C++. */
  lemma TokensExample()
    ensures Tokens(map["name" := Str("Foo Bar"), "tags" := List(["autocomplete", "C/C++"])])
         == Ok({"foo", "bar", "autocomplete", "c/c++"})
  {
    assert "Foo" + " " + "Bar" == "Foo Bar";
    NoSpaceExample();
    TokensOfNameAndTags("Foo", "Bar", "autocomplete", "C/C++");
    LowerExample();
  }

  /** A plugin carrying none of the search fields has no keywords. */
  lemma TokensWithoutSearchFields(p: Record)
    requires forall i :: 0 <= i < |SearchFields| ==> SearchFields[i] !in p
    ensures Tokens(p) == Ok({})
  {
    assert forall f :: f in SearchFields ==> f !in p;
    assert Tokens(p).value == {};
  }

  /** The fields the index keeps of each plugin. */
  const PluckFields: set<string> := {
    "id", "name", "created_at", "updated_at", "tags", "homepage", "author", "vimorg_id",
    "vimorg_rating", "vimorg_short_desc", "github_stars", "github_url", "github_short_desc",
    "plugin_manager_users"}

  /** `pluck(fields)`: the listed fields the document has, unchanged. */
  function Pluck(p: Record): (r: Record)
    ensures forall k :: k in r <==> k in p && k in PluckFields
    ensures forall k :: k in r ==> r[k] == p[k]
  {
    map k | k in p && k in PluckFields :: p[k]
  }

  /** Plucking keeps a document that holds only listed fields whole. */
  lemma PluckKeeps(p: Record)
    requires p.Keys <= PluckFields
    ensures Pluck(p) == p
  {
  }

  /** One plugin of the index with its keywords (`plugin['keywords']`). */
  datatype SearchEntry = SearchEntry(fields: Record, keywords: set<string>)

  function PluckAll(ps: seq<Record>): (r: seq<Record>)
    ensures |r| == |ps| && forall i :: 0 <= i < |ps| ==> r[i] == Pluck(ps[i])
  {
    seq(|ps|, i requires 0 <= i < |ps| => Pluck(ps[i]))
  }

  function KeysOf(ps: seq<Record>): (r: seq<Result<SortKey>>)
    ensures |r| == |ps| && forall i :: 0 <= i < |ps| ==> r[i] == KeyOf(ps[i])
  {
    seq(|ps|, i requires 0 <= i < |ps| => KeyOf(ps[i]))
  }

  /** Each plugin paired with its key, as the sort decorates them. */
  function Decorate(keys: seq<SortKey>, ps: seq<Record>): (r: seq<Ranked>)
    requires |keys| == |ps|
    ensures |r| == |ps| && forall i :: 0 <= i < |ps| ==> r[i] == Ranked(keys[i], ps[i])
  {
    seq(|ps|, i requires 0 <= i < |ps| => Ranked(keys[i], ps[i]))
  }

  function TokensOf(s: seq<Ranked>): (r: seq<Result<set<string>>>)
    ensures |r| == |s| && forall i :: 0 <= i < |s| ==> r[i] == Tokens(s[i].plugin)
  {
    seq(|s|, i requires 0 <= i < |s| => Tokens(s[i].plugin))
  }

  function Entries(s: seq<Ranked>, toks: seq<set<string>>): (r: seq<SearchEntry>)
    requires |toks| == |s|
    ensures |r| == |s| && forall i :: 0 <= i < |s| ==> r[i] == SearchEntry(s[i].plugin, toks[i])
  {
    seq(|s|, i requires 0 <= i < |s| => SearchEntry(s[i].plugin, toks[i]))
  }

  /** What `get_search_index` returns for the plugins of the table: pluck,
      sort by key (any key that cannot be computed fails the sort), then
      attach each plugin's keywords (any untokenizable plugin fails). */
  function SearchIndex(plugins: seq<Record>): (r: Result<seq<SearchEntry>>)
    ensures r.Ok? ==> |r.value| == |plugins|
    ensures r.Err? ==> r.error == Unsortable || r.error == Untokenizable
  {
    var plucked := PluckAll(plugins);
    match Collect(KeysOf(plucked))
    case Err(e) => Err(e)
    case Ok(keys) =>
      var sorted := SortRanked(Decorate(keys, plucked));
      match Collect(TokensOf(sorted))
      case Err(e) => Err(e)
      case Ok(toks) => Ok(Entries(sorted, toks))
  }

  /** `get_search_index`: sorts the plucked plugins, then walks them attaching
      keywords. */
  method GetSearchIndex(plugins: seq<Record>) returns (r: Result<seq<SearchEntry>>)
    ensures r == SearchIndex(plugins)
  {
    var plucked := PluckAll(plugins);
    var keys := Collect(KeysOf(plucked));
    if keys.Err? {
      return Err(keys.error);
    }
    var sorted := SortRanked(Decorate(keys.value, plucked));
    var entries: seq<SearchEntry> := [];
    for i := 0 to |sorted|
      invariant |entries| == i
      invariant forall j :: 0 <= j < i ==>
        Tokens(sorted[j].plugin).Ok? && entries[j] == SearchEntry(sorted[j].plugin, Tokens(sorted[j].plugin).value)
    {
      var tokens := SearchTokens(sorted[i].plugin);
      if tokens.Err? {
        assert TokensOf(sorted)[i].Err?;
        return Err(tokens.error);
      }
      entries := entries + [SearchEntry(sorted[i].plugin, tokens.value)];
    }
    ghost var all := Collect(TokensOf(sorted));
    assert all.Ok?;
    assert Entries(sorted, all.value) == entries;
    return Ok(entries);
  }

  /** The plugin records of the index, in index order. */
  function FieldsOf(es: seq<SearchEntry>): (r: seq<Record>)
    ensures |r| == |es| && forall i :: 0 <= i < |es| ==> r[i] == es[i].fields
  {
    seq(|es|, i requires 0 <= i < |es| => es[i].fields)
  }

  /** The decorated, sorted pairs the index is built from: each pair carries
      its plugin's key, the pairs are in key order, and their plugins are the
      plucked plugins rearranged. */
  lemma SortedPairs(plugins: seq<Record>, keys: seq<SortKey>)
    requires Collect(KeysOf(PluckAll(plugins))) == Ok(keys)
    ensures |keys| == |plugins|
    ensures WellKeyed(SortRanked(Decorate(keys, PluckAll(plugins))))
    ensures Sorted(SortRanked(Decorate(keys, PluckAll(plugins))))
    ensures multiset(PluginsOf(SortRanked(Decorate(keys, PluckAll(plugins))))) == multiset(PluckAll(plugins))
    ensures forall k :: WithKey(SortRanked(Decorate(keys, PluckAll(plugins))), k) == WithKey(Decorate(keys, PluckAll(plugins)), k)
  {
    var plucked := PluckAll(plugins);
    var dec := Decorate(keys, plucked);
    assert WellKeyed(dec);
    SortWellKeyed(dec);
    SortSorted(dec);
    SortPlugins(dec);
    assert PluginsOf(dec) == plucked;
    forall k ensures WithKey(SortRanked(dec), k) == WithKey(dec, k) {
      SortStable(dec, k);
    }
  }

  /** The index lists the most popular plugins first: more plugin-manager
      users, then more GitHub stars, then a higher vim.org rating. */
  lemma SearchIndexOrdered(plugins: seq<Record>, es: seq<SearchEntry>)
    requires SearchIndex(plugins) == Ok(es)
    ensures forall i, j :: 0 <= i < j < |es| ==> RanksAbove(es[i].fields, es[j].fields)
  {
    var plucked := PluckAll(plugins);
    var keys := Collect(KeysOf(plucked)).value;
    var sorted := SortRanked(Decorate(keys, plucked));
    SortedPairs(plugins, keys);
    forall i, j | 0 <= i < j < |es| ensures RanksAbove(es[i].fields, es[j].fields) {
      assert es[i].fields == sorted[i].plugin && es[j].fields == sorted[j].plugin;
      KeyOrderIsPopularity(sorted[i].plugin, sorted[j].plugin);
    }
  }

  /** The index holds every plucked plugin exactly as often as the table
      does. */
  lemma SearchIndexPermutation(plugins: seq<Record>, es: seq<SearchEntry>)
    requires SearchIndex(plugins) == Ok(es)
    ensures multiset(FieldsOf(es)) == multiset(PluckAll(plugins))
  {
    var plucked := PluckAll(plugins);
    var keys := Collect(KeysOf(plucked)).value;
    var sorted := SortRanked(Decorate(keys, plucked));
    SortedPairs(plugins, keys);
    assert FieldsOf(es) == PluginsOf(sorted);
  }

  /** The sort is stable: plugins that tie on all three counts keep the order
      the table returned them in. */
  lemma SearchIndexStable(plugins: seq<Record>, es: seq<SearchEntry>, k: SortKey)
    requires SearchIndex(plugins) == Ok(es)
    ensures RecordsWithKey(FieldsOf(es), k) == RecordsWithKey(PluckAll(plugins), k)
  {
    var plucked := PluckAll(plugins);
    var keys := Collect(KeysOf(plucked)).value;
    var dec := Decorate(keys, plucked);
    var sorted := SortRanked(dec);
    SortedPairs(plugins, keys);
    assert FieldsOf(es) == PluginsOf(sorted);
    assert WellKeyed(dec);
    assert PluginsOf(dec) == plucked;
    RecordsWithKeyOfPairs(sorted, k);
    RecordsWithKeyOfPairs(dec, k);
  }

  /** Every entry's keywords are its plugin's tokens. */
  lemma SearchIndexKeywords(plugins: seq<Record>, es: seq<SearchEntry>)
    requires SearchIndex(plugins) == Ok(es)
    ensures forall i :: 0 <= i < |es| ==> Tokens(es[i].fields) == Ok(es[i].keywords)
  {
  }

  /** Keying the plucked plugins fails, as unsortable, exactly when some
      plugin's key cannot be computed. */
  lemma KeysFail(plugins: seq<Record>)
    ensures Collect(KeysOf(PluckAll(plugins))).Err? <==>
      exists i :: 0 <= i < |plugins| && KeyOf(Pluck(plugins[i])).Err?
    ensures Collect(KeysOf(PluckAll(plugins))).Err? ==> Collect(KeysOf(PluckAll(plugins))).error == Unsortable
  {
    var ks := KeysOf(PluckAll(plugins));
    assert forall i :: 0 <= i < |plugins| ==> ks[i] == KeyOf(Pluck(plugins[i]));
  }

  /** Rearranging the plugins does not change whether one of them is untokenizable. */
  lemma TokensFailPermuted(s: seq<Ranked>, ps: seq<Record>)
    requires multiset(PluginsOf(s)) == multiset(ps)
    ensures (exists i :: 0 <= i < |s| && Tokens(s[i].plugin).Err?) <==>
            (exists j :: 0 <= j < |ps| && Tokens(ps[j]).Err?)
  {
    if i :| 0 <= i < |s| && Tokens(s[i].plugin).Err? {
      assert PluginsOf(s)[i] in multiset(ps);
      var j :| 0 <= j < |ps| && ps[j] == PluginsOf(s)[i];
    }
    if j :| 0 <= j < |ps| && Tokens(ps[j]).Err? {
      assert ps[j] in multiset(PluginsOf(s));
      var i :| 0 <= i < |s| && PluginsOf(s)[i] == ps[j];
    }
  }

  /** The index fails exactly when some plugin has a count that is not an
      integer (the sort fails) or, failing that, some plugin has a search
      field that cannot be tokenized. */
  lemma SearchIndexErrors(plugins: seq<Record>)
    ensures SearchIndex(plugins).Err? <==>
      (exists i :: 0 <= i < |plugins| && KeyOf(Pluck(plugins[i])).Err?) ||
      (exists i :: 0 <= i < |plugins| && Tokens(Pluck(plugins[i])).Err?)
    ensures (exists i :: 0 <= i < |plugins| && KeyOf(Pluck(plugins[i])).Err?) ==>
      SearchIndex(plugins) == Err(Unsortable)
    ensures SearchIndex(plugins).Err? ==> SearchIndex(plugins).error in {Unsortable, Untokenizable}
  {
    var plucked := PluckAll(plugins);
    KeysFail(plugins);
    var ks := Collect(KeysOf(plucked));
    if ks.Ok? {
      var dec := Decorate(ks.value, plucked);
      var sorted := SortRanked(dec);
      SortPlugins(dec);
      assert PluginsOf(dec) == plucked;
      TokensFailPermuted(sorted, plucked);
      var tks := TokensOf(sorted);
      assert forall i :: 0 <= i < |sorted| ==> tks[i] == Tokens(sorted[i].plugin);
      assert forall j :: 0 <= j < |plugins| ==> plucked[j] == Pluck(plugins[j]);
      assert SearchIndex(plugins).Err? <==> Collect(tks).Err?;
    } else {
      assert SearchIndex(plugins) == Err(ks.error);
    }
  }

  /** Sorting three pairs whose keys put the second first. */
  lemma SortThree(r0: Ranked, r1: Ranked, r2: Ranked)
    requires KeyLe(r1.key, r2.key) && KeyLe(r0.key, r2.key) && !KeyLe(r0.key, r1.key)
    ensures SortRanked([r0, r1, r2]) == [r1, r0, r2]
  {
    assert [r2][1..] == [];
    assert SortRanked([r2]) == InsertRanked(r2, []) == [r2];
    assert [r1, r2][1..] == [r2];
    assert SortRanked([r1, r2]) == InsertRanked(r1, [r2]) == [r1, r2];
    assert [r0, r1, r2][1..] == [r1, r2];
    assert InsertRanked(r0, [r2]) == [r0, r2];
    assert [r1, r2][1..] == [r2];
    assert InsertRanked(r0, [r1, r2]) == [r1] + [r0, r2];
  }

  /** The keys of three plugins the index keeps whole. */
  lemma KeysOfThree(p0: Record, p1: Record, p2: Record, k0: SortKey, k1: SortKey, k2: SortKey)
    requires Pluck(p0) == p0 && Pluck(p1) == p1 && Pluck(p2) == p2
    requires KeyOf(p0) == Ok(k0) && KeyOf(p1) == Ok(k1) && KeyOf(p2) == Ok(k2)
    ensures PluckAll([p0, p1, p2]) == [p0, p1, p2]
    ensures Collect(KeysOf([p0, p1, p2])) == Ok([k0, k1, k2])
  {
    var ps := [p0, p1, p2];
    var ks := KeysOf(ps);
    assert ks[0] == Ok(k0) && ks[1] == Ok(k1) && ks[2] == Ok(k2);
    CollectOk(ks, [k0, k1, k2]);
    var pl := PluckAll(ps);
    assert pl[0] == p0 && pl[1] == p1 && pl[2] == p2;
    assert pl == ps;
  }

  /** Decorating and sorting three plugins whose keys put the second first. */
  lemma SortedOfThree(p0: Record, p1: Record, p2: Record, k0: SortKey, k1: SortKey, k2: SortKey)
    requires KeyLe(k1, k2) && KeyLe(k0, k2) && !KeyLe(k0, k1)
    ensures SortRanked(Decorate([k0, k1, k2], [p0, p1, p2])) == [Ranked(k1, p1), Ranked(k0, p0), Ranked(k2, p2)]
  {
    var dec := Decorate([k0, k1, k2], [p0, p1, p2]);
    assert dec == [Ranked(k0, p0), Ranked(k1, p1), Ranked(k2, p2)];
    SortThree(Ranked(k0, p0), Ranked(k1, p1), Ranked(k2, p2));
  }

  /** The records of the entries are the plugins of the pairs. */
  lemma FieldsOfEntries(s: seq<Ranked>, toks: seq<set<string>>)
    requires |toks| == |s|
    ensures FieldsOf(Entries(s, toks)) == PluginsOf(s)
  {
  }

  lemma PluginsOfThree(r0: Ranked, r1: Ranked, r2: Ranked)
    ensures PluginsOf([r0, r1, r2]) == [r0.plugin, r1.plugin, r2.plugin]
  {
  }

  /** The index in terms of its three stages. */
  lemma SearchIndexStages(plugins: seq<Record>, keys: seq<SortKey>, sorted: seq<Ranked>, toks: seq<set<string>>)
    requires Collect(KeysOf(PluckAll(plugins))) == Ok(keys)
    requires |keys| == |plugins| && SortRanked(Decorate(keys, PluckAll(plugins))) == sorted
    requires Collect(TokensOf(sorted)) == Ok(toks)
    ensures SearchIndex(plugins) == Ok(Entries(sorted, toks))
  {
  }

  /** Three plugins the index keeps whole and whose search fields can be
      tokenized: when the second outranks the first and both outrank the
      third, the index lists the second, the first, the third. */
  lemma IndexOfThree(p0: Record, p1: Record, p2: Record, k0: SortKey, k1: SortKey, k2: SortKey,
                     t0: set<string>, t1: set<string>, t2: set<string>)
    requires Pluck(p0) == p0 && Pluck(p1) == p1 && Pluck(p2) == p2
    requires KeyOf(p0) == Ok(k0) && KeyOf(p1) == Ok(k1) && KeyOf(p2) == Ok(k2)
    requires KeyLe(k1, k2) && KeyLe(k0, k2) && !KeyLe(k0, k1)
    requires Tokens(p0) == Ok(t0) && Tokens(p1) == Ok(t1) && Tokens(p2) == Ok(t2)
    ensures SearchIndex([p0, p1, p2]).Ok?
    ensures FieldsOf(SearchIndex([p0, p1, p2]).value) == [p1, p0, p2]
  {
    KeysOfThree(p0, p1, p2, k0, k1, k2);
    SortedOfThree(p0, p1, p2, k0, k1, k2);
    var sorted := [Ranked(k1, p1), Ranked(k0, p0), Ranked(k2, p2)];
    var ts := TokensOf(sorted);
    var toks := [t1, t0, t2];
    assert ts[0] == Ok(toks[0]) && ts[1] == Ok(toks[1]) && ts[2] == Ok(toks[2]);
    CollectOk(ts, toks);
    SearchIndexStages([p0, p1, p2], [k0, k1, k2], sorted, toks);
    FieldsOfEntries(sorted, toks);
    PluginsOfThree(Ranked(k1, p1), Ranked(k0, p0), Ranked(k2, p2));
  }

  /** Three plugins: the one with the most plugin-manager users comes first,
      and of the two that tie on users the one with more stars leads. */
  lemma RankingExample()
    ensures SearchIndex([
      map[Users := Int(5), Stars := Int(2)],
      map[Users := Int(5), Stars := Int(9)],
      map[Users := Int(1), Stars := Int(100)]]).Ok?
    ensures FieldsOf(SearchIndex([
      map[Users := Int(5), Stars := Int(2)],
      map[Users := Int(5), Stars := Int(9)],
      map[Users := Int(1), Stars := Int(100)]]).value) == [
      map[Users := Int(5), Stars := Int(9)],
      map[Users := Int(5), Stars := Int(2)],
      map[Users := Int(1), Stars := Int(100)]]
  {
    var p0 := map[Users := Int(5), Stars := Int(2)];
    var p1 := map[Users := Int(5), Stars := Int(9)];
    var p2 := map[Users := Int(1), Stars := Int(100)];
    assert Users in PluckFields && Stars in PluckFields;
    PluckKeeps(p0);
    PluckKeeps(p1);
    PluckKeeps(p2);
    assert forall i :: 0 <= i < |SearchFields| ==> SearchFields[i] != Users && SearchFields[i] != Stars;
    TokensWithoutSearchFields(p0);
    TokensWithoutSearchFields(p1);
    TokensWithoutSearchFields(p2);
    IndexOfThree(p0, p1, p2, SortKey(-5, -2, 0), SortKey(-5, -9, 0), SortKey(-1, -100, 0), {}, {}, {});
  }
}
