/** The order of the search index: Python's stable `list.sort` with the key
    `(-plugin_manager_users, -github_stars, -vimorg_rating)`, each read with
    `p.get(field, 0)`. Sorting ascending on negated counts puts the most
    popular plugin first. */
module Ranking {
  import opened Values

  const Users := "plugin_manager_users"
  const Stars := "github_stars"
  const Rating := "vimorg_rating"

  /** `-p.get(k, 0)`: a missing field counts as 0; a present value that is not
      an integer cannot be negated. */
  function Negated(p: Record, k: string): (r: Result<int>)
    ensures r.Ok? <==> k !in p || p[k].Int?
    ensures r.Err? ==> r.error == Unsortable
    ensures r.Ok? ==> r.value == -(if k in p then p[k].i else 0)
  {
    if k !in p then Ok(0)
    else match p[k]
      case Int(i) => Ok(-i)
      case _ => Err(Unsortable)
  }

  /** The sort key of one plugin. */
  datatype SortKey = SortKey(users: int, stars: int, rating: int)

  /** The key function of the sort. */
  function KeyOf(p: Record): (r: Result<SortKey>)
    ensures r.Ok? <==> Negated(p, Users).Ok? && Negated(p, Stars).Ok? && Negated(p, Rating).Ok?
    ensures r.Err? ==> r.error == Unsortable
    ensures r.Ok? ==> r.value == SortKey(Negated(p, Users).value, Negated(p, Stars).value, Negated(p, Rating).value)
  {
    match Negated(p, Users)
    case Err(e) => Err(e)
    case Ok(u) =>
      match Negated(p, Stars)
      case Err(e) => Err(e)
      case Ok(s) =>
        match Negated(p, Rating)
        case Err(e) => Err(e)
        case Ok(r) => Ok(SortKey(u, s, r))
  }

  /** Python's `<=` on key tuples: lexicographic. */
  predicate KeyLe(a: SortKey, b: SortKey) {
    a.users < b.users || (a.users == b.users && (a.stars < b.stars || (a.stars == b.stars && a.rating <= b.rating)))
  }

  lemma KeyLeTotal(a: SortKey, b: SortKey)
    ensures KeyLe(a, b) || KeyLe(b, a)
    ensures KeyLe(a, b) && KeyLe(b, a) ==> a == b
  {
  }

  lemma KeyLeTransitive(a: SortKey, b: SortKey, c: SortKey)
    requires KeyLe(a, b) && KeyLe(b, c)
    ensures KeyLe(a, c)
  {
  }

  /** The popularity of a plugin with integer (or missing) counts. */
  function Count(p: Record, k: string): int {
    if k in p && p[k].Int? then p[k].i else 0
  }

  /** `p` ranks at least as high as `q`: more plugin-manager users, or as many
      and more stars, or as many of both and at least the rating. */
  predicate RanksAbove(p: Record, q: Record) {
    Count(p, Users) > Count(q, Users) ||
    (Count(p, Users) == Count(q, Users) &&
      (Count(p, Stars) > Count(q, Stars) ||
       (Count(p, Stars) == Count(q, Stars) && Count(p, Rating) >= Count(q, Rating))))
  }

  /** Ascending on the negated key is descending on the counts. */
  lemma KeyOrderIsPopularity(p: Record, q: Record)
    requires KeyOf(p).Ok? && KeyOf(q).Ok?
    ensures KeyLe(KeyOf(p).value, KeyOf(q).value) <==> RanksAbove(p, q)
  {
  }

  /** A plugin with its sort key, as the sort pairs them. */
  datatype Ranked = Ranked(key: SortKey, plugin: Record)

  predicate Sorted(s: seq<Ranked>) {
    forall i, j :: 0 <= i < j < |s| ==> KeyLe(s[i].key, s[j].key)
  }

  /** Places `x` before the first element whose key is not smaller. */
  function InsertRanked(x: Ranked, s: seq<Ranked>): (r: seq<Ranked>)
    ensures |r| == |s| + 1
    decreases |s|
  {
    if s == [] then [x]
    else if KeyLe(x.key, s[0].key) then [x] + s
    else [s[0]] + InsertRanked(x, s[1..])
  }

  /** Insertion adds exactly the one element. */
  lemma {:induction false} InsertPermutes(x: Ranked, s: seq<Ranked>)
    ensures multiset(InsertRanked(x, s)) == multiset(s) + multiset{x}
    decreases |s|
  {
    if s != [] && !KeyLe(x.key, s[0].key) {
      InsertPermutes(x, s[1..]);
      assert s == [s[0]] + s[1..];
    }
  }

  /** A key no greater than every key of a sorted sequence can lead it. */
  lemma SortedCons(a: Ranked, s: seq<Ranked>)
    requires Sorted(s)
    requires forall i :: 0 <= i < |s| ==> KeyLe(a.key, s[i].key)
    ensures Sorted([a] + s)
  {
    var r := [a] + s;
    forall i, j | 0 <= i < j < |r| ensures KeyLe(r[i].key, r[j].key) {
      if i == 0 {
        assert r[j] == s[j - 1];
      } else {
        assert r[i] == s[i - 1] && r[j] == s[j - 1];
      }
    }
  }

  /** A bound below `x` and below every key of `s` stays below every key
      after inserting `x`. */
  lemma {:induction false} InsertBounded(x: Ranked, s: seq<Ranked>, b: SortKey)
    requires KeyLe(b, x.key)
    requires forall i :: 0 <= i < |s| ==> KeyLe(b, s[i].key)
    ensures forall i :: 0 <= i < |InsertRanked(x, s)| ==> KeyLe(b, InsertRanked(x, s)[i].key)
    decreases |s|
  {
    if s != [] && !KeyLe(x.key, s[0].key) {
      InsertBounded(x, s[1..], b);
      var rest := InsertRanked(x, s[1..]);
      assert InsertRanked(x, s) == [s[0]] + rest;
    }
  }

  /** Inserting into a sorted sequence keeps it sorted. */
  lemma {:induction false} InsertSorted(x: Ranked, s: seq<Ranked>)
    requires Sorted(s)
    ensures Sorted(InsertRanked(x, s))
    decreases |s|
  {
    if s == [] {
    } else if KeyLe(x.key, s[0].key) {
      forall i | 0 <= i < |s| ensures KeyLe(x.key, s[i].key) {
        if i > 0 {
          KeyLeTransitive(x.key, s[0].key, s[i].key);
        }
      }
      SortedCons(x, s);
    } else {
      var tail := s[1..];
      assert Sorted(tail);
      InsertSorted(x, tail);
      KeyLeTotal(x.key, s[0].key);
      assert forall i :: 0 <= i < |tail| ==> KeyLe(s[0].key, tail[i].key);
      InsertBounded(x, tail, s[0].key);
      SortedCons(s[0], InsertRanked(x, tail));
    }
  }

  /** `list.sort(key=...)`: an insertion sort that keeps equal keys in their
      original order. */
  function SortRanked(s: seq<Ranked>): (r: seq<Ranked>)
    ensures |r| == |s|
    decreases |s|
  {
    if s == [] then [] else InsertRanked(s[0], SortRanked(s[1..]))
  }

  /** Sorting rearranges the pairs: none is lost, none is duplicated. */
  lemma {:induction false} SortPermutes(s: seq<Ranked>)
    ensures multiset(SortRanked(s)) == multiset(s)
    decreases |s|
  {
    if s != [] {
      SortPermutes(s[1..]);
      InsertPermutes(s[0], SortRanked(s[1..]));
      assert s == [s[0]] + s[1..];
    }
  }

  /** The sorted pairs are in key order. */
  lemma {:induction false} SortSorted(s: seq<Ranked>)
    ensures Sorted(SortRanked(s))
    decreases |s|
  {
    if s != [] {
      SortSorted(s[1..]);
      InsertSorted(s[0], SortRanked(s[1..]));
    }
  }

  /** The elements of `s` with key `k`, in order. */
  function WithKey(s: seq<Ranked>, k: SortKey): seq<Ranked>
    decreases |s|
  {
    if s == [] then []
    else (if s[0].key == k then [s[0]] else []) + WithKey(s[1..], k)
  }

  lemma {:induction false} WithKeyInsert(x: Ranked, s: seq<Ranked>, k: SortKey)
    ensures WithKey(InsertRanked(x, s), k) == (if x.key == k then [x] else []) + WithKey(s, k)
    decreases |s|
  {
    if s == [] {
    } else if KeyLe(x.key, s[0].key) {
      assert ([x] + s)[1..] == s;
    } else {
      var rest := InsertRanked(x, s[1..]);
      WithKeyInsert(x, s[1..], k);
      assert ([s[0]] + rest)[1..] == rest;
      if x.key == k {
        // Everything before the insertion point has a strictly smaller key.
        assert s[0].key != k;
      }
    }
  }

  /** The sort is stable: the plugins sharing any one key keep their order. */
  lemma {:induction false} SortStable(s: seq<Ranked>, k: SortKey)
    ensures WithKey(SortRanked(s), k) == WithKey(s, k)
    decreases |s|
  {
    if s != [] {
      SortStable(s[1..], k);
      WithKeyInsert(s[0], SortRanked(s[1..]), k);
    }
  }

  /** The plugins of a sequence of pairs, in order. */
  function PluginsOf(s: seq<Ranked>): (r: seq<Record>)
    ensures |r| == |s| && forall i :: 0 <= i < |s| ==> r[i] == s[i].plugin
  {
    seq(|s|, i requires 0 <= i < |s| => s[i].plugin)
  }

  /** The plugins of a pair followed by more pairs. */
  lemma PluginsCons(a: Ranked, s: seq<Ranked>)
    ensures multiset(PluginsOf([a] + s)) == multiset{a.plugin} + multiset(PluginsOf(s))
  {
    assert PluginsOf([a] + s) == [a.plugin] + PluginsOf(s);
  }

  /** Inserting a pair adds its plugin to the plugins. */
  lemma {:induction false} InsertPlugins(x: Ranked, s: seq<Ranked>)
    ensures multiset(PluginsOf(InsertRanked(x, s))) == multiset(PluginsOf(s)) + multiset{x.plugin}
    decreases |s|
  {
    if s == [] || KeyLe(x.key, s[0].key) {
      assert InsertRanked(x, s) == [x] + s;
      PluginsCons(x, s);
    } else {
      var rest := InsertRanked(x, s[1..]);
      assert InsertRanked(x, s) == [s[0]] + rest;
      InsertPlugins(x, s[1..]);
      PluginsCons(s[0], rest);
      PluginsCons(s[0], s[1..]);
      assert [s[0]] + s[1..] == s;
    }
  }

  /** Sorting rearranges the plugins: none is lost, none is duplicated. */
  lemma {:induction false} SortPlugins(s: seq<Ranked>)
    ensures multiset(PluginsOf(SortRanked(s))) == multiset(PluginsOf(s))
    decreases |s|
  {
    if s != [] {
      SortPlugins(s[1..]);
      InsertPlugins(s[0], SortRanked(s[1..]));
      PluginsCons(s[0], s[1..]);
      assert [s[0]] + s[1..] == s;
    }
  }

  /** Every pair carries its own plugin's key. */
  predicate WellKeyed(s: seq<Ranked>) {
    forall i :: 0 <= i < |s| ==> KeyOf(s[i].plugin) == Ok(s[i].key)
  }

  /** Sorting keeps every pair's key its plugin's key. */
  lemma SortWellKeyed(s: seq<Ranked>)
    requires WellKeyed(s)
    ensures WellKeyed(SortRanked(s))
  {
    var r := SortRanked(s);
    SortPermutes(s);
    forall i | 0 <= i < |r| ensures KeyOf(r[i].plugin) == Ok(r[i].key) {
      assert r[i] in multiset(s);
    }
  }

  /** The plugins of `ps` whose key is `k`, in order. */
  function RecordsWithKey(ps: seq<Record>, k: SortKey): seq<Record>
    decreases |ps|
  {
    if ps == [] then []
    else (if KeyOf(ps[0]) == Ok(k) then [ps[0]] else []) + RecordsWithKey(ps[1..], k)
  }

  lemma {:induction false} RecordsWithKeyOfPairs(s: seq<Ranked>, k: SortKey)
    requires WellKeyed(s)
    ensures RecordsWithKey(PluginsOf(s), k) == PluginsOf(WithKey(s, k))
    decreases |s|
  {
    if s != [] {
      assert PluginsOf(s)[1..] == PluginsOf(s[1..]);
      RecordsWithKeyOfPairs(s[1..], k);
      var head := if s[0].key == k then [s[0]] else [];
      assert PluginsOf(head + WithKey(s[1..], k)) == PluginsOf(head) + PluginsOf(WithKey(s[1..], k));
    }
  }
}
