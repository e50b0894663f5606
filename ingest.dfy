/** Writing plugins into the `plugins` table: schema normalisation and slug
    assignment on insert (`insert`), matching scraped data against stored
    plugins (`_find_matching_vimorg_plugins`) and the three-way ingestion
    dispatch (`add_scraped_data`). The RethinkDB table is a map from primary
    key (the slug value) to document. */
module Ingest {
  import opened Values
  import opened Merge
  import opened Slugs

  /** `_ROW_SCHEMA` as (field, default) pairs in declaration order, without
      `slug`: its placeholder is always overridden, since every row receives a
      slug before the schema is applied. Defaults are [] for tags, None for
      vimorg_id, 0 for counts and timestamps and "" for text. */
  const SchemaEntries: seq<(string, Val)> := [
    ("normalized_name", Str("")), ("tags", List([])), ("created_at", Int(0)), ("updated_at", Int(0)),
    ("vimorg_id", None), ("vimorg_name", Str("")), ("vimorg_author", Str("")), ("vimorg_url", Str("")),
    ("vimorg_type", Str("")), ("vimorg_rating", Int(0)), ("vimorg_num_raters", Int(0)),
    ("vimorg_downloads", Int(0)), ("vimorg_short_desc", Str("")), ("vimorg_long_desc", Str("")),
    ("vimorg_install_details", Str("")),
    ("github_owner", Str("")), ("github_repo_name", Str("")), ("github_stars", Int(0)),
    ("github_short_desc", Str("")), ("github_homepage", Str("")), ("github_readme", Str("")),
    ("github_vim_scripts_repo_name", Str("")), ("github_vim_scripts_stars", Int(0)),
    ("github_bundles", Int(0)), ("github_vim_scripts_bundles", Int(0))]


  const Slug := "slug"
  const NormalizedName := "normalized_name"
  const VimorgId := "vimorg_id"

  /** The stand-in normalized name `insert` writes when none is given. */
  const PlaceholderName := "meredith grey swift"

  /** The table: primary key (a slug value) to document. */
  type Table = map<Val, Record>

  /** Every document is stored under its own slug. */
  ghost predicate Keyed(t: Table) {
    forall k :: k in t ==> Get(t[k], Slug) == k
  }

  /** The slugs `_slug_taken` reports as used: the string keys of the table. */
  function TakenSlugs(t: Table): (s: set<string>)
    ensures forall x :: x in s <==> Str(x) in t
  {
    set k | k in t && k.Str? :: k.s
  }

  /** The slug step of `insert`: a plugin without a truthy slug gets a
      generated one; generation may fail. */
  function AssignSlug(p: Record, slugify: string -> string, taken: set<string>, order: seq<string>): (r: Result<Record>)
    ensures r.Err? <==> !Truthy(Get(p, Slug)) && UniqueSlug(p, slugify, taken, order).Err?
    ensures r.Err? ==> r.error == UniqueSlug(p, slugify, taken, order).error
    ensures r.Ok? && Truthy(Get(p, Slug)) ==> r.value == p
    ensures r.Ok? && !Truthy(Get(p, Slug)) ==>
      UniqueSlug(p, slugify, taken, order).Ok? && r.value == p[Slug := Str(UniqueSlug(p, slugify, taken, order).value)]
  {
    if Truthy(Get(p, Slug)) then Ok(p)
    else match UniqueSlug(p, slugify, taken, order)
      case Err(e) => Err(e)
      case Ok(s) => Ok(p[Slug := Str(s)])
  }

  /** The name step of `insert`: a falsy normalized name becomes the placeholder. */
  function NameDefault(q: Record): (r: Record)
    ensures r.Keys == q.Keys + {NormalizedName}
    ensures forall k :: k in q && k != NormalizedName ==> r[k] == q[k]
    ensures Truthy(Get(q, NormalizedName)) ==> r == q
    ensures !Truthy(Get(q, NormalizedName)) ==> r[NormalizedName] == Str(PlaceholderName)
  {
    if Truthy(Get(q, NormalizedName)) then q else q[NormalizedName := Str(PlaceholderName)]
  }

  /** `dict(schema, **q)` for a schema given as (field, default) pairs: `q`
      laid over the defaults of the fields it lacks. */
  function ApplyDefaults(entries: seq<(string, Val)>, q: Record): (r: Record)
    ensures forall k :: k in r <==> k in q || exists i :: 0 <= i < |entries| && entries[i].0 == k
    ensures forall k :: k in q ==> r[k] == q[k]
    ensures forall k :: k in r && k !in q ==> (k, r[k]) in entries
    decreases |entries|
  {
    if entries == [] then q
    else
      var n := |entries| - 1;
      var below := ApplyDefaults(entries[..n], q);
      assert forall i :: 0 <= i < n ==> entries[..n][i] == entries[i];
      if entries[n].0 in q then below else below[entries[n].0 := entries[n].1]
  }

  /** `dict(_ROW_SCHEMA, **q)`: every schema field is present, the plugin's
      own values win and the schema's defaults fill the gaps. */
  function ApplySchema(q: Record): (r: Record)
    ensures forall i :: 0 <= i < |SchemaEntries| ==> SchemaEntries[i].0 in r
    ensures forall k :: k in q ==> k in r && r[k] == q[k]
    ensures forall k :: k in r && k !in q ==> (k, r[k]) in SchemaEntries
  {
    ApplyDefaults(SchemaEntries, q)
  }

  /** The row `insert` builds for one plugin: slug, then name, then schema. */
  function Prepare(p: Record, slugify: string -> string, taken: set<string>, order: seq<string>): (r: Result<Record>)
    ensures r.Err? <==> !Truthy(Get(p, Slug)) && UniqueSlug(p, slugify, taken, order).Err?
    ensures r.Err? ==> r.error == UniqueSlug(p, slugify, taken, order).error
  {
    match AssignSlug(p, slugify, taken, order)
    case Err(e) => Err(e)
    case Ok(q) => Ok(ApplySchema(NameDefault(q)))
  }

  /** What a built row holds: every schema field and a slug; the plugin's
      own fields other than slug and normalized name unchanged; defaults for
      the schema fields it lacks; its truthy slug kept or else a fresh
      generated one; its truthy normalized name kept or else the placeholder. */
  lemma PrepareFields(p: Record, slugify: string -> string, taken: set<string>, order: seq<string>, row: Record)
    requires Prepare(p, slugify, taken, order) == Ok(row)
    ensures forall i :: 0 <= i < |SchemaEntries| ==> SchemaEntries[i].0 in row
    ensures Slug in row && NormalizedName in row
    ensures forall k :: k in p && k != Slug && k != NormalizedName ==> k in row && row[k] == p[k]
    ensures forall k :: k in row && k !in p && k != Slug && k != NormalizedName ==> (k, row[k]) in SchemaEntries
    ensures Truthy(Get(p, Slug)) ==> row[Slug] == p[Slug]
    ensures !Truthy(Get(p, Slug)) ==>
      row[Slug].Str? && row[Slug].s !in taken && UniqueSlug(p, slugify, taken, order) == Ok(row[Slug].s)
    ensures Truthy(Get(p, NormalizedName)) ==> row[NormalizedName] == p[NormalizedName]
    ensures !Truthy(Get(p, NormalizedName)) ==> row[NormalizedName] == Str(PlaceholderName)
  {
    var q := AssignSlug(p, slugify, taken, order).value;
    assert Slug in q && q[Slug] == Get(q, Slug);
    assert forall k :: k in p && k != Slug ==> k in q && q[k] == p[k];
    var named := NameDefault(q);
    assert row == ApplySchema(named);
    assert Get(q, NormalizedName) == Get(p, NormalizedName);
    assert Slug in named && named[Slug] == q[Slug];
    forall k | k in row && k !in p && k != Slug && k != NormalizedName
      ensures (k, row[k]) in SchemaEntries
    {
      assert k !in q;
      assert k !in named;
    }
    UniqueSlugIsFresh(p, slugify, taken, order);
  }

  /** The row for each plugin of a batch, each built against the same set of taken slugs. */
  function PrepareEach(ps: seq<Record>, slugify: string -> string, taken: set<string>, orders: seq<seq<string>>)
    : (rs: seq<Result<Record>>)
    requires |orders| == |ps|
    ensures |rs| == |ps| && forall i :: 0 <= i < |ps| ==> rs[i] == Prepare(ps[i], slugify, taken, orders[i])
  {
    seq(|ps|, i requires 0 <= i < |ps| => Prepare(ps[i], slugify, taken, orders[i]))
  }

  /** The rows `insert` builds for a list of plugins, or the first failure.
      Every slug check sees the table as it was before the call. */
  function PrepareAll(ps: seq<Record>, slugify: string -> string, taken: set<string>, orders: seq<seq<string>>)
    : (r: Result<seq<Record>>)
    requires |orders| == |ps|
    ensures r.Ok? <==> forall i :: 0 <= i < |ps| ==> Prepare(ps[i], slugify, taken, orders[i]).Ok?
    ensures r.Ok? ==> (|r.value| == |ps| &&
      forall i :: 0 <= i < |ps| ==> Prepare(ps[i], slugify, taken, orders[i]) == Ok(r.value[i]))
  {
    Collect(PrepareEach(ps, slugify, taken, orders))
  }

  /** Storing one row under its slug: an upsert replaces the stored document,
      a plain insert leaves an existing document alone (the store reports the
      duplicate key in its result rather than raising). */
  function WriteRow(t: Table, row: Record, upsert: bool): (t': Table)
    ensures t'.Keys == t.Keys + {Get(row, Slug)}
    ensures forall k :: k in t && k != Get(row, Slug) ==> t'[k] == t[k]
    ensures Get(row, Slug) in t && !upsert ==> t' == t
    ensures Get(row, Slug) !in t || upsert ==> t'[Get(row, Slug)] == row
  {
    var k := Get(row, Slug);
    if upsert || k !in t then t[k := row] else t
  }

  /** The slugs of a batch of rows. */
  function RowSlugs(rows: seq<Record>): set<Val>
    decreases |rows|
  {
    if rows == [] then {} else RowSlugs(rows[..|rows| - 1]) + {Get(rows[|rows| - 1], Slug)}
  }

  /** Storing a batch of rows in order. */
  function Write(t: Table, rows: seq<Record>, upsert: bool): (t': Table)
    ensures t'.Keys == t.Keys + RowSlugs(rows)
    decreases |rows|
  {
    if rows == [] then t
    else WriteRow(Write(t, rows[..|rows| - 1], upsert), rows[|rows| - 1], upsert)
  }

  /** Writing keeps every document under its own slug, never drops a key,
      and a plain insert never changes a stored document. */
  lemma {:induction false} WriteKeeps(t: Table, rows: seq<Record>, upsert: bool)
    requires Keyed(t)
    ensures Keyed(Write(t, rows, upsert))
    ensures t.Keys <= Write(t, rows, upsert).Keys
    ensures !upsert ==> forall k :: k in t ==> Write(t, rows, upsert)[k] == t[k]
    decreases |rows|
  {
    if rows != [] {
      WriteKeeps(t, rows[..|rows| - 1], upsert);
    }
  }

  /** `_find_matching_vimorg_plugins`: with a truthy `vimorg_id`, the stored
      documents whose `vimorg_id` equals it (the secondary-index lookup);
      without one, nothing (the repository heuristic is unimplemented and the
      caller reads its None as "no match"). */
  function Matches(t: Table, data: Record): (m: set<Val>)
    ensures m <= t.Keys
    ensures !Truthy(Get(data, VimorgId)) ==> m == {}
    ensures Truthy(Get(data, VimorgId)) ==>
      forall k :: k in t ==> (k in m <==> Get(t[k], VimorgId) == data[VimorgId])
  {
    if Truthy(Get(data, VimorgId)) then set k | k in t && Get(t[k], VimorgId) == data[VimorgId] else {}
  }

  /** What `add_scraped_data` did. */
  datatype Outcome =
    | Inserted(slug: Val)          // no match: an insert of the scraped data was issued
    | Upserted(slug: Val)          // one match: the merge was written back
    | Ambiguous(slugs: set<Val>)   // several matches: logged, nothing written
    | Failed(error: Error)         // slug generation raised, nothing written

  /** The effect of `add_scraped_data` on a table. */
  ghost function Ingested(t: Table, data: Record, slugify: string -> string, order: seq<string>): (r: (Outcome, Table))
    ensures t.Keys <= r.1.Keys
    ensures r.0.Ambiguous? <==> |Matches(t, data)| > 1
    ensures r.0.Ambiguous? || r.0.Failed? ==> r.1 == t
    ensures r.0.Inserted? ==> |Matches(t, data)| == 0 && r.1.Keys == t.Keys + {r.0.slug}
    ensures r.0.Upserted? ==> |Matches(t, data)| == 1 && r.1.Keys == t.Keys + {r.0.slug}
  {
    var m := Matches(t, data);
    if |m| == 0 then
      match Prepare(data, slugify, TakenSlugs(t), order)
      case Err(e) => (Failed(e), t)
      case Ok(row) => (Inserted(Get(row, Slug)), WriteRow(t, row, false))
    else if |m| == 1 then
      var k :| k in m;
      match Prepare(UpdatePlugin(t[k], data), slugify, TakenSlugs(t), order)
      case Err(e) => (Failed(e), t)
      case Ok(row) => (Upserted(Get(row, Slug)), WriteRow(t, row, true))
    else
      (Ambiguous(m), t)
  }

  /** A set of size one is the singleton of any of its elements. */
  lemma Singleton<T>(m: set<T>, k: T)
    requires |m| == 1 && k in m
    ensures m == {k}
  {
    assert |m - {k}| == 0;
  }

  /** Ingestion never loses a document: every stored key survives and every
      document stays under its own slug. A failure or an ambiguous match writes
      nothing; a plain insert changes no stored document; an upsert changes
      only the document under the slug it reports. */
  lemma IngestPreserves(t: Table, data: Record, slugify: string -> string, order: seq<string>)
    requires Keyed(t)
    ensures var (o, t') := Ingested(t, data, slugify, order);
      && Keyed(t') && t.Keys <= t'.Keys
      && (o.Ambiguous? || o.Failed? ==> t' == t)
      && (o.Inserted? ==> forall k :: k in t ==> t'[k] == t[k])
      && (o.Upserted? ==> forall k :: k in t && k != o.slug ==> t'[k] == t[k])
  {
  }

  /** A scraped plugin with no match and no slug of its own is stored under a
      freshly generated slug, beside every existing document. */
  lemma IngestNewPluginIsFresh(t: Table, data: Record, slugify: string -> string, order: seq<string>)
    requires Matches(t, data) == {}
    requires !Truthy(Get(data, Slug))
    requires Ingested(t, data, slugify, order).0.Inserted?
    ensures var (o, t') := Ingested(t, data, slugify, order);
      && o.slug.Str? && o.slug !in t
      && t'.Keys == t.Keys + {o.slug}
      && o.slug == Str(UniqueSlug(data, slugify, TakenSlugs(t), order).value)
      && Prepare(data, slugify, TakenSlugs(t), order) == Ok(t'[o.slug])
  {
    var row := Prepare(data, slugify, TakenSlugs(t), order).value;
    PrepareFields(data, slugify, TakenSlugs(t), order, row);
  }

  /** With exactly one match and scraped data that carries no slug, the merge
      is written back under the matched document's own slug, replacing it. */
  lemma IngestMatchUpdatesInPlace(t: Table, data: Record, slugify: string -> string, order: seq<string>, k: Val)
    requires Keyed(t)
    requires Matches(t, data) == {k}
    requires Truthy(k)
    requires Slug !in data || data[Slug] == None
    ensures var (o, t') := Ingested(t, data, slugify, order);
      && o == Upserted(k)
      && t'.Keys == t.Keys
      && Prepare(UpdatePlugin(t[k], data), slugify, TakenSlugs(t), order) == Ok(t'[k])
  {
    var merged := UpdatePlugin(t[k], data);
    UpdatePluginFieldWinner(t[k], data, Slug);
    assert Get(merged, Slug) == k;
    var row := Prepare(merged, slugify, TakenSlugs(t), order).value;
    PrepareFields(merged, slugify, TakenSlugs(t), order, row);
  }

  /** With exactly one match, scraped data whose slug is falsy but not None
      (an empty string, say) keeps that slug through the merge, so `insert`
      generates a fresh slug: the upsert stores a second document and leaves
      the match as it was. */
  lemma IngestMatchWithFalsySlugDuplicates(t: Table, data: Record, slugify: string -> string, order: seq<string>, k: Val)
    requires Keyed(t)
    requires Matches(t, data) == {k}
    requires !IsMoreAuthoritative(t[k], data)
    requires Slug in data && data[Slug] != None && !Truthy(data[Slug])
    requires Ingested(t, data, slugify, order).0.Upserted?
    ensures var (o, t') := Ingested(t, data, slugify, order);
      && o.slug != k && o.slug !in t
      && t'.Keys == t.Keys + {o.slug}
      && t'[k] == t[k]
  {
    var merged := UpdatePlugin(t[k], data);
    UpdatePluginFieldWinner(t[k], data, Slug);
    assert !Truthy(Get(merged, Slug));
    var row := Prepare(merged, slugify, TakenSlugs(t), order).value;
    PrepareFields(merged, slugify, TakenSlugs(t), order, row);
  }

  /** Within one `insert` call every slug is checked against the table as it
      was before the call, so two new plugins with the same name get the same
      slug, and a plain insert keeps only the first of them. */
  lemma BatchSharesSlug(t: Table, p1: Record, p2: Record, slugify: string -> string, o1: seq<string>, o2: seq<string>)
    requires !Truthy(Get(p1, Slug)) && !Truthy(Get(p2, Slug))
    requires SlugName(p1).Ok? && SlugName(p1) == SlugName(p2)
    requires slugify(SlugName(p1).value) !in TakenSlugs(t)
    ensures var r := PrepareAll([p1, p2], slugify, TakenSlugs(t), [o1, o2]);
      && r.Ok? && |r.value| == 2
      && Get(r.value[0], Slug) == Get(r.value[1], Slug) == Str(slugify(SlugName(p1).value))
      && Write(t, r.value, false)[Str(slugify(SlugName(p1).value))] == r.value[0]
  {
    var taken := TakenSlugs(t);
    PrepareFreshName(p1, slugify, taken, o1);
    PrepareFreshName(p2, slugify, taken, o2);
    var row1 := Prepare(p1, slugify, taken, o1).value;
    var row2 := Prepare(p2, slugify, taken, o2).value;
    PrepareAllPair(p1, p2, slugify, taken, o1, o2, row1, row2);
    WritePairKeepsFirst(t, row1, row2);
  }

  /** A plugin without a slug whose plain slug is free gets exactly that slug. */
  lemma PrepareFreshName(p: Record, slugify: string -> string, taken: set<string>, order: seq<string>)
    requires !Truthy(Get(p, Slug))
    requires SlugName(p).Ok? && slugify(SlugName(p).value) !in taken
    ensures Prepare(p, slugify, taken, order).Ok?
    ensures Get(Prepare(p, slugify, taken, order).value, Slug) == Str(slugify(SlugName(p).value))
  {
    var row := Prepare(p, slugify, taken, order).value;
    PrepareFields(p, slugify, taken, order, row);
  }

  /** A batch of two plugins whose rows can both be built. */
  lemma PrepareAllPair(p1: Record, p2: Record, slugify: string -> string, taken: set<string>,
                       o1: seq<string>, o2: seq<string>, row1: Record, row2: Record)
    requires Prepare(p1, slugify, taken, o1) == Ok(row1) && Prepare(p2, slugify, taken, o2) == Ok(row2)
    ensures PrepareAll([p1, p2], slugify, taken, [o1, o2]) == Ok([row1, row2])
  {
    var rs := PrepareEach([p1, p2], slugify, taken, [o1, o2]);
    assert rs[0] == Ok(row1) && rs[1] == Ok(row2);
    CollectTwo(rs, row1, row2);
  }

  /** Of two rows with the same new slug, a plain insert stores the first. */
  lemma WritePairKeepsFirst(t: Table, row1: Record, row2: Record)
    requires Get(row1, Slug) == Get(row2, Slug) && Get(row1, Slug) !in t
    ensures Write(t, [row1, row2], false)[Get(row1, Slug)] == row1
  {
    var rows := [row1, row2];
    assert rows[..1] == [row1] && rows[..1][..0] == [];
    assert Write(t, rows[..1], false) == WriteRow(t, row1, false);
  }

  /** One pass of `insert`'s loop: generate a slug when there is no truthy
      one, default the normalized name, lay the plugin over the schema. */
  method BuildRow(p: Record, slugify: string -> string, taken: set<string>, order: seq<string>)
    returns (r: Result<Record>)
    requires multiset(order) == multiset(Suffixes)
    ensures r == Prepare(p, slugify, taken, order)
  {
    var plugin := p;
    if !Truthy(Get(plugin, Slug)) {
      var slug := GenerateUniqueSlug(plugin, slugify, taken, order);
      if slug.Err? {
        return Err(slug.error);
      }
      plugin := plugin[Slug := Str(slug.value)];
    }
    if !Truthy(Get(plugin, NormalizedName)) {
      plugin := plugin[NormalizedName := Str(PlaceholderName)];
    }
    return Ok(ApplySchema(plugin));
  }

  /** The `plugins` table. */
  class PluginTable {
    var rows: Table

    ghost predicate Valid()
      reads this
    {
      Keyed(rows)
    }

    constructor (initial: Table)
      requires Keyed(initial)
      ensures Valid() && rows == initial
    {
      rows := initial;
    }

    /** `insert(plugins, upsert=...)`: builds every row first, generating
        slugs against the table as it was before the call, and writes the
        batch only when every row could be built. */
    method Insert(plugins: seq<Record>, upsert: bool, slugify: string -> string, orders: seq<seq<string>>)
      returns (r: Result<seq<Record>>)
      requires Valid()
      requires |orders| == |plugins|
      requires forall i :: 0 <= i < |orders| ==> multiset(orders[i]) == multiset(Suffixes)
      modifies this
      ensures Valid()
      ensures r == PrepareAll(plugins, slugify, TakenSlugs(old(rows)), orders)
      ensures rows == if r.Ok? then Write(old(rows), r.value, upsert) else old(rows)
    {
      ghost var prepared := PrepareEach(plugins, slugify, TakenSlugs(rows), orders);
      var mapped: seq<Record> := [];
      var i := 0;
      while i < |plugins|
        invariant 0 <= i <= |plugins|
        invariant rows == old(rows)
        invariant Collect(prepared[..i]) == Ok(mapped)
      {
        var row := BuildRow(plugins[i], slugify, TakenSlugs(rows), orders[i]);
        if row.Err? {
          CollectStopsAt(prepared, i);
          return Err(row.error);
        }
        mapped := mapped + [row.value];
        assert prepared[..i + 1][..i] == prepared[..i];
        i := i + 1;
      }
      assert prepared[..i] == prepared;
      WriteKeeps(rows, mapped, upsert);
      rows := Write(rows, mapped, upsert);
      r := Ok(mapped);
    }

    /** `add_scraped_data`: insert on no match, upsert the merge on exactly
        one match, write nothing on several. */
    method AddScrapedData(data: Record, slugify: string -> string, order: seq<string>) returns (outcome: Outcome)
      requires Valid()
      requires multiset(order) == multiset(Suffixes)
      modifies this
      ensures Valid()
      ensures (outcome, rows) == Ingested(old(rows), data, slugify, order)
    {
      var m := Matches(rows, data);
      if |m| == 0 {
        var r := Insert([data], false, slugify, [order]);
        outcome := if r.Ok? then Inserted(Get(r.value[0], Slug)) else Failed(r.error);
      } else if |m| == 1 {
        var k :| k in m;
        Singleton(m, k);
        var updated := UpdatePlugin(rows[k], data);
        var r := Insert([updated], true, slugify, [order]);
        outcome := if r.Ok? then Upserted(Get(r.value[0], Slug)) else Failed(r.error);
      } else {
        outcome := Ambiguous(m);
      }
    }
  }
}
