/** Unique, human-readable permalinks for plugins (`_generate_unique_slug`).
    The slugging library is a parameter `slugify`, the "is this slug used"
    query a set `taken`, and the random shuffle a permutation `order` of the
    fixed suffix pool. */
module Slugs {
  import opened Values

  /** The i-th suffix of the pool, in the order the source lists them. */
  function SuffixAt(i: nat): string {
    if i == 0 then "all-too-well"
    else if i == 1 then "back-to-december"
    else if i == 2 then "better-than-revenge"
    else if i == 3 then "come-back-be-here"
    else if i == 4 then "enchanted"
    else if i == 5 then "fearless"
    else if i == 6 then "holy-ground"
    else if i == 7 then "long-live"
    else if i == 8 then "love-story"
    else if i == 9 then "mine"
    else if i == 10 then "ours"
    else if i == 11 then "red"
    else if i == 12 then "safe-and-sound"
    else if i == 13 then "sparks-fly"
    else if i == 14 then "state-of-grace"
    else if i == 15 then "sweeter-than-fiction"
    else if i == 16 then "treacherous"
    else "you-belong-with-me"
  }

  /** The pool of eighteen suffixes tried, in some order, when the plain slug is taken. */
  const Suffixes: seq<string> := seq(18, SuffixAt)

  /** The fields a slug is derived from, highest priority first. */
  const NameFields: seq<string> := ["vimorg_name", "github_repo_name", "github_vim_scripts_repo_name"]

  /** `a or b or c` over the name fields: the first truthy one, else the last. */
  function NameValue(p: Record): Val {
    var v0, v1 := Get(p, NameFields[0]), Get(p, NameFields[1]);
    if Truthy(v0) then v0 else if Truthy(v1) then v1 else Get(p, NameFields[2])
  }

  /** The name to slug: the highest-priority truthy name field, which must exist
      (`assert name`) and be a string. */
  function SlugName(p: Record): (r: Result<string>)
    ensures r.Ok? ==> r.value != []
    ensures r.Ok? ==> exists i :: 0 <= i < |NameFields| && Get(p, NameFields[i]) == Str(r.value) &&
                                  forall j :: 0 <= j < i ==> !Truthy(Get(p, NameFields[j]))
    ensures (forall i :: 0 <= i < |NameFields| ==> !Truthy(Get(p, NameFields[i]))) ==> r == Err(InvalidInput)
  {
    var v := NameValue(p);
    if Truthy(v) && v.Str? then Ok(v.s) else Err(InvalidInput)
  }

  /** The slug tried for one suffix: `slugify('%s-%s' % (name, suffix))`. */
  function Candidate(slugify: string -> string, name: string, suffix: string): string {
    slugify(name + "-" + suffix)
  }

  /** The first suffixed candidate, in `order`, that is not taken. */
  function FirstFree(slugify: string -> string, name: string, order: seq<string>, taken: set<string>): (r: Result<string>)
    ensures r.Ok? ==> r.value !in taken
    ensures r.Ok? ==> exists i :: 0 <= i < |order| && r.value == Candidate(slugify, name, order[i]) &&
                                  forall j :: 0 <= j < i ==> Candidate(slugify, name, order[j]) in taken
    ensures r.Err? <==> forall i :: 0 <= i < |order| ==> Candidate(slugify, name, order[i]) in taken
    ensures r.Err? ==> r.error == SlugSpaceExhausted
  {
    if order == [] then Err(SlugSpaceExhausted)
    else if Candidate(slugify, name, order[0]) !in taken then Ok(Candidate(slugify, name, order[0]))
    else
      var r := FirstFree(slugify, name, order[1..], taken);
      assert r.Ok? ==> exists i :: 0 <= i < |order| && r.value == Candidate(slugify, name, order[i]) &&
                                  forall j :: 0 <= j < i ==> Candidate(slugify, name, order[j]) in taken by {
        if r.Ok? {
          var i :| 0 <= i < |order| - 1 && r.value == Candidate(slugify, name, order[1..][i]) &&
                   forall j :: 0 <= j < i ==> Candidate(slugify, name, order[1..][j]) in taken;
          assert forall j :: 0 <= j < i + 1 ==> Candidate(slugify, name, order[j]) in taken by {
            forall j | 0 <= j < i + 1 ensures Candidate(slugify, name, order[j]) in taken {
              if j > 0 { assert order[j] == order[1..][j - 1]; }
            }
          }
        }
      }
      assert r.Err? <==> forall i :: 0 <= i < |order| ==> Candidate(slugify, name, order[i]) in taken by {
        if r.Err? {
          forall i | 0 <= i < |order| ensures Candidate(slugify, name, order[i]) in taken {
            if i > 0 { assert order[i] == order[1..][i - 1]; }
          }
        }
      }
      r
  }

  /** What `_generate_unique_slug` returns for `p`: the plain slug of its name
      when free, else the first free suffixed slug in `order`. */
  function UniqueSlug(p: Record, slugify: string -> string, taken: set<string>, order: seq<string>): (r: Result<string>)
    ensures SlugName(p).Err? ==> r == Err(InvalidInput)
    ensures r.Ok? ==> r.value !in taken && SlugName(p).Ok?
    ensures r.Ok? ==> (r.value == slugify(SlugName(p).value) ||
      exists i :: 0 <= i < |order| && r.value == Candidate(slugify, SlugName(p).value, order[i]))
  {
    match SlugName(p)
    case Err(e) => Err(e)
    case Ok(name) =>
      if slugify(name) !in taken then Ok(slugify(name))
      else FirstFree(slugify, name, order, taken)
  }

  /** `_generate_unique_slug`: walks the shuffled suffixes and returns at the
      first candidate that is not taken. */
  method GenerateUniqueSlug(p: Record, slugify: string -> string, taken: set<string>, order: seq<string>)
    returns (r: Result<string>)
    requires multiset(order) == multiset(Suffixes)
    ensures r == UniqueSlug(p, slugify, taken, order)
    ensures r.Ok? ==> r.value !in taken
  {
    var nameResult := SlugName(p);
    if nameResult.Err? {
      return Err(InvalidInput);
    }
    var name := nameResult.value;
    var slug := slugify(name);
    if slug !in taken {
      return Ok(slug);
    }
    var i := 0;
    while i < |order|
      invariant 0 <= i <= |order|
      invariant FirstFree(slugify, name, order[i..], taken) == FirstFree(slugify, name, order, taken)
    {
      slug := Candidate(slugify, name, order[i]);
      if slug !in taken {
        return Ok(slug);
      }
      assert order[i..][1..] == order[i + 1..];
      i := i + 1;
    }
    return Err(SlugSpaceExhausted);
  }

  /** A generated slug is never one that is already taken. */
  lemma UniqueSlugIsFresh(p: Record, slugify: string -> string, taken: set<string>, order: seq<string>)
    ensures UniqueSlug(p, slugify, taken, order).Ok? ==> UniqueSlug(p, slugify, taken, order).value !in taken
  {
  }

  /** The plain slug of the name is preferred whenever it is free. */
  lemma UniqueSlugPrefersPlain(p: Record, slugify: string -> string, taken: set<string>, order: seq<string>)
    requires SlugName(p).Ok? && slugify(SlugName(p).value) !in taken
    ensures UniqueSlug(p, slugify, taken, order) == Ok(slugify(SlugName(p).value))
  {
  }

  /** Slug generation fails for lack of suffixes exactly when the plain slug
      and all eighteen suffixed slugs are taken, whatever the shuffle. */
  lemma UniqueSlugExhausted(p: Record, slugify: string -> string, taken: set<string>, order: seq<string>)
    requires multiset(order) == multiset(Suffixes)
    requires SlugName(p).Ok?
    ensures var name := SlugName(p).value;
      UniqueSlug(p, slugify, taken, order).Err? <==>
        slugify(name) in taken && forall s :: s in Suffixes ==> Candidate(slugify, name, s) in taken
  {
    FirstFreeExhausted(slugify, SlugName(p).value, order, Suffixes, taken);
  }

  /** The search over any permutation of a pool fails exactly when every
      candidate of the pool is taken. */
  lemma FirstFreeExhausted(slugify: string -> string, name: string, order: seq<string>, pool: seq<string>, taken: set<string>)
    requires multiset(order) == multiset(pool)
    ensures FirstFree(slugify, name, order, taken).Err? <==>
      forall s :: s in pool ==> Candidate(slugify, name, s) in taken
  {
    SameElements(order, pool);
    var r := FirstFree(slugify, name, order, taken);
    if r.Err? {
      forall s | s in pool ensures Candidate(slugify, name, s) in taken {
        var i :| 0 <= i < |order| && order[i] == s;
      }
    } else {
      var i :| 0 <= i < |order| && r.value == Candidate(slugify, name, order[i]) &&
               forall j :: 0 <= j < i ==> Candidate(slugify, name, order[j]) in taken;
      assert order[i] in pool;
    }
  }

  /** Two sequences with the same multiset hold the same elements. */
  lemma SameElements<T>(a: seq<T>, b: seq<T>)
    requires multiset(a) == multiset(b)
    ensures forall x :: x in a <==> x in b
  {
    forall x ensures x in a <==> x in b {
      assert x in a <==> x in multiset(a);
      assert x in b <==> x in multiset(b);
    }
  }

  /** The name is chosen by priority: vim.org name, then GitHub repo name,
      then vim-scripts mirror name. */
  lemma SlugNamePriority(p: Record)
    ensures Truthy(Get(p, "vimorg_name")) && Get(p, "vimorg_name").Str? ==>
      SlugName(p) == Ok(Get(p, "vimorg_name").s)
    ensures !Truthy(Get(p, "vimorg_name")) && Truthy(Get(p, "github_repo_name")) && Get(p, "github_repo_name").Str? ==>
      SlugName(p) == Ok(Get(p, "github_repo_name").s)
    ensures (!Truthy(Get(p, "vimorg_name")) && !Truthy(Get(p, "github_repo_name")) &&
             Truthy(Get(p, "github_vim_scripts_repo_name")) && Get(p, "github_vim_scripts_repo_name").Str?) ==>
      SlugName(p) == Ok(Get(p, "github_vim_scripts_repo_name").s)
  {
  }
}
