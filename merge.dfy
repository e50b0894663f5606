/** Reconciling two documents about the same plugin: which one comes from the
    more authoritative GitHub repository, and the non-destructive field merge
    that `update_plugin` builds from that decision. */
module Merge {
  import opened Values

  const GithubUrl := "github_url"
  const UpdatedAt := "updated_at"
  const CreatedAt := "created_at"
  const GithubStars := "github_stars"

  /** The keys of `b` whose value is not None. */
  function NonNoneKeys(b: Record): set<string> {
    set k | k in b && b[k] != None
  }

  /** `_merge_dict_except_none(a, b)`: a fresh dict holding `a` updated with
      the entries of `b` whose value is not None. */
  function MergeExceptNone(a: Record, b: Record): (r: Record)
    ensures r.Keys == a.Keys + NonNoneKeys(b)
    ensures forall k :: k in b && b[k] != None ==> r[k] == b[k]
    ensures forall k :: k in a && (k !in b || b[k] == None) ==> r[k] == a[k]
  {
    a + map k | k in b && b[k] != None :: b[k]
  }

  /** `is_more_authoritative(a, b)`: only two different GitHub URLs can make
      one document more authoritative than the other; then the later
      `updated_at` wins and equal timestamps fall back to more stars. A
      missing timestamp or star count reads as 0. */
  predicate IsMoreAuthoritative(a: Record, b: Record): (r: bool)
    ensures r ==> Truthy(Get(a, GithubUrl)) && Truthy(Get(b, GithubUrl)) && a[GithubUrl] != b[GithubUrl]
    ensures r ==> !Gt(GetOr(b, UpdatedAt, Int(0)), GetOr(a, UpdatedAt, Int(0)))
    ensures r ==> !Gt(GetOr(b, GithubStars, Int(0)), GetOr(a, GithubStars, Int(0))) ||
                  GetOr(a, UpdatedAt, Int(0)) != GetOr(b, UpdatedAt, Int(0))
  {
    CompareAntisymmetric(GetOr(a, UpdatedAt, Int(0)), GetOr(b, UpdatedAt, Int(0)));
    CompareAntisymmetric(GetOr(a, GithubStars, Int(0)), GetOr(b, GithubStars, Int(0)));
    if Truthy(Get(a, GithubUrl)) && Truthy(Get(b, GithubUrl)) && a[GithubUrl] != b[GithubUrl] then
      var ta, tb := GetOr(a, UpdatedAt, Int(0)), GetOr(b, UpdatedAt, Int(0));
      if Gt(ta, tb) then true
      else if ta == tb then Gt(GetOr(a, GithubStars, Int(0)), GetOr(b, GithubStars, Int(0)))
      else false
    else false
  }

  /** `update_plugin(old_plugin, new_plugin)`: overlay the more authoritative document's
      non-None fields on the other one (by default the new document on the old one), then keep
      the later `updated_at` and the earlier `created_at` when both sides
      carry a truthy value. */
  function UpdatePlugin(oldPlugin: Record, newPlugin: Record): (r: Record)
    ensures NonNoneKeys(oldPlugin) + NonNoneKeys(newPlugin) <= r.Keys <= oldPlugin.Keys + newPlugin.Keys
  {
    var merged :=
      if IsMoreAuthoritative(oldPlugin, newPlugin) then MergeExceptNone(newPlugin, oldPlugin)
      else MergeExceptNone(oldPlugin, newPlugin);
    var withUpdated :=
      if Truthy(Get(oldPlugin, UpdatedAt)) && Truthy(Get(newPlugin, UpdatedAt))
      then merged[UpdatedAt := Max(oldPlugin[UpdatedAt], newPlugin[UpdatedAt])]
      else merged;
    if Truthy(Get(oldPlugin, CreatedAt)) && Truthy(Get(newPlugin, CreatedAt))
    then withUpdated[CreatedAt := Min(oldPlugin[CreatedAt], newPlugin[CreatedAt])]
    else withUpdated
  }

  /** No authority distinction without two present, different GitHub URLs. */
  lemma AuthorityNeedsTwoUrls(a: Record, b: Record)
    requires !Truthy(Get(a, GithubUrl)) || !Truthy(Get(b, GithubUrl)) || Get(a, GithubUrl) == Get(b, GithubUrl)
    ensures !IsMoreAuthoritative(a, b) && !IsMoreAuthoritative(b, a)
  {
  }

  /** With integer (or missing) timestamps and star counts, authority is the
      lexicographic order on (updated_at, github_stars) between two different URLs. */
  lemma AuthorityOnIntegers(a: Record, b: Record, ta: int, tb: int, sa: int, sb: int)
    requires GetOr(a, UpdatedAt, Int(0)) == Int(ta) && GetOr(b, UpdatedAt, Int(0)) == Int(tb)
    requires GetOr(a, GithubStars, Int(0)) == Int(sa) && GetOr(b, GithubStars, Int(0)) == Int(sb)
    ensures IsMoreAuthoritative(a, b) <==>
      Truthy(Get(a, GithubUrl)) && Truthy(Get(b, GithubUrl)) && Get(a, GithubUrl) != Get(b, GithubUrl) &&
      (ta > tb || (ta == tb && sa > sb))
  {
  }

  /** Authority is asymmetric: never both ways. */
  lemma AuthorityAsymmetric(a: Record, b: Record)
    ensures !(IsMoreAuthoritative(a, b) && IsMoreAuthoritative(b, a))
  {
    CompareAntisymmetric(GetOr(a, UpdatedAt, Int(0)), GetOr(b, UpdatedAt, Int(0)));
    CompareAntisymmetric(GetOr(a, GithubStars, Int(0)), GetOr(b, GithubStars, Int(0)));
  }

  /** Equal timestamps and equal star counts leave no winner either way. */
  lemma AuthorityTie(a: Record, b: Record)
    requires GetOr(a, UpdatedAt, Int(0)) == GetOr(b, UpdatedAt, Int(0))
    requires GetOr(a, GithubStars, Int(0)) == GetOr(b, GithubStars, Int(0))
    ensures !IsMoreAuthoritative(a, b) && !IsMoreAuthoritative(b, a)
  {
    CompareZeroIffEqual(GetOr(a, UpdatedAt, Int(0)), GetOr(b, UpdatedAt, Int(0)));
    CompareZeroIffEqual(GetOr(a, GithubStars, Int(0)), GetOr(b, GithubStars, Int(0)));
  }

  /** The merged key set: the base document's keys plus the overlay's non-None keys. */
  lemma UpdatePluginKeys(oldPlugin: Record, newPlugin: Record)
    ensures IsMoreAuthoritative(oldPlugin, newPlugin) ==> UpdatePlugin(oldPlugin, newPlugin).Keys == newPlugin.Keys + NonNoneKeys(oldPlugin)
    ensures !IsMoreAuthoritative(oldPlugin, newPlugin) ==> UpdatePlugin(oldPlugin, newPlugin).Keys == oldPlugin.Keys + NonNoneKeys(newPlugin)
  {
  }

  /** Unless both documents carry a truthy timestamp `k`, the overlay's
      non-None value wins and otherwise the base value stays; which side
      overlays is decided by authority. */
  lemma UpdatePluginFieldWinner(oldPlugin: Record, newPlugin: Record, k: string)
    requires k == UpdatedAt || k == CreatedAt ==> !Truthy(Get(oldPlugin, k)) || !Truthy(Get(newPlugin, k))
    ensures var r := UpdatePlugin(oldPlugin, newPlugin);
      if IsMoreAuthoritative(oldPlugin, newPlugin) then
        (k in oldPlugin && oldPlugin[k] != None ==> k in r && r[k] == oldPlugin[k]) &&
        (k in newPlugin && (k !in oldPlugin || oldPlugin[k] == None) ==> k in r && r[k] == newPlugin[k])
      else
        (k in newPlugin && newPlugin[k] != None ==> k in r && r[k] == newPlugin[k]) &&
        (k in oldPlugin && (k !in newPlugin || newPlugin[k] == None) ==> k in r && r[k] == oldPlugin[k])
  {
  }

  /** Merging is non-destructive: every field the result holds comes from one
      of the inputs, and a field that is present and not None in either input
      is present and not None in the result. */
  lemma UpdatePluginNonDestructive(oldPlugin: Record, newPlugin: Record)
    ensures var r := UpdatePlugin(oldPlugin, newPlugin);
      && (forall k :: k in r ==> (k in oldPlugin && r[k] == oldPlugin[k]) || (k in newPlugin && r[k] == newPlugin[k]))
      && (forall k :: (k in oldPlugin && oldPlugin[k] != None) || (k in newPlugin && newPlugin[k] != None) ==> k in r && r[k] != None)
  {
    var r := UpdatePlugin(oldPlugin, newPlugin);
    forall k | k in r
      ensures (k in oldPlugin && r[k] == oldPlugin[k]) || (k in newPlugin && r[k] == newPlugin[k])
    {
      NonDestructiveAt(oldPlugin, newPlugin, k);
    }
    forall k | (k in oldPlugin && oldPlugin[k] != None) || (k in newPlugin && newPlugin[k] != None)
      ensures k in r && r[k] != None
    {
      NonDestructiveAt(oldPlugin, newPlugin, k);
    }
  }

  /** One key of UpdatePluginNonDestructive. */
  lemma NonDestructiveAt(oldPlugin: Record, newPlugin: Record, k: string)
    ensures var r := UpdatePlugin(oldPlugin, newPlugin);
      && (k in r ==> (k in oldPlugin && r[k] == oldPlugin[k]) || (k in newPlugin && r[k] == newPlugin[k]))
      && ((k in oldPlugin && oldPlugin[k] != None) || (k in newPlugin && newPlugin[k] != None) ==> k in r && r[k] != None)
  {
    var merged :=
      if IsMoreAuthoritative(oldPlugin, newPlugin) then MergeExceptNone(newPlugin, oldPlugin)
      else MergeExceptNone(oldPlugin, newPlugin);
    var u, u' := Get(oldPlugin, UpdatedAt), Get(newPlugin, UpdatedAt);
    var c, c' := Get(oldPlugin, CreatedAt), Get(newPlugin, CreatedAt);
    if k == UpdatedAt && Truthy(u) && Truthy(u') {
      MaxIsUpperBound(u, u');
    } else if k == CreatedAt && Truthy(c) && Truthy(c') {
      MinIsLowerBound(c, c');
    } else {
      assert k in UpdatePlugin(oldPlugin, newPlugin) <==> k in merged;
    }
  }

  /** When both sides carry truthy timestamps, the result keeps the later
      `updated_at` and the earlier `created_at`: Python's `max` and `min` of
      the two, which no input exceeds or undercuts. */
  lemma UpdatePluginTimestamps(oldPlugin: Record, newPlugin: Record)
    ensures var r := UpdatePlugin(oldPlugin, newPlugin);
      && (Truthy(Get(oldPlugin, UpdatedAt)) && Truthy(Get(newPlugin, UpdatedAt)) ==>
            UpdatedAt in r && r[UpdatedAt] == Max(oldPlugin[UpdatedAt], newPlugin[UpdatedAt]) &&
            !Gt(oldPlugin[UpdatedAt], r[UpdatedAt]) && !Gt(newPlugin[UpdatedAt], r[UpdatedAt]))
      && (Truthy(Get(oldPlugin, CreatedAt)) && Truthy(Get(newPlugin, CreatedAt)) ==>
            CreatedAt in r && r[CreatedAt] == Min(oldPlugin[CreatedAt], newPlugin[CreatedAt]) &&
            Compare(oldPlugin[CreatedAt], r[CreatedAt]) >= 0 && Compare(newPlugin[CreatedAt], r[CreatedAt]) >= 0)
  {
    MaxIsUpperBound(Get(oldPlugin, UpdatedAt), Get(newPlugin, UpdatedAt));
    MinIsLowerBound(Get(oldPlugin, CreatedAt), Get(newPlugin, CreatedAt));
  }

  /** Merging a document with itself gives it back unchanged. */
  lemma UpdatePluginIdempotent(r: Record)
    ensures UpdatePlugin(r, r) == r
  {
  }

  /** An explicit `updated_at` of 0 in the new document is not None, so the
      merge copies it, and 0 is falsy, so the later-timestamp step is skipped:
      the merged document loses the old document's later timestamp. */
  lemma ZeroUpdatedAtOverwrites(oldPlugin: Record, newPlugin: Record, stamp: int)
    requires !IsMoreAuthoritative(oldPlugin, newPlugin)
    requires Get(oldPlugin, UpdatedAt) == Int(stamp) && stamp > 0
    requires Get(newPlugin, UpdatedAt) == Int(0)
    ensures UpdatedAt in UpdatePlugin(oldPlugin, newPlugin)
    ensures UpdatePlugin(oldPlugin, newPlugin)[UpdatedAt] == Int(0)
    ensures Gt(oldPlugin[UpdatedAt], UpdatePlugin(oldPlugin, newPlugin)[UpdatedAt])
  {
  }
}
