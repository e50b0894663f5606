/** `update_tags`: replaces a plugin's tags and reports which tags were added
    and which removed, the two sets whose members the aggregate tag counts
    are incremented and decremented for. */
module Tags {
  import opened Values

  const TagsField := "tags"

  /** `set(v)` for a stored tags value: the items of a list, the characters
      of a string; anything else is not iterable. */
  function TagSet(v: Val): (r: Result<set<string>>)
    ensures r.Err? <==> v.None? || v.Int?
    ensures r.Err? ==> r.error == TypeError
    ensures v.List? ==> r == Ok(set t | t in v.items)
    ensures v.Str? ==> r.Ok? && forall t :: t in r.value <==> |t| == 1 && t[0] in v.s
  {
    match v
    case List(xs) => Ok(set t | t in xs)
    case Str(s) =>
      assert forall t: string {:trigger t[0]} :: |t| == 1 ==> t == [t[0]];
      Ok(set c | c in s :: [c])
    case _ => Err(TypeError)
  }

  /** What `update_tags` did: the tags to count up, the tags to count down,
      and the plugin as it stands afterwards. */
  datatype TagChange = TagChange(added: set<string>, removed: set<string>, plugin: Record)

  /** What `update_tags(plugin, tags)` computes. */
  function TagUpdate(p: Record, tags: seq<string>): (r: Result<TagChange>)
    ensures r.Err? <==> TagsField !in p || TagSet(p[TagsField]).Err?
    ensures r.Err? && TagsField !in p ==> r.error == KeyError
    ensures r.Err? && TagsField in p ==> r.error == TypeError
    ensures r.Ok? ==> (
      var before := TagSet(p[TagsField]).value;
      var after := set t | t in tags;
      // a tag is added exactly when it is new, removed exactly when it is dropped
      (forall t :: t in r.value.added <==> t in after && t !in before) &&
      (forall t :: t in r.value.removed <==> t in before && t !in after) &&
      r.value.added !! r.value.removed &&
      // the old tags less the removed plus the added are the new tags
      (before - r.value.removed) + r.value.added == after &&
      // only the tags field changes, and it holds the new list as given
      r.value.plugin.Keys == p.Keys &&
      r.value.plugin[TagsField] == List(tags) &&
      forall k :: k in p && k != TagsField ==> r.value.plugin[k] == p[k])
  {
    if TagsField !in p then Err(KeyError)
    else
      match TagSet(p[TagsField])
      case Err(e) => Err(e)
      case Ok(before) =>
        var after := set t | t in tags;
        Ok(TagChange(after - before, before - after, p[TagsField := List(tags)]))
  }

  /** `update_tags`: reads the stored tags, takes the two set differences,
      then overwrites the tags field with the new list. */
  method UpdateTags(plugin: Record, tags: seq<string>) returns (r: Result<TagChange>)
    ensures r == TagUpdate(plugin, tags)
  {
    if TagsField !in plugin {
      return Err(KeyError);
    }
    var pluginTags := TagSet(plugin[TagsField]);
    if pluginTags.Err? {
      return Err(pluginTags.error);
    }
    var newTags := set t | t in tags;
    var addedTags := newTags - pluginTags.value;
    var removedTags := pluginTags.value - newTags;
    var updated := plugin[TagsField := List(tags)];
    return Ok(TagChange(addedTags, removedTags, updated));
  }

  /** Setting the tags a plugin already has changes nothing in the counts:
      no tag is added or removed exactly when the new tags equal the old. */
  lemma NoChangeIffSameTags(p: Record, tags: seq<string>)
    requires TagUpdate(p, tags).Ok?
    ensures TagUpdate(p, tags).value.added == {} && TagUpdate(p, tags).value.removed == {}
        <==> TagSet(p[TagsField]).value == set t | t in tags
  {
    var c := TagUpdate(p, tags).value;
    var before := TagSet(p[TagsField]).value;
    var after := set t | t in tags;
    if c.added == {} && c.removed == {} {
      forall t ensures t in before <==> t in after {
        assert t !in c.added && t !in c.removed;
      }
    }
  }

  /** Updating twice with the same tags: the second update adds and removes
      nothing and leaves the plugin as the first left it. */
  lemma TagUpdateIdempotent(p: Record, tags: seq<string>)
    requires TagUpdate(p, tags).Ok?
    ensures TagUpdate(TagUpdate(p, tags).value.plugin, tags)
         == Ok(TagChange({}, {}, TagUpdate(p, tags).value.plugin))
  {
    var q := TagUpdate(p, tags).value.plugin;
    var c2 := TagUpdate(q, tags).value;
    assert TagSet(q[TagsField]).value == set t | t in tags;
    NoChangeIffSameTags(q, tags);
    assert q[TagsField := List(tags)] == q;
  }

  /** Putting the old list back undoes the counts: what was added is removed
      and what was removed is added. */
  lemma TagUpdateUndo(p: Record, tags: seq<string>)
    requires TagsField in p && p[TagsField].List?
    ensures TagUpdate(p, tags).Ok?
    ensures TagUpdate(TagUpdate(p, tags).value.plugin, p[TagsField].items)
         == Ok(TagChange(TagUpdate(p, tags).value.removed, TagUpdate(p, tags).value.added, p))
  {
    var c := TagUpdate(p, tags).value;
    var back := TagUpdate(c.plugin, p[TagsField].items).value;
    assert back.added == c.removed;
    assert back.removed == c.added;
    assert c.plugin[TagsField := p[TagsField]] == p;
  }
}
