/** The fixed platform registry: the `PLATFORMS` table repeated in the page, the review grid
    and the post-text editor, whose order is also the key order of
    `brandConfig.platform_overrides`; and the per-platform post record. */
module Registry {
  import opened Base

  const PlatformIds: seq<string> := ["instagram", "linkedin", "x", "facebook"]
  const PlatformLabels: seq<string> := ["Instagram", "LinkedIn", "X", "Facebook"]

  /** A post's editable text and hashtags, keyed by platform id. */
  datatype Post = Post(id: string, text: string, hashtags: string)

  /** The two editable fields of a post. */
  datatype Field = Text | Hashtags

  lemma {:induction false} RegistryIdsDistinct()
    ensures NoDup(PlatformIds) && |PlatformIds| == |PlatformLabels| == 4
  {
  }

  /** Position of `id` in the registry, as `PLATFORMS.findIndex(p => p.id === id)`. */
  function IndexOf(id: string): (r: Option<nat>)
    ensures r.Some? <==> id in PlatformIds
    ensures r.Some? ==> r.value < |PlatformIds| && PlatformIds[r.value] == id
  {
    if id == PlatformIds[0] then Some(0)
    else if id == PlatformIds[1] then Some(1)
    else if id == PlatformIds[2] then Some(2)
    else if id == PlatformIds[3] then Some(3)
    else None
  }

  /** `PLATFORMS.find(p => p.id === id)?.label`. */
  function LabelOf(id: string): (r: Option<string>)
    ensures r.Some? <==> id in PlatformIds
    ensures forall i :: 0 <= i < |PlatformIds| && PlatformIds[i] == id ==> r == Some(PlatformLabels[i])
  {
    match IndexOf(id)
    case Some(i) => Some(PlatformLabels[i])
    case None => None
  }

  /** The ids of a list of posts, in order. */
  function Ids(posts: seq<Post>): (r: seq<string>)
    ensures |r| == |posts|
    ensures forall i :: 0 <= i < |posts| ==> r[i] == posts[i].id
  {
    if posts == [] then [] else [posts[0].id] + Ids(posts[1..])
  }

  /** One post per registry platform, in registry order, with empty text and hashtags: the
      initial (and reset) value of the page's `platformPosts`. */
  function EmptyPosts(): (r: seq<Post>)
    ensures Ids(r) == PlatformIds
    ensures forall i :: 0 <= i < |r| ==> r[i].text == "" && r[i].hashtags == ""
  {
    [Post(PlatformIds[0], "", ""), Post(PlatformIds[1], "", ""),
     Post(PlatformIds[2], "", ""), Post(PlatformIds[3], "", "")]
  }

  /** Every element of `s` is a registry id and none occurs twice: the shape of every
      platform selection the input panel can produce. */
  predicate IsSelection(s: seq<string>) {
    NoDup(s) && forall p :: p in s ==> p in PlatformIds
  }

  /** `ids.filter(x => selected.includes(x))`. */
  function FilterIn(ids: seq<string>, selected: seq<string>): (r: seq<string>)
    ensures forall x :: x in r <==> x in ids && x in selected
    ensures |r| <= |ids|
  {
    if ids == [] then []
    else (if ids[0] in selected then [ids[0]] else []) + FilterIn(ids[1..], selected)
  }

  /** Filtering a list without duplicates gives a list without duplicates. */
  lemma {:induction false} FilterInNoDup(ids: seq<string>, selected: seq<string>)
    requires NoDup(ids)
    ensures NoDup(FilterIn(ids, selected))
  {
    if ids != [] {
      var tail := ids[1..];
      assert NoDup(tail) && ids[0] !in tail by {
        forall j | 0 <= j < |tail| ensures tail[j] != ids[0] {
          assert tail[j] == ids[j + 1];
        }
      }
      FilterInNoDup(tail, selected);
    }
  }
}
