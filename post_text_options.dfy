/** The post-text editor of step 1 and the list transforms it applies to the page's
    `platformPosts`: placeholder fill, per-field edit, per-platform regeneration, and the
    filter that decides which posts are shown. The review grid applies the same placeholder
    fill and field edit. */
module PostTextOptions {
  import opened Base
  import opened Strings
  import opened Registry

  /** `${platform?.label}` inside a template literal: the label, or "undefined". */
  function LabelText(id: string): (r: string)
    ensures id in PlatformIds ==> LabelOf(id) == Some(r)
    ensures id !in PlatformIds ==> r == "undefined"
  {
    LabelOf(id).GetOr("undefined")
  }

  function PlaceholderText(id: string): string {
    "[" + LabelText(id) + "] This is a sample post text. Click \"Regenerate Text\" to get a new version."
  }

  const PlaceholderHashtags: string := "#sample #hashtags"

  /** The placeholder text is never blank, which is what makes the fill idempotent. */
  lemma {:induction false} PlaceholderNotBlank(id: string)
    ensures !IsBlank(PlaceholderText(id))
  {
    BlankIffAllWhitespace(PlaceholderText(id));
    assert PlaceholderText(id)[0] == '[';
  }

  /** The mapping applied to each post by the placeholder effect. */
  function FillOne(p: Post): Post {
    if IsBlank(p.text) then p.(text := PlaceholderText(p.id), hashtags := PlaceholderHashtags)
    else p
  }

  /** `platformPosts.map(...)` of the placeholder effect: every post whose trimmed text is
      empty gets the sample text for its platform and the sample hashtags; every other post
      is kept as it is. */
  function FillPlaceholders(posts: seq<Post>): (r: seq<Post>)
    ensures |r| == |posts| && Ids(r) == Ids(posts)
    ensures forall i :: 0 <= i < |posts| && IsBlank(posts[i].text) ==>
              r[i] == Post(posts[i].id, PlaceholderText(posts[i].id), PlaceholderHashtags)
    ensures forall i :: 0 <= i < |posts| && !IsBlank(posts[i].text) ==> r[i] == posts[i]
  {
    if posts == [] then [] else [FillOne(posts[0])] + FillPlaceholders(posts[1..])
  }

  /** After the fill no post text is blank. */
  lemma {:induction false} FillLeavesNoBlankText(posts: seq<Post>)
    ensures forall i :: 0 <= i < |posts| ==> !IsBlank(FillPlaceholders(posts)[i].text)
  {
    forall i | 0 <= i < |posts| ensures !IsBlank(FillPlaceholders(posts)[i].text) {
      PlaceholderNotBlank(posts[i].id);
    }
  }

  /** Filling twice is filling once. */
  lemma {:induction false} FillPlaceholdersIdempotent(posts: seq<Post>)
    ensures FillPlaceholders(FillPlaceholders(posts)) == FillPlaceholders(posts)
  {
    FillLeavesNoBlankText(posts);
  }

  /** `handleFieldChange(id, field, value)`: the chosen field of the post(s) with this id
      becomes `value`; everything else is kept. */
  function EditField(posts: seq<Post>, id: string, field: Field, value: string): (r: seq<Post>)
    ensures |r| == |posts| && Ids(r) == Ids(posts)
    ensures forall i :: 0 <= i < |posts| && posts[i].id == id ==>
              r[i] == (match field
                       case Text => posts[i].(text := value)
                       case Hashtags => posts[i].(hashtags := value))
    ensures forall i :: 0 <= i < |posts| && posts[i].id != id ==> r[i] == posts[i]
  {
    if posts == [] then []
    else
      var p := posts[0];
      var q := if p.id != id then p
               else match field
                    case Text => p.(text := value)
                    case Hashtags => p.(hashtags := value);
      [q] + EditField(posts[1..], id, field, value)
  }

  /** Two edits of the same field of the same post: the later one wins. */
  lemma {:induction false} EditFieldLastWins(posts: seq<Post>, id: string, field: Field, v1: string, v2: string)
    ensures EditField(EditField(posts, id, field, v1), id, field, v2) == EditField(posts, id, field, v2)
  {
    var a := EditField(EditField(posts, id, field, v1), id, field, v2);
    var b := EditField(posts, id, field, v2);
    assert |a| == |b|;
    forall i | 0 <= i < |a| ensures a[i] == b[i] {
      if posts[i].id == id { match field { case Text => case Hashtags => } }
    }
  }

  /** The text written by `handleRegenerate`; `time` is `new Date().toLocaleTimeString()`. */
  function RegeneratedText(id: string, time: string): string {
    "[" + LabelText(id) + "] Regenerated post text at " + time + ". This is a new version of the post text."
  }

  const RegeneratedHashtags: string := "#regenerated #new #hashtags"

  /** The list `handleRegenerate(id)` stores: the post(s) with this id get a fresh text and the
      regenerated hashtags, all others are kept. */
  function Regenerated(posts: seq<Post>, id: string, time: string): (r: seq<Post>)
    ensures |r| == |posts| && Ids(r) == Ids(posts)
    ensures forall i :: 0 <= i < |posts| && posts[i].id == id ==>
              r[i] == Post(id, RegeneratedText(id, time), RegeneratedHashtags)
    ensures forall i :: 0 <= i < |posts| && posts[i].id != id ==> r[i] == posts[i]
  {
    if posts == [] then []
    else
      var p := posts[0];
      var q := if p.id == id then p.(text := RegeneratedText(id, time), hashtags := RegeneratedHashtags) else p;
      [q] + Regenerated(posts[1..], id, time)
  }

  /** The handler builds its list from the posts it captured when clicked, so an edit of
      another post made while the regeneration is pending is overwritten by the stale text. */
  lemma {:induction false} RegenerateOverwritesPendingEdit(captured: seq<Post>, id: string, time: string,
                                         k: nat, value: string)
    requires k < |captured| && captured[k].id != id && captured[k].text != value
    ensures var edited := EditField(captured, captured[k].id, Text, value);
      && edited[k].text == value
      && Regenerated(captured, id, time)[k].text != value
  {
  }

  /** `platformPosts.filter(post => selectedPlatforms.includes(post.id))`. */
  function Shown(posts: seq<Post>, selected: seq<string>): (r: seq<Post>)
    ensures forall p :: p in r <==> p in posts && p.id in selected
    ensures Ids(r) == FilterIn(Ids(posts), selected)
  {
    if posts == [] then []
    else
      assert Ids(posts)[1..] == Ids(posts[1..]);
      (if posts[0].id in selected then [posts[0]] else []) + Shown(posts[1..], selected)
  }

  /** Since the page keeps one post per platform in registry order, the shown posts follow
      the registry order, not the order in which platforms were selected. */
  lemma {:induction false} ShownInRegistryOrder(posts: seq<Post>, selected: seq<string>)
    requires Ids(posts) == PlatformIds
    ensures Ids(Shown(posts, selected)) == FilterIn(PlatformIds, selected)
  {
  }

  /** The editor's own state: which platforms have a regeneration pending. */
  class TextOptionsPanel {
    var regenLoading: map<string, bool>

    constructor ()
      ensures regenLoading == map[]
    {
      regenLoading := map[];
    }

    /** `handleRegenerate(id)`, with the delay as one atomic step: the flag for `id` is set,
        the list is computed from `captured` (the posts the click handler closed over), the
        flag is cleared. Returns the list handed to `setPlatformPosts`. */
    method Regenerate(captured: seq<Post>, id: string, time: string) returns (posts: seq<Post>)
      modifies this
      ensures regenLoading == old(regenLoading)[id := false]
      ensures posts == Regenerated(captured, id, time)
    {
      regenLoading := regenLoading[id := true];
      posts := Regenerated(captured, id, time);
      regenLoading := regenLoading[id := false];
    }
  }
}
