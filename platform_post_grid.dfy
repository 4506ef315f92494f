/** The review grid of step 4: per-platform local records (image and draft/ready status)
    kept in step with the platform selection, the approval toggle, the approvals reported to
    the page, and the rows of the CSV export with their timestamp. */
module PlatformPostGrid {
  import opened Base
  import opened Strings
  import opened Registry
  import opened ExportTimestamp

  datatype Status = Draft | Ready

  /** The grid's own record per platform. Its three UI flags (`showPromptEdit`,
      `isRegenImageLoading`, `isRegenTextLoading`) are always false and are not modelled. */
  datatype LocalPost = LocalPost(id: string, imageUrl: string, imagePrompt: string, status: Status)

  /** Which success dialog is open. */
  datatype Modal = BufferModal | CsvModal

  const DefaultImagePrompt: string := "A professional, clean, and modern image"

  /** `x || d` for an optional string: a missing or empty value falls back to `d`. */
  function OrElse(x: Option<string>, d: string): (r: string)
    ensures r == d || (x.Some? && x.value != "" && r == x.value)
    ensures x.Some? && x.value != "" ==> r == x.value
  {
    if x.Some? && x.value != "" then x.value else d
  }

  function FallbackImageUrl(n: nat): string {
    "https://picsum.photos/800/600?random=" + NatToString(n)
  }

  /** A fresh record for platform `id`; `n` numbers its fallback image. */
  function NewLocalPost(id: string, n: nat, imageUrl: Option<string>, imagePrompt: Option<string>): LocalPost {
    LocalPost(id, OrElse(imageUrl, FallbackImageUrl(n)), OrElse(imagePrompt, DefaultImagePrompt), Draft)
  }

  /** The ids of a list of local records, in order. */
  function LocalIds(local: seq<LocalPost>): (r: seq<string>)
    ensures |r| == |local|
    ensures forall i :: 0 <= i < |local| ==> r[i] == local[i].id
  {
    if local == [] then [] else [local[0].id] + LocalIds(local[1..])
  }

  /** The initial records: the selected platforms in registry order, all drafts, the
      fallback images numbered by position in that filtered list. */
  function InitLocalPosts(selected: seq<string>, imageUrl: Option<string>, imagePrompt: Option<string>)
    : (r: seq<LocalPost>)
    ensures LocalIds(r) == FilterIn(PlatformIds, selected)
    ensures forall i :: 0 <= i < |r| ==> r[i] == NewLocalPost(r[i].id, i + 1, imageUrl, imagePrompt)
    ensures forall i :: 0 <= i < |r| ==> r[i].status == Draft
  {
    var ids := FilterIn(PlatformIds, selected);
    seq(|ids|, i requires 0 <= i < |ids| => NewLocalPost(ids[i], i + 1, imageUrl, imagePrompt))
  }

  /** `prevPosts.filter(p => selectedPlatforms.includes(p.id))`. */
  function KeepSelected(local: seq<LocalPost>, selected: seq<string>): (r: seq<LocalPost>)
    ensures LocalIds(r) == FilterIn(LocalIds(local), selected)
  {
    if local == [] then []
    else
      assert LocalIds(local)[1..] == LocalIds(local[1..]);
      (if local[0].id in selected then [local[0]] else []) + KeepSelected(local[1..], selected)
  }

  /** The filter keeps exactly the records of selected platforms. */
  lemma {:induction false} KeepSelectedMembers(local: seq<LocalPost>, selected: seq<string>)
    ensures forall p :: p in KeepSelected(local, selected) <==> p in local && p.id in selected
  {
    if local != [] {
      KeepSelectedMembers(local[1..], selected);
      assert local == [local[0]] + local[1..];
    }
  }

  /** The records the sync loop appends for positions below `n` of the registry `reg` (the
      grid walks `PlatformIds`): each selected platform that `kept` lacks, in registry
      order, as a draft numbered by its registry position. */
  function Missing(reg: seq<string>, kept: seq<LocalPost>, selected: seq<string>, imageUrl: Option<string>,
                   imagePrompt: Option<string>, n: nat): (r: seq<LocalPost>)
    requires n <= |reg|
    ensures forall k :: 0 <= k < |r| ==> r[k].status == Draft
  {
    if n == 0 then []
    else
      var p := reg[n - 1];
      var prefix := Missing(reg, kept, selected, imageUrl, imagePrompt, n - 1);
      if p in selected && p !in LocalIds(kept) then prefix + [NewLocalPost(p, n, imageUrl, imagePrompt)]
      else prefix
  }

  /** The ids `Missing` appends: the registry ids below `n` that are selected and not
      `present`, in registry order. */
  function Wanted(reg: seq<string>, selected: seq<string>, present: seq<string>, n: nat): seq<string>
    requires n <= |reg|
  {
    if n == 0 then []
    else
      var p := reg[n - 1];
      Wanted(reg, selected, present, n - 1) + (if p in selected && p !in present then [p] else [])
  }

  lemma {:induction false} MissingIdsAreWanted(reg: seq<string>, kept: seq<LocalPost>, selected: seq<string>,
                                               imageUrl: Option<string>, imagePrompt: Option<string>, n: nat)
    requires n <= |reg|
    ensures LocalIds(Missing(reg, kept, selected, imageUrl, imagePrompt, n)) == Wanted(reg, selected, LocalIds(kept), n)
  {
    if n > 0 {
      MissingIdsAreWanted(reg, kept, selected, imageUrl, imagePrompt, n - 1);
      var p := reg[n - 1];
      var prefix := Missing(reg, kept, selected, imageUrl, imagePrompt, n - 1);
      if p in selected && p !in LocalIds(kept) {
        assert LocalIds(Missing(reg, kept, selected, imageUrl, imagePrompt, n)) == LocalIds(prefix) + [p] by {
          var post := NewLocalPost(p, n, imageUrl, imagePrompt);
          assert Missing(reg, kept, selected, imageUrl, imagePrompt, n) == prefix + [post];
          LocalIdsConcat(prefix, [post]);
          assert LocalIds([post]) == [p];
        }
        assert Wanted(reg, selected, LocalIds(kept), n) == Wanted(reg, selected, LocalIds(kept), n - 1) + [p];
      } else {
        assert Missing(reg, kept, selected, imageUrl, imagePrompt, n) == prefix;
        assert Wanted(reg, selected, LocalIds(kept), n) == Wanted(reg, selected, LocalIds(kept), n - 1);
      }
    } else {
      assert LocalIds([]) == [];
    }
  }

  /** The wanted ids are selected registry ids below `n` that are not present. */
  lemma {:induction false} WantedWithin(reg: seq<string>, selected: seq<string>, present: seq<string>, n: nat)
    requires n <= |reg|
    ensures forall x :: x in Wanted(reg, selected, present, n) ==> x in reg[..n] && x in selected && x !in present
  {
    if n > 0 {
      WantedWithin(reg, selected, present, n - 1);
      assert reg[..n] == reg[..n - 1] + [reg[n - 1]];
    }
  }

  /** Every selected registry id below `n` that is not present is wanted. */
  lemma {:induction false} WantedCovers(reg: seq<string>, selected: seq<string>, present: seq<string>, n: nat)
    requires n <= |reg|
    ensures forall j :: 0 <= j < n && reg[j] in selected && reg[j] !in present ==> reg[j] in Wanted(reg, selected, present, n)
  {
    if n > 0 {
      WantedCovers(reg, selected, present, n - 1);
      var prefix := Wanted(reg, selected, present, n - 1);
      assert forall x :: x in prefix ==> x in Wanted(reg, selected, present, n);
    }
  }

  /** The wanted ids of a duplicate-free registry are distinct. */
  lemma {:induction false} WantedNoDup(reg: seq<string>, selected: seq<string>, present: seq<string>, n: nat)
    requires NoDup(reg) && n <= |reg|
    ensures NoDup(Wanted(reg, selected, present, n))
  {
    if n > 0 {
      WantedNoDup(reg, selected, present, n - 1);
      var p := reg[n - 1];
      if p in selected && p !in present {
        WantedWithin(reg, selected, present, n - 1);
        AppendLaterId(reg, Wanted(reg, selected, present, n - 1), n - 1);
      }
    }
  }

  /** Appending the registry id at position `k` to distinct ids taken from the positions
      before `k` keeps them distinct. */
  lemma {:induction false} AppendLaterId(reg: seq<string>, a: seq<string>, k: nat)
    requires NoDup(reg) && k < |reg| && NoDup(a)
    requires forall x :: x in a ==> x in reg[..k]
    ensures NoDup(a + [reg[k]])
  {
    NotBefore(reg, k);
    AppendNoDup(a, reg[k]);
  }

  /** A registry id does not occur before its own position. */
  lemma {:induction false} NotBefore(reg: seq<string>, k: nat)
    requires NoDup(reg) && k < |reg|
    ensures reg[k] !in reg[..k]
  {
    forall i | 0 <= i < k ensures reg[..k][i] != reg[k] {
      assert reg[..k][i] == reg[i];
    }
  }

  lemma {:induction false} AppendNoDup(a: seq<string>, x: string)
    requires NoDup(a) && x !in a
    ensures NoDup(a + [x])
  {
  }

  /** The appended records have distinct ids, none of them at a registry position from `n`
      on; they are exactly the selected registry platforms below `n` that `kept` lacks. */
  lemma {:induction false} MissingIds(reg: seq<string>, kept: seq<LocalPost>, selected: seq<string>,
                                      imageUrl: Option<string>, imagePrompt: Option<string>, n: nat)
    requires NoDup(reg)
    requires n <= |reg|
    ensures var ids := LocalIds(Missing(reg, kept, selected, imageUrl, imagePrompt, n));
      && NoDup(ids)
      && (forall j :: n <= j < |reg| ==> reg[j] !in ids)
      && (forall x :: x in ids ==> x in reg && x in selected && x !in LocalIds(kept))
      && (forall j :: 0 <= j < n && reg[j] in selected && reg[j] !in LocalIds(kept)
            ==> reg[j] in ids)
  {
    var present := LocalIds(kept);
    MissingIdsAreWanted(reg, kept, selected, imageUrl, imagePrompt, n);
    WantedWithin(reg, selected, present, n);
    WantedCovers(reg, selected, present, n);
    WantedNoDup(reg, selected, present, n);
    var ids := Wanted(reg, selected, present, n);
    forall j | n <= j < |reg| ensures reg[j] !in ids {
      NotInPrefix(reg, n, j);
    }
  }

  /** A registry id at position `j >= n` is not among the first `n`. */
  lemma {:induction false} NotInPrefix(reg: seq<string>, n: nat, j: nat)
    requires NoDup(reg) && n <= j < |reg|
    ensures reg[j] !in reg[..n]
  {
    forall i | 0 <= i < n ensures reg[..n][i] != reg[j] {
      assert reg[..n][i] == reg[i];
    }
  }

  /** The sync effect: the surviving records first, unchanged, then the missing ones. */
  function Synced(local: seq<LocalPost>, selected: seq<string>, imageUrl: Option<string>,
                  imagePrompt: Option<string>): seq<LocalPost>
  {
    var kept := KeepSelected(local, selected);
    kept + Missing(PlatformIds, kept, selected, imageUrl, imagePrompt, |PlatformIds|)
  }

  lemma {:induction false} LocalIdsConcat(a: seq<LocalPost>, b: seq<LocalPost>)
    ensures LocalIds(a + b) == LocalIds(a) + LocalIds(b)
  {
  }

  /** After a sync from duplicate-free records, the record ids are exactly the selected
      registry platforms, each once. */
  lemma {:induction false} SyncedIdsAreSelection(local: seq<LocalPost>, selected: seq<string>,
                              imageUrl: Option<string>, imagePrompt: Option<string>)
    requires IsSelection(selected) && NoDup(LocalIds(local))
    ensures var r := Synced(local, selected, imageUrl, imagePrompt);
      && NoDup(LocalIds(r))
      && (forall x :: x in LocalIds(r) <==> x in PlatformIds && x in selected)
      && (forall lp :: lp in local && lp.id in selected ==> lp in r)
  {
    var kept := KeepSelected(local, selected);
    KeepSelectedMembers(local, selected);
    var missing := Missing(PlatformIds, kept, selected, imageUrl, imagePrompt, |PlatformIds|);
    LocalIdsConcat(kept, missing);
    FilterInNoDup(LocalIds(local), selected);
    RegistryIdsDistinct();
    MissingIds(PlatformIds, kept, selected, imageUrl, imagePrompt, |PlatformIds|);
    var a, b := LocalIds(kept), LocalIds(missing);
    forall i, j | 0 <= i < j < |a + b| ensures (a + b)[i] != (a + b)[j] {
      if j < |a| {
        assert (a + b)[i] == a[i] && (a + b)[j] == a[j];
      } else if i >= |a| {
        assert (a + b)[i] == b[i - |a|] && (a + b)[j] == b[j - |a|];
      } else {
        assert (a + b)[i] == a[i] && (a + b)[j] == b[j - |a|];
        assert b[j - |a|] in b;
      }
    }
  }

  /** Syncing an already synced list with the same selection changes nothing. */
  lemma {:induction false} SyncedIdempotent(local: seq<LocalPost>, selected: seq<string>,
                         imageUrl: Option<string>, imagePrompt: Option<string>)
    requires IsSelection(selected) && NoDup(LocalIds(local))
    ensures var r := Synced(local, selected, imageUrl, imagePrompt);
      Synced(r, selected, imageUrl, imagePrompt) == r
  {
    var r := Synced(local, selected, imageUrl, imagePrompt);
    SyncedIdsAreSelection(local, selected, imageUrl, imagePrompt);
    forall i | 0 <= i < |r| ensures r[i].id in selected {
      assert LocalIds(r)[i] in LocalIds(r);
    }
    AllSelectedKept(r, selected);
    NothingMissing(PlatformIds, r, selected, imageUrl, imagePrompt, |PlatformIds|);
  }

  lemma {:induction false} AllSelectedKept(local: seq<LocalPost>, selected: seq<string>)
    requires forall i :: 0 <= i < |local| ==> local[i].id in selected
    ensures KeepSelected(local, selected) == local
  {
    if local != [] {
      var tail := local[1..];
      assert forall i :: 0 <= i < |tail| ==> tail[i].id in selected by {
        forall i | 0 <= i < |tail| ensures tail[i].id in selected {
          assert tail[i] == local[i + 1];
        }
      }
      AllSelectedKept(tail, selected);
      assert [local[0]] + tail == local;
    }
  }

  lemma {:induction false} NothingMissing(reg: seq<string>, kept: seq<LocalPost>, selected: seq<string>,
                       imageUrl: Option<string>, imagePrompt: Option<string>, n: nat)
    requires n <= |reg|
    requires forall x :: x in reg && x in selected ==> x in LocalIds(kept)
    ensures Missing(reg, kept, selected, imageUrl, imagePrompt, n) == []
  {
    if n > 0 {
      NothingMissing(reg, kept, selected, imageUrl, imagePrompt, n - 1);
    }
  }

  /** The sync effect's first run, right after the initial records are built, changes
      nothing, although the two number their fallback images differently. */
  lemma {:induction false} SyncAfterInit(selected: seq<string>, imageUrl: Option<string>, imagePrompt: Option<string>)
    requires IsSelection(selected)
    ensures var init := InitLocalPosts(selected, imageUrl, imagePrompt);
      Synced(init, selected, imageUrl, imagePrompt) == init
  {
    var init := InitLocalPosts(selected, imageUrl, imagePrompt);
    forall i | 0 <= i < |init| ensures init[i].id in selected {
      assert LocalIds(init)[i] in FilterIn(PlatformIds, selected);
    }
    AllSelectedKept(init, selected);
    NothingMissing(PlatformIds, init, selected, imageUrl, imagePrompt, |PlatformIds|);
  }

  /** One turn of the sync loop keeps `updated == kept + Missing(reg, .., i)`: the platform at
      registry position `i` is absent from the records appended so far, so testing the
      growing list is testing `kept`. */
  lemma {:induction false} SyncStep(reg: seq<string>, kept: seq<LocalPost>, updated: seq<LocalPost>, selected: seq<string>,
                 imageUrl: Option<string>, imagePrompt: Option<string>, i: nat)
    requires NoDup(reg)
    requires i < |reg|
    requires updated == kept + Missing(reg, kept, selected, imageUrl, imagePrompt, i)
    ensures var p := reg[i];
      (if p in selected && p !in LocalIds(updated)
       then updated + [NewLocalPost(p, i + 1, imageUrl, imagePrompt)] else updated)
      == kept + Missing(reg, kept, selected, imageUrl, imagePrompt, i + 1)
  {
    var before := Missing(reg, kept, selected, imageUrl, imagePrompt, i);
    var p := reg[i];
    assert p !in LocalIds(before) by {
      MissingIdsAreWanted(reg, kept, selected, imageUrl, imagePrompt, i);
      WantedWithin(reg, selected, LocalIds(kept), i);
      NotBefore(reg, i);
    }
    assert p in LocalIds(updated) <==> p in LocalIds(kept) by {
      LocalIdsConcat(kept, before);
    }
    if p in selected && p !in LocalIds(kept) {
      var added := NewLocalPost(p, i + 1, imageUrl, imagePrompt);
      assert (kept + before) + [added] == kept + (before + [added]);
    }
  }

  /** `handleApproveChange(id, value)`: the status of the record(s) with this id becomes
      `value`; every other record is kept. */
  function SetStatus(local: seq<LocalPost>, id: string, value: Status): (r: seq<LocalPost>)
    ensures |r| == |local| && LocalIds(r) == LocalIds(local)
    ensures forall i :: 0 <= i < |local| && local[i].id == id ==> r[i] == local[i].(status := value)
    ensures forall i :: 0 <= i < |local| && local[i].id != id ==> r[i] == local[i]
  {
    if local == [] then []
    else [if local[0].id == id then local[0].(status := value) else local[0]] + SetStatus(local[1..], id, value)
  }

  /** The value the approve button passes: the opposite of the record's current status. */
  function Flipped(s: Status): Status {
    if s == Ready then Draft else Ready
  }

  /** Two status changes of the same id: the second one wins. */
  lemma {:induction false} SetStatusLastWins(local: seq<LocalPost>, id: string, v: Status, w: Status)
    ensures SetStatus(SetStatus(local, id, v), id, w) == SetStatus(local, id, w)
  {
    if local != [] {
      SetStatusLastWins(local[1..], id, v, w);
      assert SetStatus(local, id, v)[1..] == SetStatus(local[1..], id, v);
    }
  }

  /** Setting a record to the status it already has changes nothing, provided the id is
      carried by that record alone. */
  lemma {:induction false} SetStatusUnchanged(local: seq<LocalPost>, i: nat)
    requires i < |local| && NoDup(LocalIds(local))
    ensures SetStatus(local, local[i].id, local[i].status) == local
  {
    var r := SetStatus(local, local[i].id, local[i].status);
    forall j | 0 <= j < |local| ensures r[j] == local[j] {
      if j != i {
        OtherIdDiffers(local, i, j);
      }
    }
  }

  lemma {:induction false} OtherIdDiffers(local: seq<LocalPost>, i: nat, j: nat)
    requires i < |local| && j < |local| && i != j && NoDup(LocalIds(local))
    ensures local[j].id != local[i].id
  {
    var ids := LocalIds(local);
    assert ids[i] == local[i].id && ids[j] == local[j].id;
    if j < i {
      assert ids[j] != ids[i];
    } else {
      assert ids[i] != ids[j];
    }
  }

  /** Pressing the approve button of a record twice restores the records. */
  lemma {:induction false} ApproveTwiceRestores(local: seq<LocalPost>, i: nat)
    requires i < |local| && NoDup(LocalIds(local))
    ensures var once := SetStatus(local, local[i].id, Flipped(local[i].status));
      SetStatus(once, local[i].id, Flipped(once[i].status)) == local
  {
    var once := SetStatus(local, local[i].id, Flipped(local[i].status));
    assert Flipped(once[i].status) == local[i].status;
    SetStatusLastWins(local, local[i].id, Flipped(local[i].status), local[i].status);
    SetStatusUnchanged(local, i);
  }

  /** The approvals reported to the page: `status === 'ready'` for each record of a selected
      platform, in record order. */
  function Approvals(local: seq<LocalPost>, selected: seq<string>): (r: seq<bool>)
    ensures |r| == |KeepSelected(local, selected)|
    ensures forall k :: 0 <= k < |r| ==> (r[k] <==> KeepSelected(local, selected)[k].status == Ready)
  {
    var shown := KeepSelected(local, selected);
    seq(|shown|, k requires 0 <= k < |shown| => shown[k].status == Ready)
  }

  /** Some approval is reported true exactly when some record of a selected platform is
      ready: the page's `anyPostApproved`. */
  predicate SomeReady(local: seq<LocalPost>, selected: seq<string>) {
    exists lp :: lp in local && lp.id in selected && lp.status == Ready
  }

  /** Every record of a selected platform is ready, and there is at least one. */
  predicate AllReady(local: seq<LocalPost>, selected: seq<string>) {
    var shown := KeepSelected(local, selected);
    |shown| > 0 && forall k :: 0 <= k < |shown| ==> shown[k].status == Ready
  }

  lemma {:induction false} AnyApprovalIffSomeReady(local: seq<LocalPost>, selected: seq<string>)
    ensures (exists k :: 0 <= k < |Approvals(local, selected)| && Approvals(local, selected)[k])
        <==> SomeReady(local, selected)
  {
    var r := Approvals(local, selected);
    if SomeReady(local, selected) {
      ReadyGivesApproval(local, selected);
    }
    if exists k :: 0 <= k < |r| && r[k] {
      var k :| 0 <= k < |r| && r[k];
      ApprovalGivesReady(local, selected, k);
    }
  }

  lemma {:induction false} ReadyGivesApproval(local: seq<LocalPost>, selected: seq<string>)
    requires SomeReady(local, selected)
    ensures exists k :: 0 <= k < |Approvals(local, selected)| && Approvals(local, selected)[k]
  {
    var shown := KeepSelected(local, selected);
    KeepSelectedMembers(local, selected);
    var lp :| lp in local && lp.id in selected && lp.status == Ready;
    assert lp in shown;
    var k :| 0 <= k < |shown| && shown[k] == lp;
    assert Approvals(local, selected)[k];
  }

  lemma {:induction false} ApprovalGivesReady(local: seq<LocalPost>, selected: seq<string>, k: nat)
    requires k < |Approvals(local, selected)| && Approvals(local, selected)[k]
    ensures SomeReady(local, selected)
  {
    var shown := KeepSelected(local, selected);
    KeepSelectedMembers(local, selected);
    var lp := shown[k];
    assert lp in shown && lp.status == Ready;
    assert lp in local && lp.id in selected;
  }

  /** All approvals are reported true, and there is one, exactly when all records of
      selected platforms are ready and there is one: the page's approve tick. */
  lemma {:induction false} AllApprovedIffAllReady(local: seq<LocalPost>, selected: seq<string>)
    ensures var r := Approvals(local, selected);
      (|r| > 0 && forall k :: 0 <= k < |r| ==> r[k]) <==> AllReady(local, selected)
  {
    var shown := KeepSelected(local, selected);
    var r := Approvals(local, selected);
    assert |r| == |shown|;
    if |r| > 0 && forall k :: 0 <= k < |r| ==> r[k] {
      forall k | 0 <= k < |shown| ensures shown[k].status == Ready {
        assert r[k];
      }
    }
  }

  /** The export and push buttons are disabled when no record at all is ready. */
  predicate ExportDisabled(local: seq<LocalPost>) {
    forall i :: 0 <= i < |local| ==> local[i].status != Ready
  }

  const CsvHeader: string := "Platform,Content,Hashtags,Image URL,Status,Created Date & Time"

  /** The records that are both selected and ready (`filteredLocalPosts`). */
  function ReadyLocal(local: seq<LocalPost>, selected: seq<string>): (r: seq<LocalPost>)
    ensures forall lp :: lp in r <==> lp in local && lp.id in selected && lp.status == Ready
  {
    if local == [] then []
    else (if local[0].id in selected && local[0].status == Ready then [local[0]] else [])
         + ReadyLocal(local[1..], selected)
  }

  /** `filteredPlatformPosts`: the posts that have a selected, ready record, in post order. */
  function ExportedPosts(posts: seq<Post>, ready: seq<LocalPost>): (r: seq<Post>)
    ensures forall p :: p in r <==> p in posts && p.id in LocalIds(ready)
    ensures Ids(r) == FilterIn(Ids(posts), LocalIds(ready))
  {
    if posts == [] then []
    else
      assert Ids(posts)[1..] == Ids(posts[1..]);
      (if posts[0].id in LocalIds(ready) then [posts[0]] else []) + ExportedPosts(posts[1..], ready)
  }

  /** `filteredLocalPosts.find(lp => lp.id === id)`. */
  function FindLocal(local: seq<LocalPost>, id: string): (r: Option<LocalPost>)
    ensures r.Some? <==> id in LocalIds(local)
    ensures r.Some? ==> r.value in local && r.value.id == id
  {
    if local == [] then None
    else if local[0].id == id then Some(local[0])
    else FindLocal(local[1..], id)
  }

  function StatusText(s: Status): string {
    if s == Ready then "ready" else "draft"
  }

  /** One CSV row: label (empty when the id is unknown, as `join` prints `undefined` as the
      empty string),
      quoted text and hashtags, image URL, status and timestamp. */
  function CsvRow(p: Post, lp: Option<LocalPost>, timestamp: string): string {
    Join([LabelOf(p.id).GetOr(""),
          JsonQuote(p.text),
          JsonQuote(p.hashtags),
          if lp.Some? then lp.value.imageUrl else "",
          if lp.Some? then StatusText(lp.value.status) else "draft",
          timestamp], ",")
  }

  function CsvRows(exported: seq<Post>, ready: seq<LocalPost>, timestamp: string): (r: seq<string>)
    ensures |r| == |exported|
    ensures forall k :: 0 <= k < |r| ==> r[k] == CsvRow(exported[k], FindLocal(ready, exported[k].id), timestamp)
  {
    if exported == [] then []
    else [CsvRow(exported[0], FindLocal(ready, exported[0].id), timestamp)] + CsvRows(exported[1..], ready, timestamp)
  }

  /** `csvRows` of `handleExportCSV`: the header, then one row per post whose platform is
      selected and ready, in post order. */
  function ExportRows(local: seq<LocalPost>, selected: seq<string>, posts: seq<Post>, timestamp: string)
    : (rows: seq<string>)
    ensures |rows| >= 1 && rows[0] == CsvHeader
    ensures |rows| == 1 + |ExportedPosts(posts, ReadyLocal(local, selected))|
  {
    var ready := ReadyLocal(local, selected);
    [CsvHeader] + CsvRows(ExportedPosts(posts, ready), ready, timestamp)
  }

  /** Every exported row is for a selected, ready record, so its status column reads
      "ready". */
  lemma {:induction false} ExportedRowsAreReady(local: seq<LocalPost>, selected: seq<string>, posts: seq<Post>, timestamp: string, k: nat)
    requires k < |ExportedPosts(posts, ReadyLocal(local, selected))|
    ensures var ready := ReadyLocal(local, selected);
      var p := ExportedPosts(posts, ready)[k];
      var lp := FindLocal(ready, p.id);
      && lp.Some? && lp.value in local && lp.value.id in selected && lp.value.status == Ready
      && ExportRows(local, selected, posts, timestamp)[k + 1] == CsvRow(p, lp, timestamp)
  {
    var ready := ReadyLocal(local, selected);
    var p := ExportedPosts(posts, ready)[k];
    assert p in ExportedPosts(posts, ready);
  }

  /** With one post per platform in registry order (as the page keeps them), the export
      rows are exactly the selected, ready platforms, in registry order, not selection
      order. */
  lemma {:induction false} ExportFollowsRegistryOrder(local: seq<LocalPost>, selected: seq<string>, posts: seq<Post>)
    requires Ids(posts) == PlatformIds
    ensures var ready := ReadyLocal(local, selected);
      Ids(ExportedPosts(posts, ready)) == FilterIn(PlatformIds, LocalIds(ready))
  {
  }

  /** With no selected record ready, the export is the header alone. */
  lemma {:induction false} NothingReadyExportsHeaderOnly(local: seq<LocalPost>, selected: seq<string>, posts: seq<Post>, timestamp: string)
    requires forall lp :: lp in local && lp.id in selected ==> lp.status != Ready
    ensures ExportRows(local, selected, posts, timestamp) == [CsvHeader]
  {
    ReadyLocalEmpty(local, selected);
  }

  lemma {:induction false} ReadyLocalEmpty(local: seq<LocalPost>, selected: seq<string>)
    requires forall lp :: lp in local && lp.id in selected ==> lp.status != Ready
    ensures ReadyLocal(local, selected) == []
  {
    if local != [] {
      assert local[0] in local;
      ReadyLocalEmpty(local[1..], selected);
    }
  }

  /** Once the records are synced to the selection and every record has a post, the
      buttons are disabled exactly when the export would hold the header alone. */
  lemma {:induction false} DisabledIffHeaderOnly(local: seq<LocalPost>, selected: seq<string>, posts: seq<Post>, timestamp: string)
    requires forall i :: 0 <= i < |local| ==> local[i].id in selected
    requires forall i :: 0 <= i < |local| ==> local[i].id in Ids(posts)
    ensures ExportDisabled(local) <==> ExportRows(local, selected, posts, timestamp) == [CsvHeader]
  {
    var ready := ReadyLocal(local, selected);
    if ExportDisabled(local) {
      NothingReadyExportsHeaderOnly(local, selected, posts, timestamp);
    } else {
      var i :| 0 <= i < |local| && local[i].status == Ready;
      assert local[i] in ready;
      assert local[i].id in LocalIds(ready);
      var j :| 0 <= j < |posts| && Ids(posts)[j] == local[i].id;
      assert posts[j] in ExportedPosts(posts, ready);
    }
  }

  /** One turn of the sync loop: push a draft for the platform at registry position `i`
      when it is selected and not yet present. */
  method SyncTurn(kept: seq<LocalPost>, updated: seq<LocalPost>, selected: seq<string>,
                  imageUrl: Option<string>, imagePrompt: Option<string>, i: nat)
    returns (next: seq<LocalPost>)
    requires i < |PlatformIds|
    requires updated == kept + Missing(PlatformIds, kept, selected, imageUrl, imagePrompt, i)
    ensures next == kept + Missing(PlatformIds, kept, selected, imageUrl, imagePrompt, i + 1)
  {
    var p := PlatformIds[i];
    RegistryIdsDistinct();
    SyncStep(PlatformIds, kept, updated, selected, imageUrl, imagePrompt, i);
    if p in selected && p !in LocalIds(updated) {
      next := updated + [NewLocalPost(p, i + 1, imageUrl, imagePrompt)];
    } else {
      next := updated;
    }
  }

  /** The grid's own state. */
  class ReviewGrid {
    var localPosts: seq<LocalPost>
    var showSuccessModal: Option<Modal>

    /** The state initializer, run when the grid appears. */
    constructor (selected: seq<string>, imageUrl: Option<string>, imagePrompt: Option<string>)
      ensures localPosts == InitLocalPosts(selected, imageUrl, imagePrompt)
      ensures showSuccessModal == None
    {
      localPosts := InitLocalPosts(selected, imageUrl, imagePrompt);
      showSuccessModal := None;
    }

    /** The sync effect: filter the records to the selection, then walk the registry and
        push a draft for every selected platform not yet present. */
    method Sync(selected: seq<string>, imageUrl: Option<string>, imagePrompt: Option<string>)
      modifies this`localPosts
      ensures localPosts == Synced(old(localPosts), selected, imageUrl, imagePrompt)
    {
      var kept := KeepSelected(localPosts, selected);
      var updated := kept;
      var i := 0;
      assert updated == kept + Missing(PlatformIds, kept, selected, imageUrl, imagePrompt, 0);
      while i < |PlatformIds|
        invariant 0 <= i <= |PlatformIds|
        invariant updated == kept + Missing(PlatformIds, kept, selected, imageUrl, imagePrompt, i)
      {
        updated := SyncTurn(kept, updated, selected, imageUrl, imagePrompt, i);
        i := i + 1;
      }
      localPosts := updated;
    }

    /** `handleApproveChange`. */
    method ApproveChange(id: string, value: Status)
      modifies this`localPosts
      ensures localPosts == SetStatus(old(localPosts), id, value)
    {
      localPosts := SetStatus(localPosts, id, value);
    }

    /** `handleExportCSV`: the file text is the rows joined by newlines, and the CSV success
        dialog opens. */
    method ExportCsv(selected: seq<string>, posts: seq<Post>, now: LocalTime) returns (csv: string)
      modifies this`showSuccessModal
      ensures csv == Join(ExportRows(localPosts, selected, posts, FormatTimestamp(now)), "\n")
      ensures showSuccessModal == Some(CsvModal)
    {
      var rows := ExportRows(localPosts, selected, posts, FormatTimestamp(now));
      csv := Join(rows, "\n");
      showSuccessModal := Some(CsvModal);
    }

    /** `handlePushToBuffer`: only the Buffer success dialog opens. */
    method PushToBuffer()
      modifies this`showSuccessModal
      ensures showSuccessModal == Some(BufferModal)
    {
      showSuccessModal := Some(BufferModal);
    }
  }
}
