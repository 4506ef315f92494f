/** The input panel of step 0: the platform toggles, the select-all button and the submit
    handler that calls the (mocked) content service and then `onGenerate`. */
module BlogInputPanel {
  import opened Base
  import opened Strings
  import opened Registry

  /** `selected.filter(q => q !== p)`. */
  function Without(s: seq<string>, p: string): (r: seq<string>)
    ensures p !in r
    ensures forall q :: q != p ==> (q in r <==> q in s)
    ensures p !in s ==> r == s
    ensures NoDup(s) ==> NoDup(r)
  {
    if s == [] then []
    else if s[0] == p then Without(s[1..], p)
    else
      assert NoDup(s) ==> NoDup(s[1..]) && s[0] !in s[1..] by {
        if NoDup(s) {
          forall j | 0 <= j < |s| - 1 ensures s[1..][j] != s[0] {
            assert s[1..][j] == s[j + 1];
          }
        }
      }
      [s[0]] + Without(s[1..], p)
  }

  /** `handlePlatformToggle(p)`: drops `p` when it is selected, appends it otherwise. */
  function Toggle(selected: seq<string>, p: string): (r: seq<string>)
    ensures p in r <==> p !in selected
    ensures forall q :: q != p ==> (q in r <==> q in selected)
    ensures p !in selected ==> r == selected + [p]
  {
    if p in selected then Without(selected, p) else selected + [p]
  }

  /** Toggling the same platform twice gives back the same set of selected platforms. */
  lemma {:induction false} ToggleTwiceRestoresMembership(s: seq<string>, p: string)
    ensures forall q :: q in Toggle(Toggle(s, p), p) <==> q in s
  {
  }

  /** Toggling in a platform that was not selected and toggling it out again gives back
      the very same sequence. */
  lemma {:induction false} ToggleTwiceRestoresSequence(s: seq<string>, p: string)
    requires p !in s
    ensures Toggle(Toggle(s, p), p) == s
  {
    WithoutAppended(s, p);
  }

  lemma {:induction false} WithoutAppended(s: seq<string>, p: string)
    requires p !in s
    ensures Without(s + [p], p) == s
  {
    if s != [] {
      assert (s + [p])[1..] == s[1..] + [p];
      WithoutAppended(s[1..], p);
    } else {
      assert [p][1..] == [];
    }
  }

  /** A toggle keeps a valid selection valid. */
  lemma {:induction false} ToggleKeepsSelection(s: seq<string>, p: string)
    requires IsSelection(s) && p in PlatformIds
    ensures IsSelection(Toggle(s, p))
  {
  }

  /** The select-all button: clears the selection when its length equals the number of
      configured platforms, selects all of them (in configuration order) otherwise. */
  function SelectAll(selected: seq<string>): (r: seq<string>)
    ensures |selected| == |PlatformIds| ==> r == []
    ensures |selected| != |PlatformIds| ==> r == PlatformIds
  {
    if |selected| == |PlatformIds| then [] else PlatformIds
  }

  /** On a valid selection the length test of `SelectAll` means "every platform is
      selected", and its result is again a valid selection. */
  lemma {:induction false} SelectAllOnSelection(s: seq<string>)
    requires IsSelection(s)
    ensures SelectAll(s) == [] <==> forall p :: p in PlatformIds ==> p in s
    ensures IsSelection(SelectAll(s))
  {
    RegistryIdsDistinct();
    if |s| == |PlatformIds| {
      FullNoDupSubsetCoversAll(s, PlatformIds);
    }
    if forall p :: p in PlatformIds ==> p in s {
      assert (set q | q in s) == (set q | q in PlatformIds);
      NoDupCardinality(s);
      NoDupCardinality(PlatformIds);
    }
  }

  /** The early-return guard of `handleSubmit`: content is tested untrimmed. */
  predicate SubmitProceeds(content: string, selected: seq<string>) {
    content != "" && |selected| != 0
  }

  /** The submit button's `disabled` attribute. */
  predicate SubmitDisabled(isLoading: bool, content: string, selected: seq<string>) {
    isLoading || content == "" || |selected| == 0
  }

  /** Outside loading, the button is enabled exactly when the handler would proceed. */
  lemma {:induction false} SubmitButtonMatchesGuard(content: string, selected: seq<string>)
    ensures !SubmitDisabled(false, content, selected) <==> SubmitProceeds(content, selected)
    ensures SubmitDisabled(true, content, selected)
  {
  }

  /** Content made only of white space is accepted by submit, although the page's
      checklist (which trims) shows the content item unchecked. */
  lemma {:induction false} BlankContentIsSubmitted()
    ensures IsBlank(" ") && SubmitProceeds(" ", ["x"])
  {
    assert TrimStart(" ") == "";
  }

  /** The panel's own state. */
  class InputPanel {
    var isLoading: bool

    constructor ()
      ensures !isLoading
    {
      isLoading := false;
    }

    /** `handleSubmit`, with the mocked delay as one atomic step. `callFails` selects the
        `catch` path. Returns whether `onGenerate` was invoked. */
    method Submit(content: string, selected: seq<string>, callFails: bool) returns (generated: bool)
      modifies this
      ensures generated <==> SubmitProceeds(content, selected)
      ensures generated ==> !isLoading
      ensures !generated ==> isLoading == old(isLoading)
    {
      if !SubmitProceeds(content, selected) {
        return false;
      }
      isLoading := true;
      if callFails {
        // the error is logged and swallowed
      }
      // finally
      isLoading := false;
      generated := true;
    }
  }
}
