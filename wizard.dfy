/** The wizard page `Home` of `src/app/page.tsx`: five steps (input, post text, image prompt,
    image generation, final review), the state they share, the handlers that move between
    them and the three effects that invalidate downstream work when upstream content
    changes. The effects are modelled as one `Settle` function that runs after every
    transition. */
module Wizard {
  import opened Base
  import opened Strings
  import opened Registry
  import opened ImagePromptSelector
  import StepIndicator
  import BlogInputPanel
  import PostTextOptions
  import PlatformPostGrid

  const LastStep: nat := 4
  const ImageStep: nat := 3

  /** The upstream values the image batch was generated from. */
  datatype Snapshot = Snapshot(blogContent: string, selectedPlatforms: seq<string>,
                               platformPosts: seq<Post>, selectedPrompt: string)

  /** The state fields of the page that the transitions and effects read or write.
      `selectedPrompt` holds the id of the chosen prompt, not its text. */
  datatype WizardState = WizardState(
    step: nat,
    maxStep: nat,
    blogContent: string,
    selectedPlatforms: seq<string>,
    platformPosts: seq<Post>,
    selectedPrompt: string,
    generatedImages: seq<Image>,
    selectedImageId: string,
    imageGenSnapshot: Snapshot,
    postApprovals: seq<bool>)

  /** The live upstream tuple the snapshot is compared with. */
  function Upstream(s: WizardState): Snapshot {
    Snapshot(s.blogContent, s.selectedPlatforms, s.platformPosts, s.selectedPrompt)
  }

  /** The state the page starts in. The snapshot starts with no posts although the page
      itself starts with one empty post per platform. */
  function Init(): WizardState {
    WizardState(0, 0, "", [], EmptyPosts(), "", [], "", Snapshot("", [], [], ""), [])
  }

  // ---------------------------------------------------------------------------
  // The three invalidation effects

  /** On the image step, a snapshot that differs from the upstream values clears the images
      and the image selection and takes a new snapshot; otherwise nothing changes. */
  function SnapshotEffect(s: WizardState): (r: WizardState)
    ensures r.step == s.step && r.maxStep == s.maxStep && Upstream(r) == Upstream(s)
    ensures r.postApprovals == s.postApprovals
    ensures r.step == ImageStep ==> r.imageGenSnapshot == Upstream(r)
    ensures r != s <==> s.step == ImageStep && s.imageGenSnapshot != Upstream(s)
    ensures r != s ==> r.generatedImages == [] && r.selectedImageId == ""
  {
    if s.step == ImageStep && s.imageGenSnapshot != Upstream(s) then
      s.(generatedImages := [], selectedImageId := "", imageGenSnapshot := Upstream(s))
    else s
  }

  /** Before the image step there are no images and no image selection. */
  function ClearEffect(s: WizardState): (r: WizardState)
    ensures r.step < ImageStep ==> r.generatedImages == [] && r.selectedImageId == ""
    ensures s.step >= ImageStep ==> r == s
    ensures r == s.(generatedImages := r.generatedImages, selectedImageId := r.selectedImageId)
  {
    if s.step < ImageStep then s.(generatedImages := [], selectedImageId := "") else s
  }

  /** Standing before the furthest step reached lowers the furthest step to the current one,
      whether an upstream edit or merely a backward jump caused the re-run. */
  function ClampEffect(s: WizardState): (r: WizardState)
    ensures r.maxStep <= r.step
    ensures r.maxStep == s.maxStep || r.maxStep == s.step
    ensures s.maxStep <= s.step ==> r == s
    ensures r == s.(maxStep := r.maxStep)
  {
    if s.step < s.maxStep then s.(maxStep := s.step) else s
  }

  /** The conditions the three effects establish. */
  predicate Settled(s: WizardState) {
    && s.maxStep <= s.step
    && (s.step < ImageStep ==> s.generatedImages == [] && s.selectedImageId == "")
    && (s.step == ImageStep ==> s.imageGenSnapshot == Upstream(s))
  }

  /** The effects after a render. All three read the values of the same render and write
      disjoint fields (or the same values), so running them one after another gives what
      the page gets. The settled states are exactly the states the effects leave alone,
      and the effects never touch the step, the upstream values or the approvals. */
  function Settle(s: WizardState): (r: WizardState)
    ensures Settled(r)
    ensures Settled(s) <==> r == s
    ensures r.step == s.step && Upstream(r) == Upstream(s) && r.postApprovals == s.postApprovals
    ensures r.maxStep <= s.maxStep
  {
    ClampEffect(ClearEffect(SnapshotEffect(s)))
  }

  /** The effects re-run after their own writes and then change nothing. */
  lemma {:induction false} SettleIdempotent(s: WizardState)
    ensures Settle(Settle(s)) == Settle(s)
  {
    var r := Settle(s);
    assert Settled(r);
  }

  // ---------------------------------------------------------------------------
  // Transitions

  /** `nextStep`: one step forward, never past the review step; the furthest step reached
      follows. */
  function Advanced(s: WizardState): (r: WizardState)
    ensures r.step <= LastStep && r.maxStep >= r.step && r.maxStep >= s.maxStep
    ensures s.step < LastStep ==> r.step == s.step + 1
    ensures s.step >= LastStep ==> r.step == LastStep
    ensures r.maxStep == if s.maxStep < r.step then r.step else s.maxStep
    ensures r == s.(step := r.step, maxStep := r.maxStep)
  {
    var next := if s.step + 1 < LastStep then s.step + 1 else LastStep;
    s.(step := next, maxStep := if s.maxStep < next then next else s.maxStep)
  }

  /** `onStepClick(idx)`: go to `idx` when it is not past the furthest step reached. */
  function Clicked(s: WizardState, idx: nat): (r: WizardState)
    ensures idx <= s.maxStep ==> r.step == idx
    ensures idx > s.maxStep ==> r == s
    ensures r == s.(step := r.step)
  {
    if idx <= s.maxStep then s.(step := idx) else s
  }

  /** The address a regenerated image gets; `now` is `Date.now()`. */
  function RegeneratedUrl(now: nat, imgId: string): string {
    "https://picsum.photos/800/600?random=" + NatToString(now) + "-" + imgId
  }

  /** The image list `handleRegenerateImage(imgId)` stores: the image(s) with this id get a
      new address and keep their id and prompt; every other image is kept. */
  function WithRegeneratedUrl(images: seq<Image>, imgId: string, now: nat): (r: seq<Image>)
    ensures |r| == |images|
    ensures forall i :: 0 <= i < |images| ==> r[i].id == images[i].id && r[i].prompt == images[i].prompt
    ensures forall i :: 0 <= i < |images| && images[i].id == imgId ==> r[i].url == RegeneratedUrl(now, imgId)
    ensures forall i :: 0 <= i < |images| && images[i].id != imgId ==> r[i] == images[i]
  {
    if images == [] then []
    else
      [if images[0].id == imgId then images[0].(url := RegeneratedUrl(now, imgId)) else images[0]]
        + WithRegeneratedUrl(images[1..], imgId, now)
  }

  /** Regenerating an id that no image carries leaves the list as it is. */
  lemma {:induction false} RegenerateUnknownImage(images: seq<Image>, imgId: string, now: nat)
    requires forall i :: 0 <= i < |images| ==> images[i].id != imgId
    ensures WithRegeneratedUrl(images, imgId, now) == images
  {
    if images != [] {
      RegenerateUnknownImage(images[1..], imgId, now);
    }
  }

  /** Regeneration changes exactly one image's address when the ids are distinct. */
  lemma {:induction false} RegenerateChangesOneImage(images: seq<Image>, k: nat, now: nat)
    requires k < |images|
    requires forall i, j :: 0 <= i < j < |images| ==> images[i].id != images[j].id
    ensures var r := WithRegeneratedUrl(images, images[k].id, now);
      && r[k] == images[k].(url := RegeneratedUrl(now, images[k].id))
      && forall i :: 0 <= i < |images| && i != k ==> r[i] == images[i]
  {
    var r := WithRegeneratedUrl(images, images[k].id, now);
    forall i | 0 <= i < |images| && i != k ensures r[i] == images[i] {
      if i < k {
        assert images[i].id != images[k].id;
      } else {
        assert images[k].id != images[i].id;
      }
    }
  }

  /** `handleRunNewSet`: every field back to its initial value, except the image snapshot,
      which the handler does not touch. */
  function ResetState(s: WizardState): (r: WizardState)
    ensures r.step == 0 && r.maxStep == 0
    ensures r.blogContent == "" && r.selectedPlatforms == [] && r.selectedPrompt == ""
    ensures r.generatedImages == [] && r.selectedImageId == "" && r.postApprovals == []
    ensures Ids(r.platformPosts) == PlatformIds
    ensures forall i :: 0 <= i < |r.platformPosts| ==> r.platformPosts[i].text == "" && r.platformPosts[i].hashtags == ""
    ensures r.imageGenSnapshot == s.imageGenSnapshot
  {
    Init().(imageGenSnapshot := s.imageGenSnapshot)
  }

  /** The image the page hands to the review grid: the first image with the selected id. */
  function SelectedImage(images: seq<Image>, id: string): (r: Option<Image>)
    ensures r.Some? <==> exists i :: 0 <= i < |images| && images[i].id == id
    ensures r.Some? ==> r.value in images && r.value.id == id
  {
    if images == [] then None
    else if images[0].id == id then Some(images[0])
    else
      var rest := SelectedImage(images[1..], id);
      assert forall i :: 1 <= i < |images| ==> images[i] == images[1..][i - 1];
      rest
  }

  /** `selectedImageUrl`: the address of the selected image, when one carries the id. */
  function GridImageUrl(s: WizardState): Option<string> {
    match SelectedImage(s.generatedImages, s.selectedImageId)
    case Some(img) => Some(img.url)
    case None => None
  }

  /** `selectedImagePrompt`: the prompt of the selected image, when one carries the id. */
  function GridImagePrompt(s: WizardState): Option<string> {
    match SelectedImage(s.generatedImages, s.selectedImageId)
    case Some(img) => Some(img.prompt)
    case None => None
  }

  /** The cards the review grid builds when it appears carry the selected image: its
      address, and its prompt unless that is empty. */
  lemma {:induction false} ReviewCardsShowChosenImage(s: WizardState, img: Image)
    requires SelectedImage(s.generatedImages, s.selectedImageId) == Some(img) && img.url != ""
    ensures var cards := PlatformPostGrid.InitLocalPosts(s.selectedPlatforms, GridImageUrl(s), GridImagePrompt(s));
      forall lp :: lp in cards ==>
        && lp.imageUrl == img.url
        && lp.imagePrompt == (if img.prompt != "" then img.prompt else PlatformPostGrid.DefaultImagePrompt)
  {
    var cards := PlatformPostGrid.InitLocalPosts(s.selectedPlatforms, GridImageUrl(s), GridImagePrompt(s));
    forall lp | lp in cards
      ensures lp.imageUrl == img.url
      ensures lp.imagePrompt == (if img.prompt != "" then img.prompt else PlatformPostGrid.DefaultImagePrompt)
    {
      var i :| 0 <= i < |cards| && cards[i] == lp;
      assert lp == PlatformPostGrid.NewLocalPost(lp.id, i + 1, Some(img.url), Some(img.prompt));
    }
  }

  /** Resizing from the image step reaches the review step with the batch and the image
      choice untouched, so the grid receives the image chosen on the image step. */
  lemma {:induction false} ResizeKeepsChosenImage(s: WizardState)
    requires Inv(s) && s.step == ImageStep
    ensures var r := Step(s, NextStep);
      && r.step == LastStep
      && r.generatedImages == s.generatedImages && r.selectedImageId == s.selectedImageId
      && GridImageUrl(r) == GridImageUrl(s) && GridImagePrompt(r) == GridImagePrompt(s)
  {
    var a := Advanced(s);
    assert Settled(a);
  }

  /** The user commands and child callbacks that change the page's state. */
  datatype Command =
    | NextStep
    | StepClick(idx: nat)
    | SetBlogContent(content: string)
    | SetSelectedPlatforms(platforms: seq<string>)
    | SetPlatformPosts(posts: seq<Post>)
    | SetSelectedPrompt(promptId: string)
    | CompleteImageBatch(images: seq<Image>)
    | RegenerateImage(imgId: string, now: nat)
    | SelectImage(imgId: string)
    | SetPostApprovals(approvals: seq<bool>)
    | RunNewSet

  /** What a command writes, before the effects run. */
  function Apply(s: WizardState, cmd: Command): WizardState {
    match cmd
    case NextStep => Advanced(s)
    case StepClick(idx) => Clicked(s, idx)
    case SetBlogContent(c) => s.(blogContent := c)
    case SetSelectedPlatforms(p) => s.(selectedPlatforms := p)
    case SetPlatformPosts(p) => s.(platformPosts := p)
    case SetSelectedPrompt(id) => s.(selectedPrompt := id)
    case CompleteImageBatch(images) => Advanced(s.(generatedImages := images, imageGenSnapshot := Upstream(s)))
    case RegenerateImage(imgId, now) => s.(generatedImages := WithRegeneratedUrl(s.generatedImages, imgId, now))
    case SelectImage(imgId) => s.(selectedImageId := imgId)
    case SetPostApprovals(a) => s.(postApprovals := a)
    case RunNewSet => ResetState(s)
  }

  /** One transition: the command, then the effects. */
  function Step(s: WizardState, cmd: Command): (r: WizardState)
    ensures Settled(r)
  {
    Settle(Apply(s, cmd))
  }

  // ---------------------------------------------------------------------------
  // The invariant of the page

  /** What holds of every state the page reaches: the step is in range, the furthest step
      reached IS the current step, the effects have settled, there is one post per platform
      in registry order and the selection is duplicate-free registry ids. */
  predicate Inv(s: WizardState) {
    && s.step <= LastStep
    && s.maxStep == s.step
    && Settled(s)
    && Ids(s.platformPosts) == PlatformIds
    && IsSelection(s.selectedPlatforms)
  }

  /** The values the page's children pass to its setters: a selection of registry ids and
      one post per platform in registry order. */
  predicate WellFormed(cmd: Command) {
    match cmd
    case SetSelectedPlatforms(p) => IsSelection(p)
    case SetPlatformPosts(p) => Ids(p) == PlatformIds
    case _ => true
  }

  lemma {:induction false} InitInv()
    ensures Inv(Init()) && Settle(Init()) == Init()
  {
    RegistryIdsDistinct();
  }

  /** Every transition keeps the invariant. */
  lemma {:induction false} InvPreserved(s: WizardState, cmd: Command)
    requires Inv(s) && WellFormed(cmd)
    ensures Inv(Step(s, cmd))
  {
    var a := Apply(s, cmd);
    var r := Step(s, cmd);
    match cmd {
      case NextStep =>
        assert a.maxStep >= a.step;
      case CompleteImageBatch(images) =>
        assert a.maxStep >= a.step;
      case RunNewSet =>
        RegistryIdsDistinct();
      case _ =>
    }
  }

  /** Every child setter is only ever called with what the children compute, and those
      values are well formed. */
  lemma {:induction false} ChildWritesWellFormed(s: WizardState, p: string, id: string, field: Field, value: string, time: string)
    requires Inv(s) && p in PlatformIds
    ensures WellFormed(SetSelectedPlatforms(BlogInputPanel.Toggle(s.selectedPlatforms, p)))
    ensures WellFormed(SetSelectedPlatforms(BlogInputPanel.SelectAll(s.selectedPlatforms)))
    ensures WellFormed(SetPlatformPosts(PostTextOptions.FillPlaceholders(s.platformPosts)))
    ensures WellFormed(SetPlatformPosts(PostTextOptions.EditField(s.platformPosts, id, field, value)))
    ensures WellFormed(SetPlatformPosts(PostTextOptions.Regenerated(s.platformPosts, id, time)))
  {
    BlogInputPanel.ToggleKeepsSelection(s.selectedPlatforms, p);
    BlogInputPanel.SelectAllOnSelection(s.selectedPlatforms);
  }

  /** `nextStep` ends at `min(step + 1, 4)` with the furthest step reached equal to it. */
  lemma {:induction false} NextStepBounds(s: WizardState)
    requires Inv(s)
    ensures var r := Step(s, NextStep);
      && r.step == (if s.step < LastStep then s.step + 1 else LastStep)
      && r.maxStep == r.step
  {
    InvPreserved(s, NextStep);
  }

  /** A click on a step past the furthest step reached changes nothing. */
  lemma {:induction false} StepClickRejected(s: WizardState, idx: nat)
    requires Settled(s) && idx > s.maxStep
    ensures Step(s, StepClick(idx)) == s
  {
  }

  /** Jumping back lowers the furthest step reached to the step jumped to: later steps are
      no longer reachable through the step indicator, even though nothing was edited. */
  lemma {:induction false} JumpBackClampsMaxStep(s: WizardState, idx: nat)
    requires Inv(s) && idx < s.step
    ensures Step(s, StepClick(idx)).step == idx
    ensures Step(s, StepClick(idx)).maxStep == idx
  {
  }

  /** In every reachable state the step indicator offers backward steps only. */
  lemma {:induction false} NoForwardJump(s: WizardState, idx: nat)
    requires Inv(s)
    ensures StepIndicator.View(idx, s.step, s.maxStep, true).clickable ==> idx < s.step
  {
    StepIndicator.BackwardOnly(idx, s.step, s.maxStep, true);
  }

  /** The step only moves forward by one, and only by `nextStep` or by a completed image
      batch. */
  lemma {:induction false} ForwardOnlyByAdvance(s: WizardState, cmd: Command)
    requires Inv(s)
    ensures Step(s, cmd).step <= s.step + 1
    ensures Step(s, cmd).step > s.step ==> cmd.NextStep? || cmd.CompleteImageBatch?
  {
  }

  /** An upstream edit on the image step clears the images and the image selection and
      records the new upstream values. */
  lemma {:induction false} UpstreamEditOnImageStepClears(s: WizardState, c: string)
    requires Inv(s) && s.step == ImageStep && c != s.blogContent
    ensures var r := Step(s, SetBlogContent(c));
      && r.generatedImages == [] && r.selectedImageId == ""
      && r.imageGenSnapshot == Upstream(r) && r.blogContent == c
  {
    var a := Apply(s, SetBlogContent(c));
    assert a.imageGenSnapshot.blogContent != a.blogContent;
  }

  /** On the image step, choosing or regenerating an image leaves the rest alone: the
      upstream values have not changed, so the snapshot effect does nothing. */
  lemma {:induction false} ImageCommandsKeepBatch(s: WizardState, imgId: string, now: nat)
    requires Inv(s) && s.step == ImageStep
    ensures Step(s, SelectImage(imgId)) == s.(selectedImageId := imgId)
    ensures Step(s, RegenerateImage(imgId, now))
            == s.(generatedImages := WithRegeneratedUrl(s.generatedImages, imgId, now))
  {
  }

  /** Completing an image batch on the prompt step stores the images, records the upstream
      values as the snapshot and moves to the image step, where the snapshot effect then
      finds nothing to clear. */
  lemma {:induction false} CompleteImageBatchKeepsImages(s: WizardState, images: seq<Image>)
    requires Inv(s) && s.step == ImageStep - 1
    ensures var r := Step(s, CompleteImageBatch(images));
      && r.step == ImageStep && r.maxStep == ImageStep
      && r.generatedImages == images && r.selectedImageId == ""
      && r.imageGenSnapshot == Upstream(s) && Upstream(r) == Upstream(s)
  {
  }

  /** The batch the prompt selector completes is the three mock images of the edited
      prompt; after completion the page shows exactly those. */
  lemma {:induction false} CompletedBatchIsMockImages(s: WizardState, prompt: string)
    requires Inv(s) && s.step == ImageStep - 1
    ensures var r := Step(s, CompleteImageBatch(MockImages(prompt)));
      && |r.generatedImages| == 3
      && forall i :: 0 <= i < 3 ==> r.generatedImages[i].prompt == prompt
  {
    CompleteImageBatchKeepsImages(s, MockImages(prompt));
  }

  /** `handleRunNewSet` gives the initial state, apart from the untouched snapshot, and
      running it again changes nothing. */
  lemma {:induction false} RunNewSetIdempotent(s: WizardState)
    ensures Step(s, RunNewSet) == Init().(imageGenSnapshot := s.imageGenSnapshot)
    ensures Step(Step(s, RunNewSet), RunNewSet) == Step(s, RunNewSet)
    ensures Inv(Step(s, RunNewSet))
  {
    RegistryIdsDistinct();
    assert Settled(ResetState(s));
  }

  /** `postApprovals.some(Boolean)`. */
  predicate AnyPostApproved(approvals: seq<bool>) {
    exists k :: 0 <= k < |approvals| && approvals[k]
  }

  /** `postApprovals.length > 0 && postApprovals.every(Boolean)`, the "Approve Posts" tick. */
  predicate AllPostsApproved(approvals: seq<bool>) {
    |approvals| > 0 && forall k :: 0 <= k < |approvals| ==> approvals[k]
  }

  /** The "Run a New Set" bar is shown on the review step once some post is approved. */
  predicate NewSetBarShown(s: WizardState) {
    s.step == LastStep && AnyPostApproved(s.postApprovals)
  }

  /** With the approvals the review grid reports, the bar shows exactly when some record
      of a selected platform is ready, and the tick is set exactly when there are such
      records and all of them are ready. */
  lemma {:induction false} ApprovalsFromGrid(s: WizardState, local: seq<PlatformPostGrid.LocalPost>)
    requires s.step == LastStep
    requires s.postApprovals == PlatformPostGrid.Approvals(local, s.selectedPlatforms)
    ensures NewSetBarShown(s) <==> PlatformPostGrid.SomeReady(local, s.selectedPlatforms)
    ensures AllPostsApproved(s.postApprovals) <==> PlatformPostGrid.AllReady(local, s.selectedPlatforms)
  {
    PlatformPostGrid.AnyApprovalIffSomeReady(local, s.selectedPlatforms);
    PlatformPostGrid.AllApprovedIffAllReady(local, s.selectedPlatforms);
  }

  // ---------------------------------------------------------------------------
  // The page as an object with state

  /** The page's state fields, including the busy flags and dialog the transitions above do
      not read. */
  class Page {
    var step: nat
    var maxStep: nat
    var blogContent: string
    var generatedImages: seq<Image>
    var selectedImageId: string
    var selectedPlatforms: seq<string>
    var isRegenerating: bool
    var loadingDots: string
    var isGeneratingPosts: bool
    var imageLoading: map<string, bool>
    var selectedPrompt: string
    var postApprovals: seq<bool>
    var showNewSetModal: bool
    var platformPosts: seq<Post>
    var imageGenSnapshot: Snapshot

    function State(): WizardState
      reads this
    {
      WizardState(step, maxStep, blogContent, selectedPlatforms, platformPosts, selectedPrompt,
                  generatedImages, selectedImageId, imageGenSnapshot, postApprovals)
    }

    predicate Valid()
      reads this
    {
      Inv(State())
    }

    constructor ()
      ensures State() == Init() && Valid()
      ensures !isRegenerating && loadingDots == "" && !isGeneratingPosts
      ensures imageLoading == map[] && !showNewSetModal
    {
      step, maxStep := 0, 0;
      blogContent := "";
      generatedImages := [];
      selectedImageId := "";
      selectedPlatforms := [];
      isRegenerating, loadingDots, isGeneratingPosts := false, "", false;
      imageLoading := map[];
      selectedPrompt := "";
      postApprovals := [];
      showNewSetModal := false;
      platformPosts := EmptyPosts();
      imageGenSnapshot := Snapshot("", [], [], "");
      InitInv();
    }

    /** The three effects, each reading the values of the same render. */
    method RunEffects()
      modifies this
      ensures State() == Settle(old(State()))
      ensures isRegenerating == old(isRegenerating) && loadingDots == old(loadingDots)
      ensures isGeneratingPosts == old(isGeneratingPosts) && imageLoading == old(imageLoading)
      ensures showNewSetModal == old(showNewSetModal)
    {
      var renderStep, renderMaxStep := step, maxStep;
      var upstream := Snapshot(blogContent, selectedPlatforms, platformPosts, selectedPrompt);
      if renderStep == ImageStep && imageGenSnapshot != upstream {
        generatedImages := [];
        selectedImageId := "";
        imageGenSnapshot := upstream;
      }
      if renderStep < ImageStep {
        generatedImages := [];
        selectedImageId := "";
      }
      if renderStep < renderMaxStep {
        maxStep := renderStep;
      }
    }

    /** Stores a new image list and nothing else. */
    method SetImages(images: seq<Image>)
      modifies this
      ensures State() == old(State()).(generatedImages := images)
      ensures isRegenerating == old(isRegenerating) && loadingDots == old(loadingDots)
      ensures isGeneratingPosts == old(isGeneratingPosts) && imageLoading == old(imageLoading)
      ensures showNewSetModal == old(showNewSetModal)
    {
      generatedImages := images;
    }

    /** Runs the effects after a handler's writes, which left the fields at `Apply(s0, cmd)`. */
    method Commit(ghost s0: WizardState, ghost cmd: Command)
      requires State() == Apply(s0, cmd) && Inv(Step(s0, cmd))
      modifies this
      ensures State() == Step(s0, cmd) && Valid()
      ensures isRegenerating == old(isRegenerating) && loadingDots == old(loadingDots)
      ensures isGeneratingPosts == old(isGeneratingPosts) && imageLoading == old(imageLoading)
      ensures showNewSetModal == old(showNewSetModal)
    {
      RunEffects();
    }

    /** `nextStep`. */
    method Next()
      requires Valid()
      modifies this
      ensures State() == Step(old(State()), NextStep) && Valid()
      ensures isRegenerating == old(isRegenerating) && loadingDots == old(loadingDots)
      ensures isGeneratingPosts == old(isGeneratingPosts) && imageLoading == old(imageLoading)
      ensures showNewSetModal == old(showNewSetModal)
    {
      ghost var s0 := State();
      InvPreserved(s0, NextStep);
      var next := if step + 1 < LastStep then step + 1 else LastStep;
      maxStep := if maxStep < next then next else maxStep;
      step := next;
      Commit(s0, NextStep);
    }

    /** The step indicator's `onStepClick`. */
    method OnStepClick(idx: nat)
      requires Valid()
      modifies this
      ensures State() == Step(old(State()), StepClick(idx)) && Valid()
      ensures isRegenerating == old(isRegenerating) && loadingDots == old(loadingDots)
      ensures isGeneratingPosts == old(isGeneratingPosts) && imageLoading == old(imageLoading)
      ensures showNewSetModal == old(showNewSetModal)
    {
      ghost var s0 := State();
      InvPreserved(s0, StepClick(idx));
      if idx <= maxStep {
        step := idx;
      }
      Commit(s0, StepClick(idx));
    }

    /** One of the setters the page hands to its children. */
    method Set(cmd: Command)
      requires Valid() && WellFormed(cmd)
      requires cmd.SetBlogContent? || cmd.SetSelectedPlatforms? || cmd.SetPlatformPosts?
            || cmd.SetSelectedPrompt? || cmd.SetPostApprovals?
      modifies this
      ensures State() == Step(old(State()), cmd) && Valid()
      ensures isRegenerating == old(isRegenerating) && loadingDots == old(loadingDots)
      ensures isGeneratingPosts == old(isGeneratingPosts) && imageLoading == old(imageLoading)
      ensures showNewSetModal == old(showNewSetModal)
    {
      ghost var s0 := State();
      InvPreserved(s0, cmd);
      match cmd {
        case SetBlogContent(c) => blogContent := c;
        case SetSelectedPlatforms(p) => selectedPlatforms := p;
        case SetPlatformPosts(p) => platformPosts := p;
        case SetSelectedPrompt(id) => selectedPrompt := id;
        case SetPostApprovals(a) => postApprovals := a;
      }
      Commit(s0, cmd);
    }

    /** The prompt selector's `onGenerate(images)`: store the batch, record the snapshot,
        advance. */
    method OnImagesGenerated(images: seq<Image>)
      requires Valid()
      modifies this
      ensures State() == Step(old(State()), CompleteImageBatch(images)) && Valid()
      ensures isRegenerating == old(isRegenerating) && loadingDots == old(loadingDots)
      ensures isGeneratingPosts == old(isGeneratingPosts) && imageLoading == old(imageLoading)
      ensures showNewSetModal == old(showNewSetModal)
    {
      ghost var s0 := State();
      InvPreserved(s0, CompleteImageBatch(images));
      generatedImages := images;
      imageGenSnapshot := Snapshot(blogContent, selectedPlatforms, platformPosts, selectedPrompt);
      var next := if step + 1 < LastStep then step + 1 else LastStep;
      maxStep := if maxStep < next then next else maxStep;
      step := next;
      Commit(s0, CompleteImageBatch(images));
    }

    /** `handleRegenerateImage(imgId)` once its delay has passed: the loading flag of the
        image is set, the address replaced and the flag cleared. */
    method HandleRegenerateImage(imgId: string, now: nat)
      requires Valid()
      modifies this
      ensures State() == Step(old(State()), RegenerateImage(imgId, now)) && Valid()
      ensures imageLoading == old(imageLoading)[imgId := false]
      ensures isRegenerating == old(isRegenerating) && loadingDots == old(loadingDots)
      ensures isGeneratingPosts == old(isGeneratingPosts) && showNewSetModal == old(showNewSetModal)
    {
      ghost var s0 := State();
      InvPreserved(s0, RegenerateImage(imgId, now));
      imageLoading := imageLoading[imgId := true];
      var images := WithRegeneratedUrl(generatedImages, imgId, now);
      SetImages(images);
      imageLoading := imageLoading[imgId := false];
      Commit(s0, RegenerateImage(imgId, now));
    }

    /** A click on an image. */
    method OnImageClick(imgId: string)
      requires Valid()
      modifies this
      ensures State() == Step(old(State()), SelectImage(imgId)) && Valid()
      ensures isRegenerating == old(isRegenerating) && loadingDots == old(loadingDots)
      ensures isGeneratingPosts == old(isGeneratingPosts) && imageLoading == old(imageLoading)
      ensures showNewSetModal == old(showNewSetModal)
    {
      ghost var s0 := State();
      InvPreserved(s0, SelectImage(imgId));
      selectedImageId := imgId;
      Commit(s0, SelectImage(imgId));
    }

    /** "Resize Image to Platform(s)" is disabled without a chosen image or while busy. */
    predicate ResizeDisabled()
      reads this
    {
      selectedImageId == "" || isGeneratingPosts
    }

    /** "Resize Image to Platform(s)" once its delay has passed: the busy flag is cleared
        and the wizard advances. */
    method ResizeToPlatforms()
      requires Valid() && !ResizeDisabled()
      modifies this
      ensures State() == Step(old(State()), NextStep) && Valid()
      ensures !isGeneratingPosts
      ensures isRegenerating == old(isRegenerating) && loadingDots == old(loadingDots)
      ensures imageLoading == old(imageLoading) && showNewSetModal == old(showNewSetModal)
    {
      isGeneratingPosts := true;
      isGeneratingPosts := false;
      Next();
    }

    /** "Run a New Set" opens the confirmation dialog; "Go Back" closes it. */
    method SetNewSetModal(open: bool)
      modifies this`showNewSetModal
      ensures showNewSetModal == open
    {
      showNewSetModal := open;
    }

    /** The assignments of `handleRunNewSet`. */
    method ResetFields()
      modifies this
      ensures State() == WizardState(0, 0, "", [], EmptyPosts(), "", [], "", old(imageGenSnapshot), [])
      ensures !isRegenerating && loadingDots == "" && !isGeneratingPosts
      ensures imageLoading == map[] && !showNewSetModal
    {
      var posts := EmptyPosts();
      ResetContent(posts);
      ResetFlags();
    }

    /** The state fields of `handleRunNewSet`, with `posts` as the new posts. */
    method ResetContent(posts: seq<Post>)
      modifies this
      ensures State() == WizardState(0, 0, "", [], posts, "", [], "", old(imageGenSnapshot), [])
    {
      step, maxStep := 0, 0;
      blogContent, selectedPlatforms, platformPosts, selectedPrompt := "", [], posts, "";
      generatedImages, selectedImageId, postApprovals := [], "", [];
    }

    /** The loading and dialog flags of `handleRunNewSet`. */
    method ResetFlags()
      modifies this
      ensures State() == old(State())
      ensures !isRegenerating && loadingDots == "" && !isGeneratingPosts
      ensures imageLoading == map[] && !showNewSetModal
    {
      isRegenerating, loadingDots, isGeneratingPosts := false, "", false;
      imageLoading, showNewSetModal := map[], false;
    }

    /** `handleRunNewSet`: every field back to its initial value except the image snapshot;
        the dialog closes. */
    method HandleRunNewSet()
      modifies this
      ensures State() == Step(old(State()), RunNewSet) && Valid()
      ensures !isRegenerating && loadingDots == "" && !isGeneratingPosts
      ensures imageLoading == map[] && !showNewSetModal
    {
      ghost var s0 := State();
      RunNewSetIdempotent(s0);
      ResetFields();
      Commit(s0, RunNewSet);
    }
  }
}
