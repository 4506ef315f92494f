/** The image-prompt step: a batch of three candidate prompts with exactly one recommended,
    prompt selection into an editable working prompt, and the (mocked) image-batch call. */
module ImagePromptSelector {
  import opened Base
  import opened Strings

  datatype Prompt = Prompt(id: string, text: string, isRecommended: bool, explanation: Option<string>)

  /** A generated image: id, URL and the prompt text it was generated from. */
  datatype Image = Image(id: string, url: string, prompt: string)

  const PromptTemplates: seq<seq<string>> := [
    ["A bright, modern workspace with creative professionals brainstorming together",
     "A cozy coffee shop with people working on laptops and sharing ideas",
     "A group of friends enjoying a sunny day in the park, laughing and talking"],
    ["A bustling city street with diverse people walking and vibrant storefronts",
     "A peaceful library with students reading and studying at large tables",
     "A family cooking together in a cheerful kitchen, sharing stories"],
    ["A team collaborating on a project in a glass-walled meeting room",
     "Children playing and learning in a colorful classroom",
     "A mentor guiding a young professional in a modern office"]
  ]

  const Rationales: seq<string> := [
    "Best matches your content and brand goals",
    "Likely to drive the most engagement for your audience",
    "Strong visual fit for your current post",
    "Optimized for clarity and shareability",
    "Aligns with your selected platforms and message"
  ]

  /** How many prompts of a list are flagged recommended. */
  function RecommendedCount(ps: seq<Prompt>): nat {
    if ps == [] then 0 else (if ps[0].isRecommended then 1 else 0) + RecommendedCount(ps[1..])
  }

  /** A list in which only position `k` is flagged has exactly one recommended prompt. */
  lemma {:induction false} RecommendedCountOne(ps: seq<Prompt>, k: nat)
    requires k < |ps| && ps[k].isRecommended
    requires forall i :: 0 <= i < |ps| && i != k ==> !ps[i].isRecommended
    ensures RecommendedCount(ps) == 1
  {
    if k == 0 {
      RecommendedCountNone(ps[1..]);
    } else {
      RecommendedCountOne(ps[1..], k - 1);
    }
  }

  lemma {:induction false} RecommendedCountNone(ps: seq<Prompt>)
    requires forall i :: 0 <= i < |ps| ==> !ps[i].isRecommended
    ensures RecommendedCount(ps) == 0
  {
    if ps != [] {
      RecommendedCountNone(ps[1..]);
    }
  }

  /** `getRandomPrompts()`. The three `Math.floor(Math.random() * n)` draws are the inputs:
      the template set, the recommended position and the rationale. The batch has ids "1",
      "2", "3", the set's texts in order, exactly one recommended entry, and an
      explanation exactly on that entry. */
  function RandomPrompts(setIdx: nat, recommendedIdx: nat, rationaleIdx: nat): (r: seq<Prompt>)
    requires setIdx < |PromptTemplates| && recommendedIdx < |PromptTemplates[setIdx]|
    requires rationaleIdx < |Rationales|
    ensures |r| == 3 && r[0].id == "1" && r[1].id == "2" && r[2].id == "3"
    ensures forall i :: 0 <= i < 3 ==> r[i].text == PromptTemplates[setIdx][i]
    ensures RecommendedCount(r) == 1
    ensures forall i :: 0 <= i < 3 ==> (r[i].explanation.Some? <==> r[i].isRecommended)
    ensures r[recommendedIdx].isRecommended
    ensures r[recommendedIdx].explanation == Some(Rationales[rationaleIdx])
  {
    var texts := PromptTemplates[setIdx];
    var rationale := Rationales[rationaleIdx];
    var r := seq(|texts|, idx requires 0 <= idx < |texts| =>
               Prompt(NatToString(idx + 1), texts[idx], idx == recommendedIdx,
                      if idx == recommendedIdx then Some(rationale) else None));
    RecommendedCountOne(r, recommendedIdx);
    r
  }

  /** The prompt list the component starts with, before its mount effect replaces it. */
  const InitialPrompts: seq<Prompt> := [
    Prompt("1", "A warm, inviting classroom with diverse students engaged in discussion, natural light streaming through large windows",
           true, Some("Best matches brand values of inclusivity and education")),
    Prompt("2", "Professional faculty members collaborating in a modern campus setting", false, None),
    Prompt("3", "Students participating in outdoor community activities on campus", false, None)
  ]

  /** The initial list also has exactly one recommended entry, and it carries an explanation. */
  lemma {:induction false} InitialPromptsShape()
    ensures |InitialPrompts| == 3 && RecommendedCount(InitialPrompts) == 1
    ensures forall i :: 0 <= i < 3 ==> (InitialPrompts[i].explanation.Some? <==> InitialPrompts[i].isRecommended)
  {
    RecommendedCountOne(InitialPrompts, 0);
  }

  /** `prompts.find(p => p.id === id)`: the first prompt with this id, if any. */
  function FindPrompt(prompts: seq<Prompt>, id: string): (r: Option<Prompt>)
    ensures r.None? <==> forall i :: 0 <= i < |prompts| ==> prompts[i].id != id
    ensures r.Some? ==> r.value in prompts && r.value.id == id
  {
    if prompts == [] then None
    else if prompts[0].id == id then Some(prompts[0])
    else FindPrompt(prompts[1..], id)
  }

  /** The mocked image service: three images `img-1`..`img-3`, all tagged with the prompt. */
  function MockImages(prompt: string): (r: seq<Image>)
    ensures |r| == 3 && r[0].id == "img-1" && r[1].id == "img-2" && r[2].id == "img-3"
    ensures forall i :: 0 <= i < 3 ==> r[i].prompt == prompt
  {
    assert NatToString(3) == "3";
    seq(3, i requires 0 <= i < 3 =>
      Image("img-" + NatToString(i + 1), "https://picsum.photos/800/600?random=" + NatToString(i), prompt))
  }

  /** The component's own state. The chosen prompt id (`selectedPrompt`) belongs to the
      page; methods that set it return its new value. */
  class PromptSelector {
    var prompts: seq<Prompt>
    var editedPrompt: string
    var isGenerating: bool

    /** Every batch the selector holds has three prompts and one recommendation. */
    ghost predicate Valid()
      reads this
    {
      |prompts| == 3 && RecommendedCount(prompts) == 1
    }

    constructor ()
      ensures Valid() && prompts == InitialPrompts && editedPrompt == "" && !isGenerating
    {
      prompts := InitialPrompts;
      editedPrompt := "";
      isGenerating := false;
      InitialPromptsShape();
    }

    /** The Regenerate button, and the effect that fires on mount and on upstream change:
        a new batch, and both the chosen prompt and the working prompt cleared. */
    method RegenerateBatch(setIdx: nat, recommendedIdx: nat, rationaleIdx: nat)
      returns (selectedPrompt: string)
      requires setIdx < |PromptTemplates| && recommendedIdx < |PromptTemplates[setIdx]|
      requires rationaleIdx < |Rationales|
      modifies this
      ensures Valid()
      ensures prompts == RandomPrompts(setIdx, recommendedIdx, rationaleIdx)
      ensures selectedPrompt == "" && editedPrompt == "" && isGenerating == old(isGenerating)
    {
      prompts := RandomPrompts(setIdx, recommendedIdx, rationaleIdx);
      selectedPrompt := "";
      editedPrompt := "";
    }

    /** `handlePromptSelect(promptId)`: the id becomes the chosen prompt; the working prompt
        becomes that prompt's text when the id exists and is kept otherwise. */
    method Select(promptId: string) returns (selectedPrompt: string)
      requires Valid()
      modifies this`editedPrompt
      ensures Valid() && selectedPrompt == promptId
      ensures editedPrompt == match FindPrompt(prompts, promptId)
                              case Some(p) => p.text
                              case None => old(editedPrompt)
    {
      selectedPrompt := promptId;
      var prompt := FindPrompt(prompts, promptId);
      if prompt.Some? {
        editedPrompt := prompt.value.text;
      }
    }

    /** The working-prompt text area. */
    method EditPrompt(text: string)
      requires Valid()
      modifies this`editedPrompt
      ensures Valid() && editedPrompt == text
    {
      editedPrompt := text;
    }

    /** `handleGenerateImages`, with the delay as one atomic step. A no-op when no prompt is
        chosen or the working prompt is empty; otherwise the loading flag is cleared on every
        exit path, and on success the three images handed to `onGenerate` are returned.
        `callFails` selects the `catch` path. */
    method GenerateImages(selectedPrompt: string, callFails: bool) returns (images: Option<seq<Image>>)
      requires Valid()
      modifies this`isGenerating
      ensures Valid()
      ensures selectedPrompt == "" || editedPrompt == "" ==>
                images == None && isGenerating == old(isGenerating)
      ensures selectedPrompt != "" && editedPrompt != "" ==>
                !isGenerating && images == (if callFails then None else Some(MockImages(editedPrompt)))
    {
      if selectedPrompt == "" || editedPrompt == "" {
        return None;
      }
      isGenerating := true;
      if callFails {
        images := None;
      } else {
        images := Some(MockImages(editedPrompt));
      }
      isGenerating := false;
    }
  }
}
