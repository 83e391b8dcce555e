/** The template catalog: one prompt template per content type, the option
    lists the form offers, and the five prompt builders. Each builder is a
    template literal, modelled as its list of segments: verbatim text (line
    breaks and indentation included) and the `${promptText}` and `${genre}`
    substitutions, rendered by concatenation. */
module Catalog {
  import opened Types
  import opened Text

  // ---- Template literals ----

  /** One segment of a template literal. */
  datatype Segment = Verbatim(text: string) | Passage(id: PassageId) | PromptTextSlot | GenreSlot

  /** The long stretches of fixed text of the five literals. */
  datatype PassageId =
      ShortStoryOpening
    | ShortStoryPremiseHeading
    | ShortStoryInstructions
    | ShortStoryEnd
    | HaikuOpening
    | HaikuInstructions
    | HaikuMoreInstructions
    | HaikuEnd
    | SonnetOpening
    | SonnetInstructions
    | SonnetMoreInstructions
    | SonnetEnd
    | BackstoryOpening
    | BackstoryConceptHeading
    | BackstoryInstructions
    | WorldBuildingOpening
    | WorldBuildingConceptHeading
    | WorldBuildingInstructions

  /** The lines of each passage, exactly as in the source. */
  function PassageLines(id: PassageId): seq<string>
  {
    match id
    case ShortStoryOpening =>
      [ "",
        "          You are a master storyteller. Your task is to write a compelling short story in the " ]
    case ShortStoryPremiseHeading =>
      [ " genre.",
        "",
        "          **Story Premise:**",
        "          " ]
    case ShortStoryInstructions =>
      [ "",
        "",
        "          **Instructions:**",
        "          1.  Establish a clear setting and atmosphere.",
        "          2.  Introduce a compelling protagonist with clear motivations.",
        "          3.  Build a narrative with a clear beginning, rising action, climax, and resolution.",
        "          4.  Use vivid descriptions and engaging dialogue.",
        "          5.  Ensure the story fits the specified premise and genre.",
        "          6.  The story should be brief, concise, and " ]
    case ShortStoryEnd =>
      [ ".",
        "        " ]
    case HaikuOpening =>
      [ "",
        "          You are a zen poet. Your task is to compose a haiku about the provided theme.",
        "",
        "          **Theme:**",
        "          " ]
    case HaikuInstructions =>
      [ "",
        "",
        "          **Instructions:**",
        "          1.  The poem must strictly follow the " ]
    case HaikuMoreInstructions =>
      [ " syllable structure.",
        "          2.  Evoke a clear image or feeling related to the theme.",
        "          3.  The language should be simple, yet profound.",
        "          4.  The output should be " ]
    case HaikuEnd =>
      [ " of the haiku.",
        "        " ]
    case SonnetOpening =>
      [ "",
        "          You are a classical poet in the style of William Shakespeare. Your task is to write a Shakespearean sonnet on the provided topic.",
        "",
        "          **Topic:**",
        "          " ]
    case SonnetInstructions =>
      [ "",
        "",
        "          **Instructions:**",
        "          1.  The sonnet must be " ]
    case SonnetMoreInstructions =>
      [ " long.",
        "          2.  It must be written in iambic pentameter.",
        "          3.  It must follow the " ]
    case SonnetEnd =>
      [ " rhyme scheme.",
        "          4.  The final couplet should provide a resolution or a turn of thought (a volta).",
        "          5.  Use elevated, poetic language appropriate for the form.",
        "          6.  The output should be ONLY the 14 lines of the sonnet.",
        "        " ]
    case BackstoryOpening =>
      [ "",
        "          You are a character designer for a " ]
    case BackstoryConceptHeading =>
      [ " story. Your task is to create a compelling backstory for a character based on the provided concept.",
        "",
        "          **Character Concept:**",
        "          " ]
    case BackstoryInstructions =>
      [ "",
        "",
        "          **Instructions:**",
        "          1.  Give the character a name and a brief physical description.",
        "          2.  Describe their formative years and the key events that shaped them.",
        "          3.  Explain their primary motivation, their greatest fear, and their core conflict (internal or external).",
        "          4.  Detail their key relationships (allies, enemies, family).",
        "          5.  Weave the character concept into a rich, believable history.",
        "          6.  The output should be a concise backstory of 1-2 paragraphs.",
        "        " ]
    case WorldBuildingOpening =>
      [ "",
        "          You are a master world builder for the " ]
    case WorldBuildingConceptHeading =>
      [ " genre. Your task is to flesh out the provided concept into a rich and immersive world-building snippet.",
        "",
        "          **Concept:**",
        "          " ]
    case WorldBuildingInstructions =>
      [ "",
        "",
        "          **Instructions:**",
        "          1.  Provide a vivid description of the location, culture, or concept. Engage multiple senses.",
        "          2.  Explain how it functions and its role within the larger world.",
        "          3.  Describe the people who interact with it and how it affects their daily lives.",
        "          4.  Hint at its history, legends, or secrets.",
        "          5.  The output should be a single, rich paragraph that is concise and evocative.",
        "        " ]
  }

  /** The exact text of each passage: its lines joined by line feeds. */
  function PassageText(id: PassageId): string
  {
    JoinLines(PassageLines(id))
  }

  function SegmentText(s: Segment, promptText: string, genre: string): string
  {
    match s
    case Verbatim(text) => text
    case Passage(id) => PassageText(id)
    case PromptTextSlot => promptText
    case GenreSlot => genre
  }

  /** The string a template literal evaluates to. */
  function Render(t: seq<Segment>, promptText: string, genre: string): string
  {
    if t == [] then "" else SegmentText(t[0], promptText, genre) + Render(t[1..], promptText, genre)
  }

  /** Rendering splits around any one segment. */
  lemma {:induction false} RenderSplitAt(t: seq<Segment>, k: nat, promptText: string, genre: string)
    requires k < |t|
    ensures Render(t, promptText, genre)
      == Render(t[..k], promptText, genre) + SegmentText(t[k], promptText, genre) + Render(t[k + 1..], promptText, genre)
  {
    if k == 0 {
      assert t[..0] == [];
    } else {
      RenderSplitAt(t[1..], k - 1, promptText, genre);
      assert t[1..][..k - 1] == t[1..k];
      assert t[1..][k - 1] == t[k];
      assert t[1..][k..] == t[k + 1..];
      assert t[..k][1..] == t[1..k];
      assert t[..k][0] == t[0];
    }
  }

  /** The rendering contains the text of each of its segments. */
  lemma RenderContainsSegment(t: seq<Segment>, k: nat, promptText: string, genre: string)
    requires k < |t|
    ensures Contains(Render(t, promptText, genre), SegmentText(t[k], promptText, genre))
  {
    RenderSplitAt(t, k, promptText, genre);
    ContainsMiddle(Render(t[..k], promptText, genre), SegmentText(t[k], promptText, genre), Render(t[k + 1..], promptText, genre));
  }

  /** A literal without a `${genre}` does not depend on the genre. */
  lemma {:induction false} RenderIgnoresGenre(t: seq<Segment>, promptText: string, genre1: string, genre2: string)
    requires forall i :: 0 <= i < |t| ==> t[i] != GenreSlot
    ensures Render(t, promptText, genre1) == Render(t, promptText, genre2)
  {
    if t != [] {
      assert t[0] != GenreSlot;
      RenderIgnoresGenre(t[1..], promptText, genre1, genre2);
    }
  }

  /** A literal without a `${promptText}` does not depend on the user text. */
  lemma {:induction false} RenderIgnoresPromptText(t: seq<Segment>, promptText1: string, promptText2: string, genre: string)
    requires forall i :: 0 <= i < |t| ==> t[i] != PromptTextSlot
    ensures Render(t, promptText1, genre) == Render(t, promptText2, genre)
  {
    if t != [] {
      assert t[0] != PromptTextSlot;
      RenderIgnoresPromptText(t[1..], promptText1, promptText2, genre);
    }
  }

  /** A literal with a single `${promptText}` renders as a fixed head, the
      user text, and a fixed tail. */
  lemma RenderAroundPromptText(t: seq<Segment>, k: nat, promptText: string, genre: string)
    requires k < |t| && t[k] == PromptTextSlot
    requires forall i :: 0 <= i < |t| && i != k ==> t[i] != PromptTextSlot
    ensures Render(t, promptText, genre) == Render(t[..k], "", genre) + promptText + Render(t[k + 1..], "", genre)
  {
    RenderSplitAt(t, k, promptText, genre);
    assert forall i :: 0 <= i < |t[..k]| ==> t[..k][i] != PromptTextSlot;
    RenderIgnoresPromptText(t[..k], promptText, "", genre);
    RenderIgnoresPromptText(t[k + 1..], promptText, "", genre);
  }

  // The structural constraint phrases every prompt of its kind carries.
  const StoryWordLimit: string := "no more than 200 words"
  const HaikuPattern: string := "5-7-5"
  const HaikuOnlyThreeLines: string := "ONLY the three lines"
  const SonnetLineCount: string := "exactly 14 lines"
  const SonnetRhymeScheme: string := "ABAB CDCD EFEF GG"

  function ShortStoryLiteral(): seq<Segment>
  {
    [ Passage(ShortStoryOpening),
      GenreSlot,
      Passage(ShortStoryPremiseHeading),
      PromptTextSlot,
      Passage(ShortStoryInstructions),
      Verbatim(StoryWordLimit),
      Passage(ShortStoryEnd) ]
  }

  function HaikuLiteral(): seq<Segment>
  {
    [ Passage(HaikuOpening),
      PromptTextSlot,
      Passage(HaikuInstructions),
      Verbatim(HaikuPattern),
      Passage(HaikuMoreInstructions),
      Verbatim(HaikuOnlyThreeLines),
      Passage(HaikuEnd) ]
  }

  function SonnetLiteral(): seq<Segment>
  {
    [ Passage(SonnetOpening),
      PromptTextSlot,
      Passage(SonnetInstructions),
      Verbatim(SonnetLineCount),
      Passage(SonnetMoreInstructions),
      Verbatim(SonnetRhymeScheme),
      Passage(SonnetEnd) ]
  }

  function BackstoryLiteral(): seq<Segment>
  {
    [ Passage(BackstoryOpening),
      GenreSlot,
      Passage(BackstoryConceptHeading),
      PromptTextSlot,
      Passage(BackstoryInstructions) ]
  }

  function WorldBuildingLiteral(): seq<Segment>
  {
    [ Passage(WorldBuildingOpening),
      GenreSlot,
      Passage(WorldBuildingConceptHeading),
      PromptTextSlot,
      Passage(WorldBuildingInstructions) ]
  }

  /** The template literal of content type `c`'s builder. */
  function Literal(c: ContentType): seq<Segment>
  {
    match c
    case ShortStory => ShortStoryLiteral()
    case PoemHaiku => HaikuLiteral()
    case PoemSonnet => SonnetLiteral()
    case CharacterBackstory => BackstoryLiteral()
    case WorldBuilding => WorldBuildingLiteral()
  }

  /** Where `${promptText}` sits in content type `c`'s literal. */
  function PromptTextIndex(c: ContentType): nat
  {
    match c
    case ShortStory => 3
    case PoemHaiku => 1
    case PoemSonnet => 1
    case CharacterBackstory => 3
    case WorldBuilding => 3
  }

  // ---- The catalog ----

  function TemplateName(c: ContentType): string
  {
    match c
    case ShortStory => "Short Story"
    case PoemHaiku => "Poem (Haiku)"
    case PoemSonnet => "Poem (Sonnet)"
    case CharacterBackstory => "Character Backstory"
    case WorldBuilding => "World Building Snippet"
  }

  function TemplateDescription(c: ContentType): string
  {
    match c
    case ShortStory => "Generate a short story from a premise."
    case PoemHaiku => "Generate a haiku (5-7-5 syllables) about a specific theme."
    case PoemSonnet => "Generate a Shakespearean sonnet."
    case CharacterBackstory => "Create a detailed backstory for a character."
    case WorldBuilding => "Describe a unique location, culture, or concept for a fictional world."
  }

  function TemplatePlaceholder(c: ContentType): string
  {
    match c
    case ShortStory => "A detective who can talk to ghosts, trying to solve their own murder."
    case PoemHaiku => "An old, silent pond in autumn."
    case PoemSonnet => "The fleeting nature of a summer romance."
    case CharacterBackstory => "An exiled royal guard, now working as a baker, who secretly protects a hidden artifact."
    case WorldBuilding => "A city built on the back of a colossal, sleeping beast."
  }

  /** The template table, total over the closed enumeration; each builder
      renders its content type's literal. */
  function Template(c: ContentType): PromptTemplate
  {
    PromptTemplate(TemplateName(c), TemplateDescription(c), TemplatePlaceholder(c),
      (promptText, genre) => BuildPrompt(c, promptText, genre))
  }

  /** The builder of content type `c`: its literal, rendered. */
  function BuildPrompt(c: ContentType, promptText: string, genre: string): string
  {
    Render(Literal(c), promptText, genre)
  }

  /** One entry of the content-type drop-down. */
  datatype ContentTypeOption = ContentTypeOption(value: ContentType, caption: string)

  function ContentTypeOptions(): seq<ContentTypeOption>
  {
    [ ContentTypeOption(ShortStory, "Short Story"),
      ContentTypeOption(PoemHaiku, "Poem (Haiku)"),
      ContentTypeOption(PoemSonnet, "Poem (Sonnet)"),
      ContentTypeOption(CharacterBackstory, "Character Backstory"),
      ContentTypeOption(WorldBuilding, "World Building Snippet") ]
  }

  const ToneOptions: seq<Tone> := [Dramatic, Humorous, Whimsical, Suspenseful, Serious]

  /** The text before the user's line in content type `c`'s prompt. */
  function HeadOf(c: ContentType, genre: string): string
  {
    Render(Literal(c)[..PromptTextIndex(c)], "", genre)
  }

  /** The text after the user's line in content type `c`'s prompt. */
  function TailOf(c: ContentType, genre: string): string
  {
    Render(Literal(c)[PromptTextIndex(c) + 1..], "", genre)
  }

  // ---- Properties ----

  /** The table is total and each entry carries that content type's catalog
      data. */
  lemma TemplateEntry(c: ContentType)
    ensures Template(c).name == TemplateName(c)
    ensures Template(c).description == TemplateDescription(c)
    ensures Template(c).placeholder == TemplatePlaceholder(c)
  {
    var t := Template(c);
    assert t == PromptTemplate(TemplateName(c), TemplateDescription(c), TemplatePlaceholder(c), t.prompt);
  }

  /** Each entry's `prompt` is that content type's builder. */
  lemma TemplatePrompt(c: ContentType, promptText: string, genre: string)
    ensures Template(c).prompt(promptText, genre) == BuildPrompt(c, promptText, genre)
  {
  }

  /** No two content types share a template name (their lengths already differ). */
  lemma TemplateNamesDistinct(c1: ContentType, c2: ContentType)
    ensures TemplateName(c1) == TemplateName(c2) <==> c1 == c2
  {
    if c1 != c2 {
      assert |TemplateName(c1)| != |TemplateName(c2)|;
    }
  }

  /** The drop-down lists every content type exactly once, in declaration
      order, and each caption is the name of that content type's template. */
  lemma ContentTypeOptionsExact()
    ensures |ContentTypeOptions()| == |AllContentTypes|
    ensures forall i :: 0 <= i < |AllContentTypes| ==> ContentTypeOptions()[i].value == AllContentTypes[i]
    ensures forall i :: 0 <= i < |AllContentTypes| ==> ContentTypeOptions()[i].caption == TemplateName(AllContentTypes[i])
  {
  }

  /** The tone drop-down lists every tone exactly once, in declaration order. */
  lemma ToneOptionsExact()
    ensures ToneOptions == AllTones
  {
  }

  /** Every literal has exactly one `${promptText}`, at `PromptTextIndex(c)`. */
  lemma PromptTextSlotUnique(c: ContentType)
    ensures PromptTextIndex(c) < |Literal(c)|
    ensures forall i :: 0 <= i < |Literal(c)| ==> (Literal(c)[i] == PromptTextSlot <==> i == PromptTextIndex(c))
  {
  }

  /** The user text lands verbatim, unescaped, between a head and a tail that
      depend on the content type and the genre only. */
  lemma PromptInsertsTextVerbatim(c: ContentType, promptText: string, genre: string)
    ensures BuildPrompt(c, promptText, genre) == HeadOf(c, genre) + promptText + TailOf(c, genre)
  {
    PromptTextSlotUnique(c);
    RenderAroundPromptText(Literal(c), PromptTextIndex(c), promptText, genre);
  }

  /** Every builder's output contains the user text. */
  lemma PromptContainsText(c: ContentType, promptText: string, genre: string)
    ensures Contains(BuildPrompt(c, promptText, genre), promptText)
  {
    PromptTextSlotUnique(c);
    RenderContainsSegment(Literal(c), PromptTextIndex(c), promptText, genre);
  }

  /** The short-story, backstory and world-building builders embed the genre. */
  lemma PromptContainsGenre(c: ContentType, promptText: string, genre: string)
    requires c == ShortStory || c == CharacterBackstory || c == WorldBuilding
    ensures Contains(BuildPrompt(c, promptText, genre), genre)
  {
    GenreSlotSecond(c);
    RenderContainsSegment(Literal(c), 1, promptText, genre);
  }

  /** In those three literals the genre is the second segment. */
  lemma GenreSlotSecond(c: ContentType)
    requires c == ShortStory || c == CharacterBackstory || c == WorldBuilding
    ensures 1 < |Literal(c)| && Literal(c)[1] == GenreSlot
  {
    if c == ShortStory {
      assert ShortStoryLiteral()[1] == GenreSlot;
    } else if c == CharacterBackstory {
      assert BackstoryLiteral()[1] == GenreSlot;
    } else {
      assert WorldBuildingLiteral()[1] == GenreSlot;
    }
  }

  /** The haiku and sonnet builders ignore the genre. */
  lemma PoemsIgnoreGenre(c: ContentType, promptText: string, genre1: string, genre2: string)
    requires c == PoemHaiku || c == PoemSonnet
    ensures BuildPrompt(c, promptText, genre1) == BuildPrompt(c, promptText, genre2)
  {
    if c == PoemHaiku {
      RenderIgnoresGenre(HaikuLiteral(), promptText, genre1, genre2);
    } else {
      RenderIgnoresGenre(SonnetLiteral(), promptText, genre1, genre2);
    }
  }

  /** Every haiku prompt demands the 5-7-5 pattern and only the three lines. */
  lemma HaikuConstraints(promptText: string, genre: string)
    ensures Contains(BuildPrompt(PoemHaiku, promptText, genre), HaikuPattern)
    ensures Contains(BuildPrompt(PoemHaiku, promptText, genre), HaikuOnlyThreeLines)
  {
    RenderContainsSegment(HaikuLiteral(), 3, promptText, genre);
    RenderContainsSegment(HaikuLiteral(), 5, promptText, genre);
  }

  /** Every sonnet prompt demands exactly 14 lines and the ABAB CDCD EFEF GG scheme. */
  lemma SonnetConstraints(promptText: string, genre: string)
    ensures Contains(BuildPrompt(PoemSonnet, promptText, genre), SonnetLineCount)
    ensures Contains(BuildPrompt(PoemSonnet, promptText, genre), SonnetRhymeScheme)
  {
    RenderContainsSegment(SonnetLiteral(), 3, promptText, genre);
    RenderContainsSegment(SonnetLiteral(), 5, promptText, genre);
  }

  /** Every short-story prompt caps the length at 200 words. */
  lemma ShortStoryWordLimit(promptText: string, genre: string)
    ensures Contains(BuildPrompt(ShortStory, promptText, genre), StoryWordLimit)
  {
    RenderContainsSegment(ShortStoryLiteral(), 5, promptText, genre);
  }
}
