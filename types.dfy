/** The data model: the two closed enumerations and the three record types
    shared by the form, the catalog, the generation client and the app. */
module Types {

  /** The five creative formats a user can ask for. */
  datatype ContentType = ShortStory | PoemHaiku | PoemSonnet | CharacterBackstory | WorldBuilding
  {
    /** The string value the enum member carries at run time. */
    function Value(): string
    {
      match this
      case ShortStory => "SHORT_STORY"
      case PoemHaiku => "POEM_HAIKU"
      case PoemSonnet => "POEM_SONNET"
      case CharacterBackstory => "CHARACTER_BACKSTORY"
      case WorldBuilding => "WORLD_BUILDING"
    }
  }

  /** The five authorial voices. */
  datatype Tone = Dramatic | Humorous | Whimsical | Suspenseful | Serious
  {
    /** The string value the enum member carries at run time; it is also the
        label the form shows for the tone. */
    function Value(): string
    {
      match this
      case Dramatic => "Dramatic"
      case Humorous => "Humorous"
      case Whimsical => "Whimsical"
      case Suspenseful => "Suspenseful"
      case Serious => "Serious"
    }
  }

  /** Every content type, in declaration order. */
  const AllContentTypes: seq<ContentType> :=
    [ShortStory, PoemHaiku, PoemSonnet, CharacterBackstory, WorldBuilding]

  /** Every tone, in declaration order. */
  const AllTones: seq<Tone> := [Dramatic, Humorous, Whimsical, Suspenseful, Serious]

  /** What one submission asks for. */
  datatype GenerationParams = GenerationParams(
    contentType: ContentType,
    genre: string,
    tone: Tone,
    promptText: string)

  /** Timing metadata of a result; `generationTime` is in milliseconds. */
  datatype Performance = Performance(generationTime: int)

  /** One completed generation, as shown and kept in the history. */
  datatype GenerationResult = GenerationResult(
    id: string,
    params: GenerationParams,
    output: string,
    timestamp: string,
    performance: Performance)

  /** A catalog entry: display data and the prompt builder, a function of
      `(promptText, genre)`. */
  datatype PromptTemplate = PromptTemplate(
    name: string,
    description: string,
    placeholder: string,
    prompt: (string, string) -> string)

  /** Both enumerations are closed with exactly five members, listed once each. */
  lemma EnumerationsClosed()
    ensures |AllContentTypes| == 5 && |AllTones| == 5
    ensures forall c: ContentType :: c in AllContentTypes
    ensures forall t: Tone :: t in AllTones
    ensures forall i, j :: 0 <= i < j < 5 ==> AllContentTypes[i] != AllContentTypes[j]
    ensures forall i, j :: 0 <= i < j < 5 ==> AllTones[i] != AllTones[j]
  {
    forall c: ContentType ensures c in AllContentTypes {
      match c
      case ShortStory => assert c == AllContentTypes[0];
      case PoemHaiku => assert c == AllContentTypes[1];
      case PoemSonnet => assert c == AllContentTypes[2];
      case CharacterBackstory => assert c == AllContentTypes[3];
      case WorldBuilding => assert c == AllContentTypes[4];
    }
    forall t: Tone ensures t in AllTones {
      match t
      case Dramatic => assert t == AllTones[0];
      case Humorous => assert t == AllTones[1];
      case Whimsical => assert t == AllTones[2];
      case Suspenseful => assert t == AllTones[3];
      case Serious => assert t == AllTones[4];
    }
  }

  /** Distinct tones carry distinct string values, so a string value names at
      most one tone. */
  lemma ToneValuesDistinct(t1: Tone, t2: Tone)
    ensures t1.Value() == t2.Value() <==> t1 == t2
  {
  }

  /** Distinct content types carry distinct string values. */
  lemma ContentTypeValuesDistinct(c1: ContentType, c2: ContentType)
    ensures c1.Value() == c2.Value() <==> c1 == c2
  {
  }
}
