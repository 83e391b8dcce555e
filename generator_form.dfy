/** The generation form: its five fields, the reset when the content type
    changes, the field handlers, and the submit handler's validation. */
module GeneratorForm {
  import opened Types
  import opened Text
  import opened Catalog

  const InitialGenre: string := "Fantasy"
  const BlankPromptAlert: string := "Please provide an idea or prompt to generate content."

  /** `!promptText.trim()`: the text is empty once trimmed. */
  predicate IsBlank(s: string)
  {
    Trim(s) == ""
  }

  /** A prompt is blank exactly when it consists of whitespace only. */
  lemma BlankIffWhitespace(s: string)
    ensures IsBlank(s) <==> AllWhitespace(s)
  {
    TrimEmptyIffAllWhitespace(s);
  }

  /** What a submission does: nothing while a generation is in flight (the
      submit button is disabled, so the form is not submitted), an alert for
      a blank prompt, or one call of `onGenerate` with these parameters. */
  datatype SubmitOutcome = Blocked | Rejected(alertMessage: string) | Submitted(params: GenerationParams)

  class FormState {
    var contentType: ContentType
    var genre: string
    var tone: Tone
    var promptText: string
    var placeholder: string

    /** The `useState` initial values, before the first effect runs. */
    constructor ()
      ensures contentType == ShortStory && genre == InitialGenre && tone == Dramatic
      ensures promptText == "" && placeholder == ""
    {
      contentType := ShortStory;
      genre := InitialGenre;
      tone := Dramatic;
      promptText := "";
      placeholder := "";
    }

    /** The effect keyed on the content type: shows that type's placeholder
        and clears the prompt. It runs after the first render and after every
        change of the content type. */
    method ContentTypeEffect()
      modifies this
      ensures placeholder == TemplatePlaceholder(contentType) && promptText == ""
      ensures contentType == old(contentType) && genre == old(genre) && tone == old(tone)
    {
      var template := Template(contentType);
      TemplateEntry(contentType);
      placeholder := template.placeholder;
      promptText := "";
    }

    /** The content-type drop-down: a new value re-runs the effect; the same
        value changes nothing. */
    method SelectContentType(c: ContentType)
      modifies this
      ensures contentType == c && genre == old(genre) && tone == old(tone)
      ensures c != old(contentType) ==> placeholder == TemplatePlaceholder(c) && promptText == ""
      ensures c == old(contentType) ==> placeholder == old(placeholder) && promptText == old(promptText)
    {
      var changed := c != contentType;
      contentType := c;
      if changed {
        ContentTypeEffect();
      }
    }

    method SetGenre(g: string)
      modifies this
      ensures genre == g
      ensures contentType == old(contentType) && tone == old(tone)
      ensures promptText == old(promptText) && placeholder == old(placeholder)
    {
      genre := g;
    }

    method SetTone(t: Tone)
      modifies this
      ensures tone == t
      ensures contentType == old(contentType) && genre == old(genre)
      ensures promptText == old(promptText) && placeholder == old(placeholder)
    {
      tone := t;
    }

    method SetPromptText(p: string)
      modifies this
      ensures promptText == p
      ensures contentType == old(contentType) && genre == old(genre)
      ensures tone == old(tone) && placeholder == old(placeholder)
    {
      promptText := p;
    }

    /** `handleSubmit`. The prompt text is passed on as typed, untrimmed. */
    method Submit(isLoading: bool) returns (outcome: SubmitOutcome)
      ensures isLoading ==> outcome == Blocked
      ensures !isLoading && AllWhitespace(promptText) ==> outcome == Rejected(BlankPromptAlert)
      ensures !isLoading && !AllWhitespace(promptText) ==>
        outcome == Submitted(GenerationParams(contentType, genre, tone, promptText))
    {
      BlankIffWhitespace(promptText);
      if isLoading {
        outcome := Blocked;
      } else if IsBlank(promptText) {
        outcome := Rejected(BlankPromptAlert);
      } else {
        outcome := Submitted(GenerationParams(contentType, genre, tone, promptText));
      }
    }
  }

  /** The form as it stands after mounting: the initial values, then the
      effect for the initial content type. */
  method Mount() returns (form: FormState)
    ensures fresh(form)
    ensures form.contentType == ShortStory && form.genre == InitialGenre && form.tone == Dramatic
    ensures form.promptText == "" && form.placeholder == TemplatePlaceholder(ShortStory)
  {
    form := new FormState();
    form.ContentTypeEffect();
  }
}
