/**
 * app/posts/blog/components/quiz/AIQuizGenerator.tsx: the button that asks
 * the AI service for a quiz. `generateQuiz` is split at its `await`: the
 * start validates and raises `isGenerating`, the settlement is given the
 * service's outcome.
 */
module AIQuizGenerator {
  import opened Wrappers
  import opened QuizTypes

  const NoPostIdError := "No se puede generar un quiz de IA sin un ID de publicación existente. Guarda tu blog primero."
  const EmptyResultError := "No se generaron preguntas. Intenta nuevamente con un contenido más detallado."
  const RequestError := "Error al generar el quiz. Por favor, intenta nuevamente."

  /** Every piece of the generator's state. */
  datatype Generator<Q> = Generator(
    isGenerating: bool, error: Option<string>, selectedCount: int,
    quiz: Option<seq<Q>>, generated: seq<seq<Q>>)

  class AIQuizGeneratorView<Q> {
    const postId: Option<int>
    /** Whether the parent passed `onQuizGenerated`. */
    const hasOnQuizGenerated: bool
    var isGenerating: bool
    var error: Option<string>
    var selectedCount: int
    /** The form's `quiz` field. */
    var quiz: Option<seq<Q>>
    /** The lists handed to `onQuizGenerated`, in order. */
    var generated: seq<seq<Q>>

    /** The current state as one value. */
    function State(): Generator<Q>
      reads this
    {
      Generator(isGenerating, error, selectedCount, quiz, generated)
    }

    /** The count is one of the buttons' values, and only a post with an id is ever being generated for. */
    predicate Valid()
      reads this
    {
      AllowedCount(selectedCount) && (isGenerating ==> PostIdPresent(postId))
    }

    /** The first render. */
    constructor (postId: Option<int>, hasOnQuizGenerated: bool, quiz: Option<seq<Q>>)
      ensures Valid()
      ensures this.postId == postId && this.hasOnQuizGenerated == hasOnQuizGenerated
      ensures State() == Generator(false, None, 5, quiz, [])
    {
      this.postId, this.hasOnQuizGenerated := postId, hasOnQuizGenerated;
      isGenerating, error, selectedCount := false, None, 5;
      this.quiz, generated := quiz, [];
    }

    /** `disabled={isGenerating || !postId}` on every button. */
    predicate Disabled()
      reads this
    {
      isGenerating || !PostIdPresent(postId)
    }

    /**
     * `generateQuiz` up to its request. Without a post id the save-first
     * error is shown and nothing is requested; otherwise generation starts
     * with the error cleared and the service is asked for that many
     * questions of the post.
     */
    method GenerateQuiz(numberOfQuestions: int) returns (request: Option<QuizRequest>)
      requires Valid()
      modifies this
      ensures Valid()
      ensures request.Some? <==> PostIdPresent(postId)
      ensures request.None? ==> State() == old(State()).(error := Some(NoPostIdError)) && !isGenerating
      ensures request.Some? ==>
        && request.value == QuizRequest(postId.value, numberOfQuestions)
        && State() == old(State()).(isGenerating := true, error := None)
    {
      if !PostIdPresent(postId) {
        error := Some(NoPostIdError);
        return None;
      }
      isGenerating := true;
      error := None;
      request := Some(QuizRequest(postId.value, numberOfQuestions));
    }

    /**
     * The rest of `generateQuiz`, once the service has answered. An empty
     * list or a failure records its error and leaves the form alone; a
     * non-empty list becomes the form's quiz and is handed, unchanged, to
     * the callback. Generation is over in every case.
     */
    method FinishGenerate(outcome: GenerateOutcome<Q>)
      requires Valid() && isGenerating
      modifies this
      ensures Valid() && !isGenerating
      ensures outcome.RequestFailed? ==>
        State() == old(State()).(isGenerating := false, error := Some(RequestError))
      ensures outcome.Generated? && outcome.questions == [] ==>
        State() == old(State()).(isGenerating := false, error := Some(EmptyResultError))
      ensures outcome.Generated? && outcome.questions != [] ==>
        State() == old(State()).(isGenerating := false, quiz := Some(outcome.questions),
          generated := old(generated) + if hasOnQuizGenerated then [outcome.questions] else [])
    {
      match outcome {
        case RequestFailed =>
          error := Some(RequestError);
          isGenerating := false;
        case Generated(questions) =>
          if |questions| == 0 {
            error := Some(EmptyResultError);
            isGenerating := false;
            return;
          }
          quiz := Some(questions);
          if hasOnQuizGenerated {
            generated := generated + [questions];
          }
          isGenerating := false;
      }
    }

    /** The generate button: a disabled button ignores the click, an enabled one starts with the selected count. */
    method ClickGenerate() returns (request: Option<QuizRequest>)
      requires Valid()
      modifies this
      ensures Valid()
      ensures old(Disabled()) ==> request.None? && State() == old(State())
      ensures !old(Disabled()) ==>
        && request == Some(QuizRequest(postId.value, selectedCount))
        && State() == old(State()).(isGenerating := true, error := None)
    {
      if Disabled() {
        return None;
      }
      request := GenerateQuiz(selectedCount);
    }

    /** A count button: ignored while disabled, otherwise selects its count. */
    method SelectCount(count: int)
      requires Valid() && AllowedCount(count)
      modifies this
      ensures Valid()
      ensures old(Disabled()) ==> State() == old(State())
      ensures !old(Disabled()) ==> State() == old(State()).(selectedCount := count)
    {
      if !Disabled() {
        selectedCount := count;
      }
    }
  }

  /**
   * A whole click that the service answers: the request asks for the
   * selected count, generation is over afterwards, and the form holds the
   * questions exactly when some came back.
   */
  method GenerateRound<Q>(view: AIQuizGeneratorView<Q>, outcome: GenerateOutcome<Q>)
    returns (request: Option<QuizRequest>)
    requires view.Valid() && !view.Disabled()
    modifies view
    ensures view.Valid() && !view.isGenerating
    ensures request == Some(QuizRequest(view.postId.value, view.selectedCount))
    ensures outcome.Generated? && outcome.questions != [] ==> view.quiz == Some(outcome.questions) && view.error == None
    ensures !(outcome.Generated? && outcome.questions != []) ==> view.quiz == old(view.quiz) && view.error.Some?
  {
    request := view.ClickGenerate();
    view.FinishGenerate(outcome);
  }
}
