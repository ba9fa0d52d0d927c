/**
 * What the two quiz components share: the optional post id, the form's
 * `quiz` field, and the ways a call to the AI quiz service can end. The
 * questions themselves are opaque, so everything is generic in their type.
 */
module QuizTypes {
  import opened Wrappers

  /** `postId` is truthy: given, and not 0. */
  predicate PostIdPresent(postId: Option<int>)
  {
    postId.Some? && postId.value != 0
  }

  /** `Array.isArray(quiz) && quiz.length > 0`; an unset field is `None`. */
  predicate HasSavedQuiz<Q>(quiz: Option<seq<Q>>)
  {
    quiz.Some? && |quiz.value| > 0
  }

  /** The three numbers of questions the count pills offer. */
  predicate AllowedCount(count: int)
  {
    count == 3 || count == 5 || count == 7
  }

  /** How `aiQuizService.generateQuiz` ends: with a list of questions, or by throwing. */
  datatype GenerateOutcome<Q> = Generated(questions: seq<Q>) | RequestFailed

  /** The request the service is called with: the post and the number of questions. */
  datatype QuizRequest = QuizRequest(postId: int, count: int)
}
