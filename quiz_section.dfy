/**
 * app/posts/blog/components/quiz/QuizSection.tsx: the quiz part of the
 * blog editor. It keeps the form's `quiz` field, whether the quiz modal
 * is open, whether the saved quiz is being edited, the view shown in the
 * modal and the number of questions to ask the AI for.
 */
module QuizSection {
  import opened Wrappers
  import opened QuizTypes

  /** What `handlePreview` renders in the modal. */
  datatype Preview<Q> =
    | BlogPreview
    | QuizDisplay(questions: seq<Q>)
    | QuizCreator(initialQuestions: Option<seq<Q>>)
    | NoPreview

  const CreateTitle := "Crear Quiz"
  const EditTitle := "Editar Quiz"
  const PreviewTitle := "Vista Previa del Quiz"

  /** What `handleOnSave` writes to the field: the questions if there are any, otherwise nothing. */
  function SavedValue<Q>(questions: Option<seq<Q>>): (r: Option<seq<Q>>)
    ensures r.Some? <==> HasSavedQuiz(questions)
    ensures r.Some? ==> r == questions
  {
    if HasSavedQuiz(questions) then questions else None
  }

  /** Every piece of the section's state. */
  datatype Section<Q> = Section(
    quiz: Option<seq<Q>>, isModalOpen: bool, isEditingQuiz: bool,
    activeView: string, selectedCount: int, quizChanges: nat)

  class QuizSectionView<Q> {
    const postId: Option<int>
    /** Whether the parent passed `onQuizChange`. */
    const hasOnQuizChange: bool
    /** The form's `quiz` field. */
    var quiz: Option<seq<Q>>
    var isModalOpen: bool
    var isEditingQuiz: bool
    var activeView: string
    var selectedCount: int
    /** How many times `onQuizChange` has been called. */
    var quizChanges: nat

    /** The current state as one value. */
    function State(): Section<Q>
      reads this
    {
      Section(quiz, isModalOpen, isEditingQuiz, activeView, selectedCount, quizChanges)
    }

    /**
     * Between events: the count is one of the pills' values, and a closed
     * modal is never in editing mode, because the effect on `isModalOpen`
     * resets editing whenever the modal closes.
     */
    predicate Valid()
      reads this
    {
      AllowedCount(selectedCount) && (!isModalOpen ==> !isEditingQuiz)
    }

    /** The first render, once the mount effect has run. */
    constructor (postId: Option<int>, hasOnQuizChange: bool, quiz: Option<seq<Q>>)
      ensures Valid()
      ensures this.postId == postId && this.hasOnQuizChange == hasOnQuizChange
      ensures State() == Section(quiz, false, false, "quiz", 5, 0)
    {
      this.postId, this.hasOnQuizChange := postId, hasOnQuizChange;
      this.quiz, isModalOpen, isEditingQuiz := quiz, false, false;
      activeView, selectedCount, quizChanges := "quiz", 5, 0;
    }

    /** `hasSavedQuiz` for the current field. */
    predicate Saved()
      reads this
    {
      HasSavedQuiz(quiz)
    }

    /**
     * `handlePreview`: the blog view shows the blog; the quiz view shows
     * the saved quiz unless it is being edited, and the creator (seeded
     * with the field) otherwise; any other view shows nothing.
     */
    function CurrentPreview(): Preview<Q>
      reads this
    {
      if activeView == "blog" then BlogPreview
      else if activeView == "quiz" then
        if Saved() && !isEditingQuiz then QuizDisplay(quiz.value) else QuizCreator(quiz)
      else NoPreview
    }

    /** Which content each view selects. */
    lemma PreviewByView()
      ensures CurrentPreview() == BlogPreview <==> activeView == "blog"
      ensures CurrentPreview().QuizDisplay? <==> activeView == "quiz" && Saved() && !isEditingQuiz
      ensures CurrentPreview().QuizCreator? <==> activeView == "quiz" && (!Saved() || isEditingQuiz)
      ensures CurrentPreview().QuizCreator? ==> CurrentPreview().initialQuestions == quiz
      ensures CurrentPreview() == NoPreview <==> activeView != "blog" && activeView != "quiz"
    {
    }

    /** The modal's title. */
    function ModalTitle(): (r: string)
      reads this
      ensures !Saved() ==> r == CreateTitle
      ensures Saved() && isEditingQuiz ==> r == EditTitle
      ensures Saved() && !isEditingQuiz ==> r == PreviewTitle
    {
      if Saved() then (if isEditingQuiz then EditTitle else PreviewTitle) else CreateTitle
    }

    /**
     * In the quiz view the title and the content agree: the preview title
     * goes with the saved quiz's display, and the create and edit titles
     * with the creator, which is seeded with a saved quiz exactly when the
     * title is the editing one.
     */
    lemma TitleMatchesPreview()
      requires activeView == "quiz"
      ensures CurrentPreview().QuizDisplay? <==> ModalTitle() == PreviewTitle
      ensures CurrentPreview().QuizDisplay? ==> CurrentPreview().questions == quiz.value
      ensures CurrentPreview().QuizCreator? <==> ModalTitle() == CreateTitle || ModalTitle() == EditTitle
      ensures CurrentPreview().QuizCreator? ==>
        (HasSavedQuiz(CurrentPreview().initialQuestions) <==> ModalTitle() == EditTitle)
    {
    }

    /**
     * `handleOnSave`: the field keeps the questions only when there are
     * some, editing ends, the modal stays as it is, and the parent is
     * told when it asked to be.
     */
    method HandleOnSave(questions: Option<seq<Q>>)
      requires Valid()
      modifies this
      ensures Valid()
      ensures State() == old(State()).(quiz := SavedValue(questions), isEditingQuiz := false,
                                       quizChanges := old(quizChanges) + if hasOnQuizChange then 1 else 0)
    {
      quiz := SavedValue(questions);
      isEditingQuiz := false;
      if hasOnQuizChange {
        quizChanges := quizChanges + 1;
      }
    }

    /** `handleShowSavedQuiz` and `handleManualCreate`: open the modal. */
    method OpenModal()
      requires Valid()
      modifies this
      ensures Valid()
      ensures State() == old(State()).(isModalOpen := true)
    {
      isModalOpen := true;
    }

    /** The modal's `onClose`, followed by the effect that resets editing. */
    method CloseModal()
      requires Valid()
      modifies this
      ensures Valid()
      ensures State() == old(State()).(isModalOpen := false, isEditingQuiz := false)
    {
      isModalOpen := false;
      isEditingQuiz := false;
    }

    /** The display's `onEdit`, offered only while the saved quiz is displayed in the open modal. */
    method StartEditing()
      requires Valid() && isModalOpen && CurrentPreview().QuizDisplay?
      modifies this
      ensures Valid()
      ensures State() == old(State()).(isEditingQuiz := true)
    {
      isEditingQuiz := true;
    }

    /** The view toggler's `onViewChange`. */
    method SetActiveView(view: string)
      requires Valid()
      modifies this
      ensures Valid()
      ensures State() == old(State()).(activeView := view)
    {
      activeView := view;
    }

    /** A count pill on the card shown without a saved quiz: effective only with a post id. */
    method SelectCountWithoutQuiz(count: int)
      requires Valid() && AllowedCount(count)
      modifies this
      ensures Valid()
      ensures PostIdPresent(postId) ==> State() == old(State()).(selectedCount := count)
      ensures !PostIdPresent(postId) ==> State() == old(State())
    {
      if PostIdPresent(postId) {
        selectedCount := count;
      }
    }

    /** A count pill on the card shown with a saved quiz: always effective. */
    method SelectCountWithQuiz(count: int)
      requires Valid() && AllowedCount(count)
      modifies this
      ensures Valid()
      ensures State() == old(State()).(selectedCount := count)
    {
      selectedCount := count;
    }

    /**
     * `handleAIGenerate`, with the service's outcome given. Without a post
     * id nothing is requested and nothing changes. Otherwise the request
     * carries the post id and the selected count; a non-empty result
     * replaces the field, opens the modal and tells the parent, while an
     * empty result or a failure changes nothing.
     */
    method HandleAIGenerate(outcome: GenerateOutcome<Q>) returns (request: Option<QuizRequest>)
      requires Valid()
      modifies this
      ensures Valid()
      ensures request.Some? <==> PostIdPresent(postId)
      ensures request.Some? ==> request.value == QuizRequest(postId.value, selectedCount)
      ensures request.Some? && outcome.Generated? && outcome.questions != [] ==>
        State() == old(State()).(quiz := Some(outcome.questions), isModalOpen := true,
                                 quizChanges := old(quizChanges) + if hasOnQuizChange then 1 else 0)
      ensures request.None? || outcome.RequestFailed? || outcome.questions == [] ==>
        State() == old(State())
    {
      if !PostIdPresent(postId) {
        return None;
      }
      request := Some(QuizRequest(postId.value, selectedCount));
      match outcome {
        case RequestFailed =>
        case Generated(questions) =>
          if |questions| == 0 {
            return;
          }
          quiz := Some(questions);
          isModalOpen := true;
          if hasOnQuizChange {
            quizChanges := quizChanges + 1;
          }
      }
    }
  }

  /**
   * Saving from the open modal: the modal stays open, editing ends, and
   * the title tells whether anything was kept.
   */
  method SaveInModal<Q>(section: QuizSectionView<Q>, questions: Option<seq<Q>>) returns (title: string)
    requires section.Valid() && section.isModalOpen
    modifies section
    ensures section.Valid() && section.isModalOpen && !section.isEditingQuiz
    ensures HasSavedQuiz(questions) ==> title == PreviewTitle
    ensures !HasSavedQuiz(questions) ==> title == CreateTitle
  {
    section.HandleOnSave(questions);
    title := section.ModalTitle();
  }

  /** A successful AI generation ends with the generated quiz displayed under the preview title. */
  method GenerateThenPreview<Q>(section: QuizSectionView<Q>, questions: seq<Q>) returns (shown: Preview<Q>, title: string)
    requires section.Valid() && PostIdPresent(section.postId) && questions != []
    requires section.activeView == "quiz" && !section.isEditingQuiz
    modifies section
    ensures section.Valid() && section.isModalOpen
    ensures shown == QuizDisplay(questions) && title == PreviewTitle
  {
    var request := section.HandleAIGenerate(Generated(questions));
    shown := section.CurrentPreview();
    title := section.ModalTitle();
  }
}
