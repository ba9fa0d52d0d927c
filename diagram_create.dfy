/**
 * app/posts/diagram/create/page.tsx: the page that creates a diagram post.
 * The drawing's elements and app state are opaque (`E` and `A`). The
 * submit is split at its `await`: the start validates and sends, the
 * settlement is given how the call ended.
 */
module DiagramCreate {
  import opened Wrappers
  import opened JsText

  const EmptyFieldsError := "El título y el diagrama no pueden estar vacíos."
  const SavedMessage := "¡Diagrama guardado con éxito!"
  const UnexpectedError := "Ocurrió un error inesperado."

  /** What is sent: the title as typed, the elements and the app state. */
  datatype DiagramData<E, A> = DiagramData(title: string, elements: seq<E>, appState: Option<A>)

  /** How the save call ends: normally, or by throwing an error with an optional message. */
  datatype SubmitOutcome = Saved | Threw(message: Option<string>)

  /** The message a thrown error leaves: its own when it has one, otherwise the generic one. */
  function ThrownMessage(message: Option<string>): (r: string)
    ensures r != ""
    ensures Truthy(message) ==> r == message.value
    ensures !Truthy(message) ==> r == UnexpectedError
  {
    OrElse(message, Some(UnexpectedError)).value
  }

  /** A submit goes ahead only with at least one element and a title that is not blank. */
  predicate SubmitValid<E>(elements: seq<E>, title: string)
  {
    |elements| > 0 && Trim(title) != ""
  }

  /** Every piece of the page's state. */
  datatype Page<E, A> = Page(
    title: string, elements: seq<E>, appState: Option<A>,
    isSubmitting: bool, error: Option<string>, success: Option<string>)

  class CreateDiagramPage<E, A> {
    var title: string
    var elements: seq<E>
    var appState: Option<A>
    var isSubmitting: bool
    var error: Option<string>
    var success: Option<string>

    /** The current state as one value. */
    function State(): Page<E, A>
      reads this
    {
      Page(title, elements, appState, isSubmitting, error, success)
    }

    /** The first render. */
    constructor ()
      ensures State() == Page("", [], None, false, None, None)
    {
      title, elements, appState := "", [], None;
      isSubmitting, error, success := false, None, None;
    }

    /** The title field's `onChange`. */
    method SetTitle(value: string)
      modifies this
      ensures State() == old(State()).(title := value)
    {
      title := value;
    }

    /** `handleDiagramChange`: keep the editor's elements and app state as given. */
    method HandleDiagramChange(newElements: seq<E>, newAppState: A)
      modifies this
      ensures State() == old(State()).(elements := newElements, appState := Some(newAppState))
    {
      elements := newElements;
      appState := Some(newAppState);
    }

    /**
     * `handleSubmit` up to its `await`. An invalid form only gets the
     * fixed error; a valid one starts submitting with error and success
     * cleared, and sends the current title, elements and app state.
     */
    method HandleSubmit() returns (sent: Option<DiagramData<E, A>>)
      modifies this
      ensures sent.Some? <==> old(SubmitValid(elements, title))
      ensures sent.None? ==> State() == old(State()).(error := Some(EmptyFieldsError))
      ensures sent.Some? ==>
        && sent.value == DiagramData(title, elements, appState)
        && State() == old(State()).(isSubmitting := true, error := None, success := None)
    {
      if |elements| == 0 || Trim(title) == "" {
        error := Some(EmptyFieldsError);
        return None;
      }
      isSubmitting := true;
      error := None;
      success := None;
      sent := Some(DiagramData(title, elements, appState));
    }

    /**
     * The rest of `handleSubmit`. A saved diagram shows the success message
     * and clears the title but keeps the drawing; a thrown error shows its
     * message. Submitting is over either way.
     */
    method SubmitSettled(outcome: SubmitOutcome)
      requires isSubmitting
      modifies this
      ensures !isSubmitting
      ensures outcome.Saved? ==>
        State() == old(State()).(isSubmitting := false, success := Some(SavedMessage), title := "")
      ensures outcome.Threw? ==>
        State() == old(State()).(isSubmitting := false, error := Some(ThrownMessage(outcome.message)))
    {
      match outcome {
        case Saved =>
          success := Some(SavedMessage);
          title := "";
        case Threw(message) =>
          error := Some(ThrownMessage(message));
      }
      isSubmitting := false;
    }
  }

  /**
   * A blank title is refused whatever the drawing holds, and the refusal
   * leaves nothing submitting.
   */
  method BlankTitleRefused<E, A>(page: CreateDiagramPage<E, A>, blank: string) returns (sent: Option<DiagramData<E, A>>)
    requires forall i :: 0 <= i < |blank| ==> IsWhitespace(blank[i])
    requires !page.isSubmitting
    modifies page
    ensures sent.None? && !page.isSubmitting && page.error == Some(EmptyFieldsError)
    ensures page.title == blank
  {
    page.SetTitle(blank);
    TrimEmpty(blank);
    sent := page.HandleSubmit();
  }

  /**
   * A valid submit followed by a save: the title is cleared, the drawing
   * stays, so submitting again is refused until a new title is typed.
   */
  method SaveThenResubmit<E, A>(page: CreateDiagramPage<E, A>) returns (first: Option<DiagramData<E, A>>, second: Option<DiagramData<E, A>>)
    requires SubmitValid(page.elements, page.title)
    modifies page
    ensures first.Some? && second.None?
    ensures page.success == Some(SavedMessage) && page.error == Some(EmptyFieldsError)
    ensures page.elements == old(page.elements) && page.title == "" && !page.isSubmitting
  {
    first := page.HandleSubmit();
    page.SubmitSettled(Saved);
    assert Trim(page.title) == "";
    second := page.HandleSubmit();
  }
}
