/**
 * The create-post dialog: its form state, the Post button's enable
 * condition, and the confirm/discard handlers.
 */
module CreatePost {
  import opened Wrappers
  import opened Js
  import opened Text
  import opened Ui

  /** The `createPost` call the Post confirmation makes. */
  datatype CreateRequest = CreateRequest(title: string, content: string, mediaType: string, mediaUrl: Value)

  /** The Post button's `disabled={!title.trim() || !content.trim() || isSubmitting}`, negated. */
  function PostEnabled(title: string, content: string, isSubmitting: bool): (r: bool)
    ensures r ==> Trim(title) != "" && Trim(content) != ""
    ensures isSubmitting ==> !r
  {
    !(Trim(title) == "" || Trim(content) == "" || isSubmitting)
  }

  /**
   * Post is enabled exactly when neither field is blank and nothing is in
   * flight, and then the title and content it sends are non-empty and
   * carry no white space at either end.
   */
  lemma PostEnabledMeans(title: string, content: string, isSubmitting: bool)
    ensures PostEnabled(title, content, isSubmitting) <==> !AllSpace(title) && !AllSpace(content) && !isSubmitting
    ensures PostEnabled(title, content, isSubmitting) ==>
              Trim(title) != "" && Trim(content) != "" && IsTrimmed(Trim(title)) && IsTrimmed(Trim(content))
  {
    TrimEmptyIffAllSpace(title);
    TrimEmptyIffAllSpace(content);
    TrimIsTrimmed(title);
    TrimIsTrimmed(content);
  }

  class CreatePostModal {
    /** The `initialMediaType` prop, `'Text'` unless the parent passes one. */
    var initialMediaType: string
    var title: string
    var content: string
    var mediaType: string
    var showPostConfirm: bool
    var showDiscardConfirm: bool
    var isSubmitting: bool
    var error: Option<string>

    /** The form as cleared by `resetForm`. */
    predicate IsReset()
      reads this
    {
      title == "" && content == "" && mediaType == initialMediaType && error == None && !isSubmitting
    }

    constructor (initialMediaType: string)
      ensures this.initialMediaType == initialMediaType && IsReset()
      ensures !showPostConfirm && !showDiscardConfirm
    {
      this.initialMediaType := initialMediaType;
      title, content, mediaType := "", "", initialMediaType;
      showPostConfirm, showDiscardConfirm, isSubmitting := false, false, false;
      error := None;
    }

    /**
     * The effect on `[initialMediaType, isOpen]`, run when either changes:
     * an open dialog takes the parent's current media type.
     */
    method OnPropsChange(isOpen: bool, newInitialMediaType: string)
      modifies this
      ensures initialMediaType == newInitialMediaType
      ensures isOpen ==> mediaType == newInitialMediaType
      ensures !isOpen ==> mediaType == old(mediaType)
      ensures title == old(title) && content == old(content) && error == old(error) && isSubmitting == old(isSubmitting)
      ensures showPostConfirm == old(showPostConfirm) && showDiscardConfirm == old(showDiscardConfirm)
    {
      initialMediaType := newInitialMediaType;
      if isOpen {
        mediaType := initialMediaType;
      }
    }

    method SetTitle(value: string)
      modifies this
      ensures title == value
      ensures content == old(content) && mediaType == old(mediaType) && initialMediaType == old(initialMediaType)
      ensures error == old(error) && isSubmitting == old(isSubmitting)
      ensures showPostConfirm == old(showPostConfirm) && showDiscardConfirm == old(showDiscardConfirm)
    {
      title := value;
    }

    method SetContent(value: string)
      modifies this
      ensures content == value
      ensures title == old(title) && mediaType == old(mediaType) && initialMediaType == old(initialMediaType)
      ensures error == old(error) && isSubmitting == old(isSubmitting)
      ensures showPostConfirm == old(showPostConfirm) && showDiscardConfirm == old(showDiscardConfirm)
    {
      content := value;
    }

    /** A click on one of the media-type buttons. */
    method SelectMediaType(choice: string)
      modifies this
      ensures mediaType == choice
      ensures title == old(title) && content == old(content) && initialMediaType == old(initialMediaType)
      ensures error == old(error) && isSubmitting == old(isSubmitting)
      ensures showPostConfirm == old(showPostConfirm) && showDiscardConfirm == old(showDiscardConfirm)
    {
      mediaType := choice;
    }

    /** `resetForm`. */
    method ResetForm()
      modifies this
      ensures IsReset()
      ensures initialMediaType == old(initialMediaType)
      ensures showPostConfirm == old(showPostConfirm) && showDiscardConfirm == old(showDiscardConfirm)
    {
      title := "";
      content := "";
      mediaType := initialMediaType;
      error := None;
      isSubmitting := false;
    }

    /** `handlePost`: clear the error and ask for confirmation. */
    method HandlePost()
      modifies this
      ensures error == None && showPostConfirm
      ensures title == old(title) && content == old(content) && mediaType == old(mediaType)
      ensures initialMediaType == old(initialMediaType) && isSubmitting == old(isSubmitting)
      ensures showDiscardConfirm == old(showDiscardConfirm)
    {
      error := None;
      showPostConfirm := true;
    }

    /**
     * `handleConfirmPost`. `outcome` is how `createPost` settles; `request`
     * is the post sent and `callbacks` the parent's callbacks run, in order.
     * On success the form is reset; on failure the typed text is kept.
     */
    method ConfirmPost(outcome: Result<Value, string>, hasOnPostCreated: bool)
      returns (request: CreateRequest, callbacks: seq<Callback>)
      modifies this
      ensures request == CreateRequest(Trim(old(title)), Trim(old(content)), old(mediaType), Null)
      ensures outcome.Ok? ==> !showPostConfirm && IsReset()
      ensures outcome.Ok? ==> callbacks == if hasOnPostCreated then [OnClose, OnPostCreated] else [OnClose]
      ensures outcome.Err? ==> !showPostConfirm && error == Some(outcome.error) && callbacks == []
      ensures outcome.Err? ==> title == old(title) && content == old(content) && mediaType == old(mediaType)
      ensures !isSubmitting
      ensures initialMediaType == old(initialMediaType) && showDiscardConfirm == old(showDiscardConfirm)
    {
      isSubmitting := true;
      error := None;
      request := CreateRequest(Trim(title), Trim(content), mediaType, Null);
      callbacks := [];
      if outcome.Ok? {
        showPostConfirm := false;
        ResetForm();
        callbacks := callbacks + [OnClose];
        if hasOnPostCreated {
          callbacks := callbacks + [OnPostCreated];
        }
      } else {
        error := Some(outcome.error);
        showPostConfirm := false;
      }
      isSubmitting := false;
    }

    /** The Cancel button of the Post confirmation. */
    method CancelPostConfirm()
      modifies this
      ensures !showPostConfirm
      ensures title == old(title) && content == old(content) && mediaType == old(mediaType)
      ensures initialMediaType == old(initialMediaType) && error == old(error) && isSubmitting == old(isSubmitting)
      ensures showDiscardConfirm == old(showDiscardConfirm)
    {
      showPostConfirm := false;
    }

    /** `handleDiscard`: ask for confirmation. */
    method HandleDiscard()
      modifies this
      ensures showDiscardConfirm
      ensures title == old(title) && content == old(content) && mediaType == old(mediaType)
      ensures initialMediaType == old(initialMediaType) && error == old(error) && isSubmitting == old(isSubmitting)
      ensures showPostConfirm == old(showPostConfirm)
    {
      showDiscardConfirm := true;
    }

    /** `handleConfirmDiscard`: close the confirmation, clear the form, close the dialog. */
    method ConfirmDiscard() returns (callbacks: seq<Callback>)
      modifies this
      ensures !showDiscardConfirm && IsReset() && callbacks == [OnClose]
      ensures initialMediaType == old(initialMediaType) && showPostConfirm == old(showPostConfirm)
    {
      showDiscardConfirm := false;
      ResetForm();
      callbacks := [OnClose];
    }

    /** The Cancel button of the discard confirmation. */
    method CancelDiscardConfirm()
      modifies this
      ensures !showDiscardConfirm
      ensures title == old(title) && content == old(content) && mediaType == old(mediaType)
      ensures initialMediaType == old(initialMediaType) && error == old(error) && isSubmitting == old(isSubmitting)
      ensures showPostConfirm == old(showPostConfirm)
    {
      showDiscardConfirm := false;
    }
  }
}
