/**
 * The edit-post dialog: its form state, change detection, the Save button's
 * enable condition, and the confirm/cancel handlers.
 */
module EditPost {
  import opened Wrappers
  import opened Js
  import opened Text
  import opened Ui

  /** The fields of the `post` prop the dialog reads; `None` stands for a missing field. */
  datatype PostFields = PostFields(id: Value, title: Option<string>, content: Option<string>, mediaType: Option<string>)

  /** Title, content and media type, as the form and `originalValues` hold them. */
  datatype FormValues = FormValues(title: string, content: string, mediaType: string)

  /** The `updatePost` call the Save confirmation makes. */
  datatype UpdateRequest = UpdateRequest(postId: Value, title: string, content: string, mediaType: string, mediaUrl: Value)

  /** The message of the `TypeError` that reading `post.id` throws when there is no post. */
  const NullPostTypeError := "Cannot read properties of null (reading 'id')"

  /** `v || d` on an optional string. */
  function OrDefault(v: Option<string>, d: string): (r: string)
    ensures v.Some? && v.value != "" ==> r == v.value
    ensures v.None? || v.value == "" ==> r == d
  {
    if v.Some? && v.value != "" then v.value else d
  }

  /** `s.charAt(0).toUpperCase() + s.slice(1).toLowerCase()`. */
  function Capitalised(s: string): (r: string)
    ensures |r| == |s|
    ensures |s| > 0 ==> r[0] == UpperChar(s[0]) && r[1..] == ToLower(s[1..])
  {
    if s == "" then "" else [UpperChar(s[0])] + ToLower(s[1..])
  }

  /** The labels of the media-type buttons. */
  const Labels := ["Text", "Image", "Audio", "Video"]

  /** The normalisation does not depend on the letter case it is given. */
  lemma CapitalisedIgnoresCase(s: string)
    ensures Capitalised(ToUpper(s)) == Capitalised(s)
    ensures Capitalised(ToLower(s)) == Capitalised(s)
  {
    if s != "" {
      assert ToUpper(s)[1..] == ToUpper(s[1..]);
      assert ToLower(s)[1..] == ToLower(s[1..]);
      LowerOfUpper(s[1..]);
      assert ToLower(ToLower(s[1..])) == ToLower(s[1..]);
    }
  }

  /** A capitalised word is its own normal form. */
  lemma CapitalisedFixesWord(w: string)
    requires |w| > 0 && IsAsciiUpper(w[0])
    requires forall i :: 1 <= i < |w| ==> !IsAsciiUpper(w[i])
    ensures Capitalised(w) == w
  {
    assert ToLower(w[1..]) == w[1..];
  }

  /** The normalisation maps a button label in any letter case to the label itself. */
  lemma CapitalisedRecoversLabels(l: string)
    requires l in Labels
    ensures Capitalised(ToUpper(l)) == l && Capitalised(ToLower(l)) == l && Capitalised(l) == l
  {
    CapitalisedIgnoresCase(l);
    CapitalisedFixesWord(l);
  }

  /** The values a save would send: the text fields trimmed, the media type as selected. */
  function Submitted(current: FormValues): (v: FormValues)
    ensures v.mediaType == current.mediaType
    ensures IsTrimmed(v.title) && IsTrimmed(v.content)
  {
    TrimIsTrimmed(current.title);
    TrimIsTrimmed(current.content);
    FormValues(Trim(current.title), Trim(current.content), current.mediaType)
  }

  /** `hasChanges()`: the trimmed text fields and the media type against `originalValues`. */
  function HasChanges(current: FormValues, original: FormValues): (r: bool)
    ensures r <==> Submitted(current) != original
  {
    Trim(current.title) != original.title || Trim(current.content) != original.content ||
    current.mediaType != original.mediaType
  }

  /** The Save button's `disabled={...}` condition, negated. */
  function SaveEnabled(current: FormValues, original: FormValues, isSubmitting: bool): (r: bool)
    ensures r ==> Submitted(current) != original
    ensures r ==> Submitted(current).title != "" && Submitted(current).content != ""
    ensures isSubmitting ==> !r
  {
    !(Trim(current.title) == "" || Trim(current.content) == "" || !HasChanges(current, original) || isSubmitting)
  }

  /**
   * Save is enabled exactly when neither text field is blank, something has
   * changed, and no save is in flight.
   */
  lemma SaveEnabledMeans(current: FormValues, original: FormValues, isSubmitting: bool)
    ensures SaveEnabled(current, original, isSubmitting) <==>
              !AllSpace(current.title) && !AllSpace(current.content) && HasChanges(current, original) && !isSubmitting
  {
    TrimEmptyIffAllSpace(current.title);
    TrimEmptyIffAllSpace(current.content);
  }

  /** The values the opening effect puts in the form and in `originalValues`. */
  function OpenedValues(post: PostFields): (v: FormValues)
    ensures post.title.Some? ==> v.title == post.title.value
    ensures post.title.None? ==> v.title == ""
    ensures post.content.Some? ==> v.content == post.content.value
    ensures post.content.None? ==> v.content == ""
    ensures post.mediaType.Some? && post.mediaType.value != "" ==> v.mediaType == post.mediaType.value
    ensures post.mediaType.None? || post.mediaType.value == "" ==> v.mediaType == "Text"
    ensures v.mediaType != ""
  {
    FormValues(OrDefault(post.title, ""), OrDefault(post.content, ""), OrDefault(post.mediaType, "Text"))
  }

  /** Right after the opening effect, the form reports changes iff a stored text field has white space at an end. */
  lemma OpenedHasChangesIffUntrimmed(post: PostFields)
    ensures HasChanges(OpenedValues(post), OpenedValues(post)) <==>
              !IsTrimmed(OpenedValues(post).title) || !IsTrimmed(OpenedValues(post).content)
  {
    var v := OpenedValues(post);
    TrimIsTrimmed(v.title);
    TrimIsTrimmed(v.content);
    if IsTrimmed(v.title) { TrimOfTrimmed(v.title); }
    if IsTrimmed(v.content) { TrimOfTrimmed(v.content); }
  }

  /**
   * The values after both effects, as written, when they run together: on a
   * dialog mounted open, or when the post shown while open changes to one
   * with another media type. The `[isOpen, post]` effect runs first; the
   * `[post?.mediaType]` effect then normalises the form's media type but not
   * the stored original.
   */
  function OpenedAsWritten(post: PostFields): (r: (FormValues, FormValues))
    ensures r.1 == OpenedValues(post)
    ensures r.0.title == r.1.title && r.0.content == r.1.content
    ensures r.0.mediaType == Capitalised(r.1.mediaType)
    ensures r.0 != r.1 <==> r.1.mediaType != Capitalised(r.1.mediaType)
  {
    CapitalisedFixesWord("Text");
    var v := OpenedValues(post);
    var current := if post.mediaType.Some? && post.mediaType.value != "" then v.(mediaType := Capitalised(post.mediaType.value)) else v;
    (current, v)
  }

  /**
   * A post whose stored media type is `IMAGE`, as the create and update
   * calls send it, reports changes as soon as the form opens, so Save is
   * enabled before anything was edited.
   */
  lemma UpperCaseMediaTypeReportsChanges(id: Value, title: string, content: string)
    requires title != "" && content != "" && IsTrimmed(title) && IsTrimmed(content)
    ensures var (current, original) := OpenedAsWritten(PostFields(id, Some(title), Some(content), Some("IMAGE")));
            HasChanges(current, original) && SaveEnabled(current, original, false)
  {
    var (current, original) := OpenedAsWritten(PostFields(id, Some(title), Some(content), Some("IMAGE")));
    assert Capitalised("IMAGE") == "Image" by {
      assert ToLower("MAGE") == "mage";
    }
    assert current.mediaType != original.mediaType;
    TrimOfTrimmed(title);
    TrimOfTrimmed(content);
  }

  /** The opening with the media type normalised on both sides, as the comparison needs. */
  function OpenedNormalised(post: PostFields): (r: (FormValues, FormValues))
    ensures r.0 == r.1
    ensures r.0 == OpenedAsWritten(post).0
    ensures r.1.title == OpenedValues(post).title && r.1.content == OpenedValues(post).content
    ensures r.1.mediaType == Capitalised(OpenedValues(post).mediaType)
  {
    CapitalisedFixesWord("Text");
    var v := OpenedValues(post);
    var m := if post.mediaType.Some? && post.mediaType.value != "" then Capitalised(post.mediaType.value) else v.mediaType;
    (v.(mediaType := m), v.(mediaType := m))
  }

  /** With both sides normalised, an untouched form whose stored fields are trimmed reports no change. */
  lemma NormalisedOpeningIsClean(post: PostFields)
    requires IsTrimmed(OrDefault(post.title, "")) && IsTrimmed(OrDefault(post.content, ""))
    ensures var (current, original) := OpenedNormalised(post);
            !HasChanges(current, original) && !SaveEnabled(current, original, false)
  {
    TrimOfTrimmed(OrDefault(post.title, ""));
    TrimOfTrimmed(OrDefault(post.content, ""));
  }

  class EditPostModal {
    var title: string
    var content: string
    var mediaType: string
    var originalValues: FormValues
    var showSaveConfirm: bool
    var showDiscardConfirm: bool
    var isSubmitting: bool
    var error: Option<string>

    function Current(): FormValues
      reads this
    {
      FormValues(title, content, mediaType)
    }

    /** The initial `useState` values. */
    constructor ()
      ensures Current() == FormValues("", "", "Text") && originalValues == FormValues("", "", "Text")
      ensures !showSaveConfirm && !showDiscardConfirm && !isSubmitting && error == None
    {
      title, content, mediaType := "", "", "Text";
      originalValues := FormValues("", "", "Text");
      showSaveConfirm, showDiscardConfirm, isSubmitting := false, false, false;
      error := None;
    }

    /** The effect on `[isOpen, post]`: load the post into the form and into `originalValues`. */
    method OnOpenOrPostChange(isOpen: bool, post: Option<PostFields>)
      modifies this
      ensures isOpen && post.Some? ==> Current() == OpenedValues(post.value) && originalValues == OpenedValues(post.value) && error == None
      ensures !(isOpen && post.Some?) ==> Current() == old(Current()) && originalValues == old(originalValues) && error == old(error)
      ensures showSaveConfirm == old(showSaveConfirm) && showDiscardConfirm == old(showDiscardConfirm)
      ensures isSubmitting == old(isSubmitting)
    {
      if isOpen && post.Some? {
        var p := post.value;
        title := OrDefault(p.title, "");
        content := OrDefault(p.content, "");
        mediaType := OrDefault(p.mediaType, "Text");
        originalValues := FormValues(OrDefault(p.title, ""), OrDefault(p.content, ""), OrDefault(p.mediaType, "Text"));
        error := None;
      }
    }

    /** The effect on `[post?.mediaType]`: normalise the form's media type only. */
    method OnPostMediaTypeChange(post: Option<PostFields>)
      modifies this
      ensures post.Some? && post.value.mediaType.Some? && post.value.mediaType.value != "" ==>
                mediaType == Capitalised(post.value.mediaType.value)
      ensures !(post.Some? && post.value.mediaType.Some? && post.value.mediaType.value != "") ==> mediaType == old(mediaType)
      ensures title == old(title) && content == old(content) && originalValues == old(originalValues)
      ensures showSaveConfirm == old(showSaveConfirm) && showDiscardConfirm == old(showDiscardConfirm)
      ensures isSubmitting == old(isSubmitting) && error == old(error)
    {
      if post.Some? && post.value.mediaType.Some? && post.value.mediaType.value != "" {
        mediaType := Capitalised(post.value.mediaType.value);
      }
    }

    /**
     * Both effects in the order React runs them, as they do together on a
     * dialog mounted open on `p`, or on a post with another media type
     * arriving while the dialog is open.
     */
    method OpenOn(p: PostFields)
      modifies this
      ensures (Current(), originalValues) == OpenedAsWritten(p)
      ensures error == None
      ensures showSaveConfirm == old(showSaveConfirm) && showDiscardConfirm == old(showDiscardConfirm)
      ensures isSubmitting == old(isSubmitting)
    {
      OnOpenOrPostChange(true, Some(p));
      OnPostMediaTypeChange(Some(p));
    }

    method SetTitle(value: string)
      modifies this
      ensures title == value
      ensures content == old(content) && mediaType == old(mediaType) && originalValues == old(originalValues)
      ensures showSaveConfirm == old(showSaveConfirm) && showDiscardConfirm == old(showDiscardConfirm)
      ensures isSubmitting == old(isSubmitting) && error == old(error)
    {
      title := value;
    }

    method SetContent(value: string)
      modifies this
      ensures content == value
      ensures title == old(title) && mediaType == old(mediaType) && originalValues == old(originalValues)
      ensures showSaveConfirm == old(showSaveConfirm) && showDiscardConfirm == old(showDiscardConfirm)
      ensures isSubmitting == old(isSubmitting) && error == old(error)
    {
      content := value;
    }

    /** A click on one of the media-type buttons. */
    method SelectMediaType(choice: string)
      modifies this
      ensures mediaType == choice
      ensures title == old(title) && content == old(content) && originalValues == old(originalValues)
      ensures showSaveConfirm == old(showSaveConfirm) && showDiscardConfirm == old(showDiscardConfirm)
      ensures isSubmitting == old(isSubmitting) && error == old(error)
    {
      mediaType := choice;
    }

    /** `handleSave`: clear the error and ask for confirmation. */
    method HandleSave()
      modifies this
      ensures error == None && showSaveConfirm
      ensures Current() == old(Current()) && originalValues == old(originalValues)
      ensures showDiscardConfirm == old(showDiscardConfirm) && isSubmitting == old(isSubmitting)
    {
      error := None;
      showSaveConfirm := true;
    }

    /**
     * `handleConfirmSave`. `outcome` is how `updatePost` settles. `request`
     * is the update sent, `None` when reading `post.id` throws first;
     * `callbacks` are the parent's callbacks run, in order.
     */
    method ConfirmSave(post: Option<PostFields>, outcome: Result<Value, string>, hasOnPostUpdated: bool)
      returns (request: Option<UpdateRequest>, callbacks: seq<Callback>)
      modifies this
      ensures post.Some? ==> request == Some(UpdateRequest(post.value.id, Trim(old(title)), Trim(old(content)), old(mediaType), Null))
      ensures post.None? ==> request == None
      ensures post.Some? && outcome.Ok? ==> !showSaveConfirm && error == None
      ensures post.Some? && outcome.Ok? ==> callbacks == if hasOnPostUpdated then [OnClose, OnPostUpdated] else [OnClose]
      ensures post.Some? && outcome.Err? ==> !showSaveConfirm && error == Some(outcome.error) && callbacks == []
      ensures post.None? ==> !showSaveConfirm && error == Some(NullPostTypeError) && callbacks == []
      ensures !isSubmitting
      ensures Current() == old(Current()) && originalValues == old(originalValues)
      ensures showDiscardConfirm == old(showDiscardConfirm)
    {
      isSubmitting := true;
      error := None;
      callbacks := [];
      if post.None? {
        request := None;
        error := Some(NullPostTypeError);
        showSaveConfirm := false;
      } else {
        request := Some(UpdateRequest(post.value.id, Trim(title), Trim(content), mediaType, Null));
        if outcome.Ok? {
          showSaveConfirm := false;
          callbacks := callbacks + [OnClose];
          if hasOnPostUpdated {
            callbacks := callbacks + [OnPostUpdated];
          }
        } else {
          error := Some(outcome.error);
          showSaveConfirm := false;
        }
      }
      isSubmitting := false;
    }

    /** The Cancel button of the Save confirmation. */
    method CancelSaveConfirm()
      modifies this
      ensures !showSaveConfirm
      ensures Current() == old(Current()) && originalValues == old(originalValues)
      ensures showDiscardConfirm == old(showDiscardConfirm) && isSubmitting == old(isSubmitting) && error == old(error)
    {
      showSaveConfirm := false;
    }

    /** `handleDiscard`: clear the error and ask for confirmation. */
    method HandleDiscard()
      modifies this
      ensures error == None && showDiscardConfirm
      ensures Current() == old(Current()) && originalValues == old(originalValues)
      ensures showSaveConfirm == old(showSaveConfirm) && isSubmitting == old(isSubmitting)
    {
      error := None;
      showDiscardConfirm := true;
    }

    /** `handleConfirmDiscard`: close the confirmation and the dialog; the form is left as it is. */
    method ConfirmDiscard() returns (callbacks: seq<Callback>)
      modifies this
      ensures !showDiscardConfirm && callbacks == [OnClose]
      ensures Current() == old(Current()) && originalValues == old(originalValues)
      ensures showSaveConfirm == old(showSaveConfirm) && isSubmitting == old(isSubmitting) && error == old(error)
    {
      showDiscardConfirm := false;
      callbacks := [OnClose];
    }

    /** The Cancel button of the discard confirmation. */
    method CancelDiscardConfirm()
      modifies this
      ensures !showDiscardConfirm
      ensures Current() == old(Current()) && originalValues == old(originalValues)
      ensures showSaveConfirm == old(showSaveConfirm) && isSubmitting == old(isSubmitting) && error == old(error)
    {
      showDiscardConfirm := false;
    }

    /** `handleCancel`: both branches close the dialog, changes or not. */
    method HandleCancel() returns (callbacks: seq<Callback>)
      ensures callbacks == [OnClose]
    {
      if HasChanges(Current(), originalValues) {
        callbacks := [OnClose];
      } else {
        callbacks := [OnClose];
      }
    }
  }
}
