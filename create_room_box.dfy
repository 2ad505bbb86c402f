/** The create-room dialog: a form holding a room title, a room type and the two
    session defaults, reset to its defaults each time it opens, and submitted to
    the caller's `onCreateRoom` together with the region read at mount. */
module CreateRoomBox {
  import opened Wrappers
  import opened DialogInput
  import opened Preferences

  /** The room types the server knows. */
  datatype RoomType = BigClass | SmallClass | OneToOne

  datatype CreateFormValues = CreateFormValues(
    roomTitle: string,
    roomType: RoomType,
    autoMicOn: bool,
    autoCameraOn: bool)

  /** A call the dialog makes to the world outside it, in the order it makes them. */
  datatype CreateCall =
    | WriteAutoMicOn(on: bool)
    | WriteAutoCameraOn(on: bool)
    | CreateRoom(title: string, roomType: RoomType, region: Region)

  /** A user edit of one form field. */
  datatype CreateEdit =
    | EditRoomTitle(title: string)
    | EditRoomType(roomType: RoomType)
    | EditAutoMicOn(on: bool)
    | EditAutoCameraOn(on: bool)

  /** The longest title the form accepts. */
  const MaxTitleLength: nat := 50

  /** The title field's rules: `required`, then `max: 50`. */
  const TitleRules: seq<FieldRule> := [Required, Max(MaxTitleLength)]

  /** The title passes its rules exactly when it has 1 to 50 characters. */
  function TitleRulesOk(title: string): (r: bool)
    ensures r <==> 1 <= |title| <= MaxTitleLength
  {
    assert |TitleRules| == 2 && TitleRules[0] == Required && TitleRules[1] == Max(MaxTitleLength);
    RulesHold(TitleRules, title)
  }

  /** The form's `defaultValues`. `defaultTitle` is the translation of
      "create-room-default-title" with the user's name filled in; it is used only
      for a present, non-empty name. */
  function DefaultValues(userName: Option<string>, defaultTitle: string -> string,
                         prefsAutoMicOn: bool, prefsAutoCameraOn: bool): (v: CreateFormValues)
    ensures userName.Some? && userName.value != [] ==> v.roomTitle == defaultTitle(userName.value)
    ensures userName.None? || userName.value == [] ==> v.roomTitle == []
    ensures v.roomType == BigClass
    ensures v.autoMicOn == prefsAutoMicOn && v.autoCameraOn == prefsAutoCameraOn
  {
    var title := match userName
      case Some(name) => if name != [] then defaultTitle(name) else []
      case None => [];
    CreateFormValues(title, BigClass, prefsAutoMicOn, prefsAutoCameraOn)
  }

  /** Without a user name the default title is empty, so the title rules reject
      the defaults until the user types a title. */
  lemma NamelessDefaultsRejected(defaultTitle: string -> string, mic: bool, camera: bool)
    ensures !TitleRulesOk(DefaultValues(None, defaultTitle, mic, camera).roomTitle)
    ensures !TitleRulesOk(DefaultValues(Some([]), defaultTitle, mic, camera).roomTitle)
  {
  }

  class CreateRoomDialog {
    const prefs: PreferencesStore
    /** The region read from the preferences store once, at mount. */
    const roomRegion: Region

    var isLoading: bool
    var isShowModal: bool
    var isFormValidated: bool
    var form: CreateFormValues

    /** Every call made to the preferences store and to `onCreateRoom`, in order. */
    var calls: seq<CreateCall>
    /** The `onCreateRoom` calls that have not settled yet. */
    var pending: nat

    /** The button shows loading only while a creation is in flight, and every
        creation request was preceded by a camera write, carried a title that
        passed the form's rules, and carried the region read at mount. */
    ghost predicate Valid()
      reads this
    {
      (isLoading ==> pending > 0)
      && forall k :: 0 <= k < |calls| && calls[k].CreateRoom? ==>
           1 <= k && calls[k - 1].WriteAutoCameraOn?
           && TitleRulesOk(calls[k].title) && calls[k].region == roomRegion
    }

    /** The mounted, closed dialog: the form holds the defaults of the first
        render and the region is read from the preferences store. */
    constructor (prefs: PreferencesStore, userName: Option<string>, defaultTitle: string -> string)
      ensures Valid() && this.prefs == prefs && roomRegion == prefs.region
      ensures !isLoading && !isShowModal && !isFormValidated
      ensures form == DefaultValues(userName, defaultTitle, prefs.autoMicOn, prefs.autoCameraOn)
      ensures calls == [] && pending == 0
    {
      this.prefs := prefs;
      roomRegion := prefs.GetRegion();
      isLoading, isShowModal, isFormValidated := false, false, false;
      form := DefaultValues(userName, defaultTitle, prefs.autoMicOn, prefs.autoCameraOn);
      calls, pending := [], 0;
    }

    /** The begin button is disabled exactly when the last validation found a
        field error; unlike the join button, it does not look at the title. */
    function SubmitButtonDisabled(): (r: bool)
      reads this
      ensures r <==> !isFormValidated
    {
      !isFormValidated
    }

    /** The open handler: reset the form to the defaults computed from the
        current user name and preferences, open the dialog, then run
        `formValidateStatus`. */
    method Open(userName: Option<string>, defaultTitle: string -> string, noFieldErrors: bool)
      requires Valid()
      modifies this, prefs
      ensures Valid() && isShowModal
      ensures form == DefaultValues(userName, defaultTitle, old(prefs.autoMicOn), old(prefs.autoCameraOn))
      ensures isFormValidated == noFieldErrors
      ensures prefs.autoMicOn == old(prefs.autoMicOn) && prefs.autoCameraOn == old(prefs.autoCameraOn)
      ensures prefs.region == old(prefs.region)
      ensures calls == old(calls) + [WriteAutoMicOn(form.autoMicOn), WriteAutoCameraOn(form.autoCameraOn)]
      ensures isLoading == old(isLoading) && pending == old(pending)
    {
      form := DefaultValues(userName, defaultTitle, prefs.autoMicOn, prefs.autoCameraOn);
      isShowModal := true;
      FormValidateStatus(noFieldErrors);
    }

    /** `formValidateStatus`: record whether any field has an error, then write
        both session defaults to the preferences store, microphone first. */
    method FormValidateStatus(noFieldErrors: bool)
      requires Valid()
      modifies this, prefs
      ensures Valid()
      ensures isFormValidated == noFieldErrors
      ensures prefs.autoMicOn == form.autoMicOn && prefs.autoCameraOn == form.autoCameraOn
      ensures prefs.region == old(prefs.region)
      ensures calls == old(calls) + [WriteAutoMicOn(form.autoMicOn), WriteAutoCameraOn(form.autoCameraOn)]
      ensures form == old(form) && isLoading == old(isLoading) && isShowModal == old(isShowModal)
      ensures pending == old(pending)
    {
      isFormValidated := noFieldErrors;
      prefs.UpdateAutoMicOn(form.autoMicOn);
      prefs.UpdateAutoCameraOn(form.autoCameraOn);
      calls := calls + [WriteAutoMicOn(form.autoMicOn), WriteAutoCameraOn(form.autoCameraOn)];
    }

    /** A user edit: the form stores the new value and reports the change to
        `formValidateStatus`. */
    method ChangeField(edit: CreateEdit, noFieldErrors: bool)
      requires Valid()
      modifies this, prefs
      ensures Valid()
      ensures form == match edit
        case EditRoomTitle(t) => old(form).(roomTitle := t)
        case EditRoomType(ty) => old(form).(roomType := ty)
        case EditAutoMicOn(on) => old(form).(autoMicOn := on)
        case EditAutoCameraOn(on) => old(form).(autoCameraOn := on)
      ensures isFormValidated == noFieldErrors
      ensures prefs.autoMicOn == form.autoMicOn && prefs.autoCameraOn == form.autoCameraOn
      ensures prefs.region == old(prefs.region)
      ensures calls == old(calls) + [WriteAutoMicOn(form.autoMicOn), WriteAutoCameraOn(form.autoCameraOn)]
      ensures isLoading == old(isLoading) && isShowModal == old(isShowModal) && pending == old(pending)
    {
      match edit {
        case EditRoomTitle(t) => form := form.(roomTitle := t);
        case EditRoomType(ty) => form := form.(roomType := ty);
        case EditAutoMicOn(on) => form := form.(autoMicOn := on);
        case EditAutoCameraOn(on) => form := form.(autoCameraOn := on);
      }
      FormValidateStatus(noFieldErrors);
    }

    /** `handleOk` up to the `onCreateRoom` call: when the title rules pass, show
        loading, write the camera default (the microphone default is not
        written), and call `onCreateRoom` with the title, the type and the
        region read at mount; otherwise change nothing. */
    method HandleOk() returns (creating: bool)
      requires Valid()
      modifies this, prefs
      ensures Valid()
      ensures creating <==> TitleRulesOk(old(form).roomTitle)
      ensures !creating ==> unchanged(this) && unchanged(prefs)
      ensures creating ==> isLoading && pending == old(pending) + 1
      ensures creating ==> calls == old(calls) + [WriteAutoCameraOn(form.autoCameraOn),
                                                  CreateRoom(form.roomTitle, form.roomType, roomRegion)]
      ensures creating ==> prefs.autoCameraOn == form.autoCameraOn
      ensures prefs.autoMicOn == old(prefs.autoMicOn) && prefs.region == old(prefs.region)
      ensures form == old(form) && isShowModal == old(isShowModal) && isFormValidated == old(isFormValidated)
    {
      if !TitleRulesOk(form.roomTitle) {
        return false;
      }
      isLoading := true;
      prefs.UpdateAutoCameraOn(form.autoCameraOn);
      calls := calls + [WriteAutoCameraOn(form.autoCameraOn),
                        CreateRoom(form.roomTitle, form.roomType, roomRegion)];
      pending := pending + 1;
      creating := true;
    }

    /** The rest of `handleOk` once an `onCreateRoom` call settles: loading is
        cleared either way, and only a success closes the dialog. */
    method CreateSettled(succeeded: bool)
      requires Valid() && pending > 0
      modifies this
      ensures Valid()
      ensures !isLoading && pending == old(pending) - 1
      ensures isShowModal == (old(isShowModal) && !succeeded)
      ensures form == old(form) && isFormValidated == old(isFormValidated) && calls == old(calls)
    {
      isLoading := false;
      pending := pending - 1;
      if succeeded {
        isShowModal := false;
      }
    }

    /** `submitOnEnter`: a bare Enter runs `handleOk`; any other key changes nothing. */
    method SubmitOnEnter(ev: KeyEvent) returns (creating: bool)
      requires Valid()
      modifies this, prefs
      ensures Valid()
      ensures creating <==> IsSubmitKey(ev) && TitleRulesOk(old(form).roomTitle)
      ensures !creating ==> unchanged(this) && unchanged(prefs)
      ensures creating ==> isLoading && pending == old(pending) + 1
      ensures creating ==> calls == old(calls) + [WriteAutoCameraOn(form.autoCameraOn),
                                                  CreateRoom(form.roomTitle, form.roomType, roomRegion)]
      ensures creating ==> prefs.autoCameraOn == form.autoCameraOn
      ensures prefs.autoMicOn == old(prefs.autoMicOn) && prefs.region == old(prefs.region)
      ensures form == old(form) && isShowModal == old(isShowModal) && isFormValidated == old(isFormValidated)
    {
      creating := false;
      if IsSubmitKey(ev) {
        creating := HandleOk();
      }
    }

    /** `handleCancel`: close the dialog and nothing else; the edits stay in the
        form until the next open resets it. */
    method HandleCancel()
      requires Valid()
      modifies this
      ensures Valid() && !isShowModal
      ensures form == old(form) && isLoading == old(isLoading) && isFormValidated == old(isFormValidated)
      ensures calls == old(calls) && pending == old(pending)
    {
      isShowModal := false;
    }
  }

  /** Unlike the join button, the begin button does not consult the title: once
      the last validation found no field error it is enabled, even over an empty
      title that the title rules reject. */
  lemma BeginButtonIgnoresTitle(d: CreateRoomDialog)
    requires d.isFormValidated
    ensures !d.SubmitButtonDisabled()
    ensures d.form.roomTitle == [] ==> !TitleRulesOk(d.form.roomTitle)
  {
  }
}
