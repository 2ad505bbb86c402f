/** The join-room dialog: a form holding a room identifier and the two session
    defaults, pre-filled from the clipboard when the dialog opens, and submitted
    to the caller's `onJoinRoom`. */
module JoinRoomBox {
  import opened Wrappers
  import opened RoomUuid
  import opened DialogInput
  import opened Preferences

  /** The outcome of reading the clipboard: its text, or a rejected read. */
  datatype ClipboardRead = ClipboardText(text: string) | ClipboardFailed

  /** A call the dialog makes to the world outside it, in the order it makes them. */
  datatype JoinCall =
    | WriteAutoMicOn(on: bool)
    | WriteAutoCameraOn(on: bool)
    | JoinRoom(roomUuid: string)

  /** A user edit of one form field. */
  datatype JoinEdit =
    | EditRoomUuid(roomUuid: string)
    | EditAutoMicOn(on: bool)
    | EditAutoCameraOn(on: bool)

  /** The identifier field's rules: `required` alone. */
  const RoomUuidRules: seq<FieldRule> := [Required]

  /** The identifier passes its rules: any non-empty string does, whether or not
      it has the shape of a room identifier, and every identifier of the pattern
      does. */
  function RoomUuidRuleOk(roomUuid: string): (r: bool)
    ensures r <==> roomUuid != []
    ensures InPattern(roomUuid) ==> r
  {
    RulesHold(RoomUuidRules, roomUuid)
  }

  /** What opening the dialog writes into the identifier field: the identifier
      found in the clipboard text, or nothing when the read fails or nothing is
      found. The read's failure is swallowed. */
  function ClipboardPrefill(clipboard: ClipboardRead): (r: Option<string>)
    ensures clipboard.ClipboardFailed? ==> r.None?
    ensures clipboard.ClipboardText? ==> r == ExtractRoomUuid(clipboard.text)
    ensures r.Some? ==> InPattern(r.value) && RoomUuidRuleOk(r.value)
  {
    match clipboard
    case ClipboardFailed => None
    case ClipboardText(text) =>
      var m := ExtractRoomUuid(text);
      if m.Some? && m.value != [] then m else None
  }

  /** The join button's `disabled`: the form is not marked validated, or the
      identifier is empty once trimmed. */
  function SubmitDisabled(isFormValidated: bool, roomUuid: string): (r: bool)
    ensures r <==> !isFormValidated || forall k :: 0 <= k < |roomUuid| ==> IsJsWhitespace(roomUuid[k])
  {
    !isFormValidated || Trim(roomUuid) == []
  }

  /** An identifier pre-filled from the clipboard enables the join button: it is
      marked validated, and none of its characters is whitespace. */
  lemma PrefillEnablesButton(clipboard: ClipboardRead)
    requires ClipboardPrefill(clipboard).Some?
    ensures !SubmitDisabled(true, ClipboardPrefill(clipboard).value)
  {
    var m := ClipboardPrefill(clipboard).value;
    PatternChars(m);
    assert !IsJsWhitespace(m[0]);
  }

  /** An enabled join button implies that the `required` rule holds; the converse
      fails for a whitespace-only identifier, which the rule accepts and the
      button refuses. */
  lemma EnabledPassesRule(isFormValidated: bool, roomUuid: string)
    ensures !SubmitDisabled(isFormValidated, roomUuid) ==> RoomUuidRuleOk(roomUuid)
    ensures RoomUuidRuleOk(" ") && SubmitDisabled(isFormValidated, " ")
  {
    assert IsJsWhitespace(" "[0]);
  }

  class JoinRoomDialog {
    const prefs: PreferencesStore

    var isLoading: bool
    var isShowModal: bool
    var isFormValidated: bool

    // the form's values
    var roomUuid: string
    var autoMicOn: bool
    var autoCameraOn: bool

    /** Every call made to the preferences store and to `onJoinRoom`, in order. */
    var calls: seq<JoinCall>
    /** The `onJoinRoom` calls that have not settled yet. */
    var pending: nat

    /** The button shows loading only while a join is in flight, and every join
        request was preceded by the two preference writes and carried an
        identifier that passed the form's rule. */
    ghost predicate Valid()
      reads this
    {
      (isLoading ==> pending > 0)
      && forall k :: 0 <= k < |calls| && calls[k].JoinRoom? ==>
           2 <= k && calls[k - 2].WriteAutoMicOn? && calls[k - 1].WriteAutoCameraOn?
           && RoomUuidRuleOk(calls[k].roomUuid)
    }

    /** The mounted, closed dialog with the form's initial values. */
    constructor (prefs: PreferencesStore)
      ensures Valid() && this.prefs == prefs
      ensures !isLoading && !isShowModal && !isFormValidated
      ensures roomUuid == [] && autoMicOn == prefs.autoMicOn && autoCameraOn == prefs.autoCameraOn
      ensures calls == [] && pending == 0
    {
      this.prefs := prefs;
      isLoading, isShowModal, isFormValidated := false, false, false;
      roomUuid, autoMicOn, autoCameraOn := [], prefs.autoMicOn, prefs.autoCameraOn;
      calls, pending := [], 0;
    }

    /** The join button is disabled. */
    predicate SubmitButtonDisabled()
      reads this
    {
      SubmitDisabled(isFormValidated, roomUuid)
    }

    /** `handleShowModal`: pre-fill the identifier from the clipboard and mark the
        form validated when one is found; open the dialog in every case. */
    method HandleShowModal(clipboard: ClipboardRead)
      requires Valid()
      modifies this
      ensures Valid() && isShowModal
      ensures ClipboardPrefill(clipboard).Some? ==>
                roomUuid == ClipboardPrefill(clipboard).value && isFormValidated
      ensures ClipboardPrefill(clipboard).None? ==>
                roomUuid == old(roomUuid) && isFormValidated == old(isFormValidated)
      ensures isLoading == old(isLoading) && autoMicOn == old(autoMicOn) && autoCameraOn == old(autoCameraOn)
      ensures calls == old(calls) && pending == old(pending)
    {
      var found := ClipboardPrefill(clipboard);
      if found.Some? {
        roomUuid := found.value;
        isFormValidated := true;
      }
      isShowModal := true;
    }

    /** `formValidateStatus`: record whether any field has an error, then write
        both session defaults to the preferences store, microphone first. */
    method FormValidateStatus(noFieldErrors: bool)
      requires Valid()
      modifies this, prefs
      ensures Valid()
      ensures isFormValidated == noFieldErrors
      ensures prefs.autoMicOn == autoMicOn && prefs.autoCameraOn == autoCameraOn
      ensures prefs.region == old(prefs.region)
      ensures calls == old(calls) + [WriteAutoMicOn(autoMicOn), WriteAutoCameraOn(autoCameraOn)]
      ensures isLoading == old(isLoading) && isShowModal == old(isShowModal) && pending == old(pending)
      ensures roomUuid == old(roomUuid) && autoMicOn == old(autoMicOn) && autoCameraOn == old(autoCameraOn)
    {
      isFormValidated := noFieldErrors;
      prefs.UpdateAutoMicOn(autoMicOn);
      prefs.UpdateAutoCameraOn(autoCameraOn);
      calls := calls + [WriteAutoMicOn(autoMicOn), WriteAutoCameraOn(autoCameraOn)];
    }

    /** A user edit: the form stores the new value and reports the change to
        `formValidateStatus`. */
    method ChangeField(edit: JoinEdit, noFieldErrors: bool)
      requires Valid()
      modifies this, prefs
      ensures Valid()
      ensures roomUuid == (if edit.EditRoomUuid? then edit.roomUuid else old(roomUuid))
      ensures autoMicOn == (if edit.EditAutoMicOn? then edit.on else old(autoMicOn))
      ensures autoCameraOn == (if edit.EditAutoCameraOn? then edit.on else old(autoCameraOn))
      ensures isFormValidated == noFieldErrors
      ensures prefs.autoMicOn == autoMicOn && prefs.autoCameraOn == autoCameraOn
      ensures prefs.region == old(prefs.region)
      ensures calls == old(calls) + [WriteAutoMicOn(autoMicOn), WriteAutoCameraOn(autoCameraOn)]
      ensures isLoading == old(isLoading) && isShowModal == old(isShowModal) && pending == old(pending)
    {
      match edit {
        case EditRoomUuid(v) => roomUuid := v;
        case EditAutoMicOn(on) => autoMicOn := on;
        case EditAutoCameraOn(on) => autoCameraOn := on;
      }
      FormValidateStatus(noFieldErrors);
    }

    /** `handleOk` up to the `onJoinRoom` call: when the form's rules pass, show
        loading, write the microphone and then the camera default, and call
        `onJoinRoom` with the identifier; otherwise change nothing. */
    method HandleOk() returns (joining: bool)
      requires Valid()
      modifies this, prefs
      ensures Valid()
      ensures joining <==> RoomUuidRuleOk(old(roomUuid))
      ensures !joining ==> unchanged(this) && unchanged(prefs)
      ensures joining ==> isLoading && pending == old(pending) + 1
      ensures joining ==> calls == old(calls) + [WriteAutoMicOn(autoMicOn), WriteAutoCameraOn(autoCameraOn), JoinRoom(roomUuid)]
      ensures joining ==> prefs.autoMicOn == autoMicOn && prefs.autoCameraOn == autoCameraOn
      ensures isShowModal == old(isShowModal) && isFormValidated == old(isFormValidated)
      ensures roomUuid == old(roomUuid) && autoMicOn == old(autoMicOn) && autoCameraOn == old(autoCameraOn)
      ensures prefs.region == old(prefs.region)
    {
      if !RoomUuidRuleOk(roomUuid) {
        return false;
      }
      isLoading := true;
      prefs.UpdateAutoMicOn(autoMicOn);
      prefs.UpdateAutoCameraOn(autoCameraOn);
      calls := calls + [WriteAutoMicOn(autoMicOn), WriteAutoCameraOn(autoCameraOn), JoinRoom(roomUuid)];
      pending := pending + 1;
      joining := true;
    }

    /** The rest of `handleOk` once an `onJoinRoom` call settles: loading is
        cleared either way, and only a success closes the dialog. */
    method JoinSettled(succeeded: bool)
      requires Valid() && pending > 0
      modifies this
      ensures Valid()
      ensures !isLoading && pending == old(pending) - 1
      ensures isShowModal == (old(isShowModal) && !succeeded)
      ensures isFormValidated == old(isFormValidated) && calls == old(calls)
      ensures roomUuid == old(roomUuid) && autoMicOn == old(autoMicOn) && autoCameraOn == old(autoCameraOn)
    {
      isLoading := false;
      pending := pending - 1;
      if succeeded {
        isShowModal := false;
      }
    }

    /** `submitOnEnter`: a bare Enter runs `handleOk` (its preceding validation
        gives the same verdict as the one inside `handleOk`); any other key
        changes nothing. The button's disabled state is not consulted. */
    method SubmitOnEnter(ev: KeyEvent) returns (joining: bool)
      requires Valid()
      modifies this, prefs
      ensures Valid()
      ensures joining <==> IsSubmitKey(ev) && RoomUuidRuleOk(old(roomUuid))
      ensures !joining ==> unchanged(this) && unchanged(prefs)
      ensures joining ==> isLoading && pending == old(pending) + 1
      ensures joining ==> calls == old(calls) + [WriteAutoMicOn(autoMicOn), WriteAutoCameraOn(autoCameraOn), JoinRoom(roomUuid)]
      ensures joining ==> prefs.autoMicOn == autoMicOn && prefs.autoCameraOn == autoCameraOn
      ensures isShowModal == old(isShowModal) && isFormValidated == old(isFormValidated)
      ensures roomUuid == old(roomUuid) && autoMicOn == old(autoMicOn) && autoCameraOn == old(autoCameraOn)
      ensures prefs.region == old(prefs.region)
    {
      joining := false;
      if IsSubmitKey(ev) {
        joining := HandleOk();
      }
    }

    /** `handleCancel`: close the dialog and nothing else. */
    method HandleCancel()
      requires Valid()
      modifies this
      ensures Valid() && !isShowModal
      ensures isLoading == old(isLoading) && isFormValidated == old(isFormValidated) && pending == old(pending)
      ensures roomUuid == old(roomUuid) && autoMicOn == old(autoMicOn) && autoCameraOn == old(autoCameraOn)
      ensures calls == old(calls)
    {
      isShowModal := false;
    }
  }
}
