/** Client-side runs of the two dialogs: what a caller can conclude from the
    dialogs' contracts alone. */
module Scenarios {
  import opened Wrappers
  import opened RoomUuid
  import opened DialogInput
  import opened Preferences
  import Join = JoinRoomBox
  import Create = CreateRoomBox

  /** Opening the join dialog on a clipboard sentence pre-fills the prefixed
      identifier; confirming writes both defaults, then joins; success closes. */
  method JoinFromClipboard() {
    var prefs := new PreferencesStore(true, false, "cn-hz");
    var d := new Join.JoinRoomDialog(prefs);
    var u := "123e4567" + "-" + "e89b" + "-" + "12d3" + "-" + "a456" + "-" + "426614174000";
    var id := "ab-" + u;
    SentenceExample(u, id);
    var clipboard := Join.ClipboardText("join at " + id + " now");
    d.HandleShowModal(clipboard);
    assert d.roomUuid == id && d.isFormValidated && d.isShowModal;
    Join.PrefillEnablesButton(clipboard);
    assert !d.SubmitButtonDisabled();
    var joining := d.HandleOk();
    assert joining && d.isLoading;
    assert d.calls == [Join.WriteAutoMicOn(true), Join.WriteAutoCameraOn(false), Join.JoinRoom(id)];
    d.JoinSettled(true);
    assert !d.isLoading && !d.isShowModal;
  }

  /** A failed clipboard read leaves the field as it was and still opens the
      dialog; a typed identifier needs only to be non-empty, and a failed join
      leaves the dialog open. */
  method JoinTypedIdentifier() {
    var prefs := new PreferencesStore(false, false, "us-sv");
    var d := new Join.JoinRoomDialog(prefs);
    d.HandleShowModal(Join.ClipboardFailed);
    assert d.isShowModal && d.roomUuid == [] && !d.isFormValidated;
    var joining := d.HandleOk();
    assert !joining && d.calls == [];
    d.ChangeField(Join.EditRoomUuid("hello"), true);
    joining := d.SubmitOnEnter(KeyEvent("Enter", false, false, false, false));
    assert joining && d.calls[|d.calls| - 1] == Join.JoinRoom("hello");
    d.JoinSettled(false);
    assert !d.isLoading && d.isShowModal;
  }

  /** A whitespace-only identifier disables the join button, yet Enter still
      submits it, because only the `required` rule is checked. */
  method JoinWhitespaceByEnter() {
    var prefs := new PreferencesStore(false, false, "us-sv");
    var d := new Join.JoinRoomDialog(prefs);
    d.ChangeField(Join.EditRoomUuid(" "), true);
    assert IsJsWhitespace(" "[0]);
    assert d.SubmitButtonDisabled();
    var joining := d.SubmitOnEnter(KeyEvent("Enter", false, false, false, false));
    assert joining;
  }

  /** A title of 51 characters is rejected and `onCreateRoom` is never called;
      Shift+Enter is ignored whatever the title. */
  method CreateTitleTooLong(longTitle: string) requires |longTitle| == 51 {
    var prefs := new PreferencesStore(true, true, "sg");
    var d := new Create.CreateRoomDialog(prefs, Some("Ada"), name => name + "'s Room");
    d.Open(Some("Ada"), name => name + "'s Room", true);
    assert d.form.roomTitle == "Ada's Room" && d.form.roomType == Create.BigClass;
    var shifted := d.SubmitOnEnter(KeyEvent("Enter", false, true, false, false));
    assert !shifted;
    d.ChangeField(Create.EditRoomTitle(longTitle), false);
    var callsBefore := d.calls;
    var creating := d.HandleOk();
    assert !creating && d.calls == callsBefore && !d.isLoading;
  }

  /** Toggling the microphone on and off again restores the stored default; each
      toggle writes the microphone once (and the camera once). */
  method CreateToggleMicTwice() {
    var prefs := new PreferencesStore(false, true, "gb-lon");
    var d := new Create.CreateRoomDialog(prefs, None, name => name);
    d.Open(None, name => name, false);
    var before := |d.calls|;
    d.ChangeField(Create.EditAutoMicOn(true), true);
    d.ChangeField(Create.EditAutoMicOn(false), true);
    assert !prefs.autoMicOn;
    assert d.calls[before..] == [Create.WriteAutoMicOn(true), Create.WriteAutoCameraOn(true),
                                 Create.WriteAutoMicOn(false), Create.WriteAutoCameraOn(true)];
  }

  /** For a user without a name the dialog opens on an empty title. If the last
      validation reported no field error, the begin button is enabled, yet
      confirming requests no room: the title rules still reject the title. */
  method CreateNamelessEnabledButton() {
    var prefs := new PreferencesStore(true, false, "in-mum");
    var d := new Create.CreateRoomDialog(prefs, None, name => name);
    d.Open(None, name => name, true);
    Create.BeginButtonIgnoresTitle(d);
    assert !d.SubmitButtonDisabled() && !Create.TitleRulesOk(d.form.roomTitle);
    var callsBefore := d.calls;
    var creating := d.HandleOk();
    assert !creating && d.calls == callsBefore && !d.isLoading;
  }

  /** Creating sends the region read at mount, even after the store's region
      changes, and writes only the camera default. */
  method CreateUsesMountRegion() {
    var prefs := new PreferencesStore(false, false, "cn-hz");
    var d := new Create.CreateRoomDialog(prefs, Some("Ada"), name => name + "'s Room");
    prefs.region := "us-sv";
    d.Open(Some("Ada"), name => name + "'s Room", true);
    d.ChangeField(Create.EditAutoCameraOn(true), true);
    assert d.roomRegion == "cn-hz" && d.form.roomTitle == "Ada's Room" && d.form.roomType == Create.BigClass;
    var n := |d.calls|;
    var creating := d.HandleOk();
    assert creating;
    assert d.calls[n..] == [Create.WriteAutoCameraOn(true), Create.CreateRoom("Ada's Room", Create.BigClass, "cn-hz")];
    d.CreateSettled(true);
    assert !d.isShowModal && !d.isLoading;
  }
}
