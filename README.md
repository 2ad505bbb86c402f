# Room dialogs of the Flat classroom client, in Dafny

This project models the two room dialogs of the Flat client's home page and
proves properties of the model.

The **join dialog** holds a room identifier and two session defaults
(microphone on, camera on). When it opens, it reads the clipboard and looks for
a room identifier with the pattern `ROOM_UUID_RE`. If it finds one, it fills the
identifier field and marks the form validated. Confirming writes both defaults
to the preferences store and calls `onJoinRoom`.

The **create dialog** holds a room title, a room type and the same two defaults.
Each time it opens, it resets the form to defaults computed from the user's
name and the preferences. Confirming writes the camera default and calls
`onCreateRoom` with the title, the type and the region read when the dialog
was mounted.

The core is the identifier search. `ROOM_UUID_RE` is
`(?:[A-Z]{2}-)?(?:<UUID>|<nil UUID>)` with the `i` flag. `<UUID>` is the 8-4-4-4-12
hex layout, with the version nibble (section 4.1.3 of RFC 4122) in 1-5 and the
variant nibble (section 4.1.1 of RFC 4122) in 8, 9, a or b. `<nil UUID>` is the
all-zero UUID (section 4.1.7 of RFC 4122). `room_uuid.dfy` defines three things:

- the pattern's language, `InPattern`;
- the backtracking matcher at one position, `MatchAt`. It tries the optional
  group first, so the greedy prefix wins;
- the leftmost scan of `RegExp.prototype.exec`, `Scan` and `Exec`.

The lemmas prove the following against the language:

- The result is verbatim: the input's own characters, with their case.
- The result is 36 or 39 characters long.
- The leftmost start wins, and the prefix is included when present.
- The result is "none" exactly when no position starts a match.
- Matching ignores ASCII case.
- The nil UUID is accepted even though its version nibble is 0.
- A UUID inside a longer hex run is still found.

Files:

- `wrappers.dfy` (module `Wrappers`): the `Option` type, shared by all modules.
- `room_uuid.dfy` (module `RoomUuid`): the pattern and the scanner.
- `dialog_input.dfy` (module `DialogInput`): the Enter-key test shared by both
  dialogs, and JavaScript's `trim`.
- `preferences.dfy` (module `Preferences`): the preferences store, an outside
  collaborator. Only the three members the dialogs use are modelled.
- `join_room_box.dfy` (module `JoinRoomBox`): the join dialog, as a class.
- `create_room_box.dfy` (module `CreateRoomBox`): the create dialog, as a class.
- `scenarios.dfy` (module `Scenarios`): client runs of both dialogs. Each one
  asserts what a caller can conclude from the contracts.

How the dialogs are modelled:

- Each dialog is a class. Its fields are the component's state (`isLoading`,
  `isShowModal`, `isFormValidated`) and the form's values.
- A `calls` field lists, in order, every write to the preferences store and
  every call to `onJoinRoom` or `onCreateRoom`. This is how the contracts state
  that both defaults are written before the join, and that the create dialog
  writes only the camera default.
- `handleOk` is split at its `await`. `HandleOk` runs up to the callback call.
  `JoinSettled` and `CreateSettled` apply the callback's outcome. `pending`
  counts the calls still in flight.
- The class invariant `Valid()` says two things. Loading is shown only while a
  call is in flight. Every request sent out passed the form's rules and
  followed the preference writes; a create request also carried the region
  read at mount.

Behaviours of the code worth knowing:

- A typed room identifier is checked only by the `required` rule
  (`JoinRoomBox.tsx:95`), never against `ROOM_UUID_RE`. The pattern is used
  only to pre-fill the field from the clipboard. `Scenarios.JoinTypedIdentifier`
  joins the room "hello".
- A failed clipboard read leaves the identifier field as it was. It does not
  empty it. The join dialog never resets its form.
- Cancel only closes a dialog. The create dialog discards edits at the next
  open, when it resets the form.
- Every field change writes both defaults. Toggling the microphone twice
  therefore writes the microphone twice and the camera twice.
- Enter submits without consulting the join button's disabled state. A
  whitespace-only identifier passes `required`, so Enter joins with it while
  the button is disabled (`JoinRoomBox.EnabledPassesRule`,
  `Scenarios.JoinWhitespaceByEnter`).
- The begin button of the create dialog looks only at the validated flag. For a
  user without a name the form opens on an empty title; if no field error is
  reported, the button is enabled but confirming requests no room
  (`CreateRoomBox.BeginButtonIgnoresTitle`,
  `Scenarios.CreateNamelessEnabledButton`).

## Model

| member | source | states |
|---|---|---|
| RoomUuid.IsVersionedUuid | packages/flat-pages/src/HomePage/MainRoomMenu/JoinRoomBox.tsx:22 | the first alternative: 8-4-4-4-12 hex digits with version nibble 1-5 and variant nibble 8, 9, a or b; such a string is 36 long and is never the nil UUID |
| RoomUuid.IsUuidForm | packages/flat-pages/src/HomePage/MainRoomMenu/JoinRoomBox.tsx:22 | the alternation of a versioned UUID and the nil UUID; always 36 characters |
| RoomUuid.IsRegionPrefix | packages/flat-pages/src/HomePage/MainRoomMenu/JoinRoomBox.tsx:22 | the optional group `[A-Z]{2}-`: exactly the three-character strings whose first two characters canonicalise (upper-case) into A-Z and whose third is a dash, as the `i` flag defines matching |
| RoomUuid.InPattern | packages/flat-pages/src/HomePage/MainRoomMenu/JoinRoomBox.tsx:21-22 | the language of the whole pattern: a UUID form, optionally behind a region prefix; its strings are 36 or 39 long |
| RoomUuid.UuidFormChars | packages/flat-pages/src/HomePage/MainRoomMenu/JoinRoomBox.tsx:22 | every character of a UUID form is a hex digit or a dash |
| RoomUuid.PatternChars | packages/flat-pages/src/HomePage/MainRoomMenu/JoinRoomBox.tsx:21-22 | every character of a string of the pattern is an ASCII letter, digit or dash |
| RoomUuid.PatternShape | packages/flat-pages/src/HomePage/MainRoomMenu/JoinRoomBox.tsx:21-22 | a string of the pattern is 36 characters (a UUID form) or 39 (two-letter prefix and dash, then a UUID form) |
| RoomUuid.MatchAt | packages/flat-pages/src/HomePage/MainRoomMenu/JoinRoomBox.tsx:21-22 | the match the backtracking matcher finds at one position is 36 or 39 long, lies within the text, and is a string of the pattern |
| RoomUuid.CandidateCases | packages/flat-pages/src/HomePage/MainRoomMenu/JoinRoomBox.tsx:21-22 | every string of the pattern that begins at a position is one of the two the matcher tries there: the prefixed one or the bare one |
| RoomUuid.MatchAtComplete | packages/flat-pages/src/HomePage/MainRoomMenu/JoinRoomBox.tsx:21-22 | the matcher fails at a position exactly when no string of the pattern begins there |
| RoomUuid.MatchAtLongest | packages/flat-pages/src/HomePage/MainRoomMenu/JoinRoomBox.tsx:22 | where the matcher succeeds, no string of the pattern beginning there is longer: the greedy optional prefix is taken |
| RoomUuid.Scan | packages/flat-pages/src/HomePage/MainRoomMenu/JoinRoomBox.tsx:118 | the scan returns a position at or after its start where the matcher succeeds, with exactly the characters matched there, and the matcher fails at every position it skipped; when it returns none, the matcher fails at every later position |
| RoomUuid.NoMatchInAll | packages/flat-pages/src/HomePage/MainRoomMenu/JoinRoomBox.tsx:118 | a run of skipped positions is one where the matcher fails at each position |
| RoomUuid.Exec | packages/flat-pages/src/HomePage/MainRoomMenu/JoinRoomBox.tsx:118 | a match of `exec` is a string of the pattern that occurs verbatim at its index |
| RoomUuid.ExecIsFirst | packages/flat-pages/src/HomePage/MainRoomMenu/JoinRoomBox.tsx:118 | `exec` returns what the matcher finds at the first position where it succeeds, and null only when it fails at every position |
| RoomUuid.ExecLeftmostLongest | packages/flat-pages/src/HomePage/MainRoomMenu/JoinRoomBox.tsx:118 | no earlier position starts a match, and at the match's position no longer string of the pattern begins |
| RoomUuid.ExecNoneIff | packages/flat-pages/src/HomePage/MainRoomMenu/JoinRoomBox.tsx:118-119 | `exec` returns null exactly when no position of the text starts a match |
| RoomUuid.ExtractRoomUuid | packages/flat-pages/src/HomePage/MainRoomMenu/JoinRoomBox.tsx:116-120 | the extracted identifier is a substring of the text in the pattern, 36 or 39 long; none exactly when no position starts a match |
| RoomUuid.ExtractedShape | packages/flat-pages/src/HomePage/MainRoomMenu/JoinRoomBox.tsx:21-22 | an extracted identifier is a versioned UUID or the nil UUID, bare or behind two ASCII letters and a dash |
| RoomUuid.LeftmostWins | packages/flat-pages/src/HomePage/MainRoomMenu/JoinRoomBox.tsx:118 | if some position starts a match, `exec` finds one at that position or earlier |
| RoomUuid.EmbeddedInHexRun | packages/flat-pages/src/HomePage/MainRoomMenu/JoinRoomBox.tsx:22 | a versioned UUID between runs of hex digits is still found, at its start or earlier, since the pattern has no word boundaries |
| RoomUuid.PrefixIncluded | packages/flat-pages/src/HomePage/MainRoomMenu/JoinRoomBox.tsx:22 | at the leftmost match, two letters and a dash followed by a UUID form are returned with the prefix |
| RoomUuid.NilUuidAccepted | packages/flat-pages/src/HomePage/MainRoomMenu/JoinRoomBox.tsx:22 | the nil UUID fails the versioned alternative (nibble 0) and is still extracted whole |
| RoomUuid.AnyLetterPairIsPrefix | packages/flat-pages/src/HomePage/MainRoomMenu/JoinRoomBox.tsx:22 | any two ASCII letters of either case form an accepted prefix; the prefix is not checked against a list of regions |
| RoomUuid.VersionedFromGroups | packages/flat-pages/src/HomePage/MainRoomMenu/JoinRoomBox.tsx:22 | five hex groups of 8, 4, 4, 4 and 12 digits, joined by dashes, whose third and fourth groups lead with a version and a variant nibble, form a versioned UUID |
| RoomUuid.PrefixedInSentence | packages/flat-pages/src/HomePage/MainRoomMenu/JoinRoomBox.tsx:116-120 | for any UUID form u, the text "join at ab-u now" yields "ab-u", prefix included |
| RoomUuid.SentenceExample | packages/flat-pages/src/HomePage/MainRoomMenu/JoinRoomBox.tsx:116-120 | the text "join at ab-123e4567-e89b-12d3-a456-426614174000 now" yields the prefixed identifier |
| RoomUuid.ExtractedNonEmpty | packages/flat-pages/src/HomePage/MainRoomMenu/JoinRoomBox.tsx:125 | an extracted identifier is never empty, so the truthiness test succeeds exactly when a match was found |
| RoomUuid.CaseInsensitive | packages/flat-pages/src/HomePage/MainRoomMenu/JoinRoomBox.tsx:22 | a string is in the pattern exactly when its ASCII upper-case rendering is |
| DialogInput.IsSubmitKey | packages/flat-pages/src/HomePage/MainRoomMenu/CreateRoomBox.tsx:137 | `submitOnEnter`'s test holds exactly when the key is Enter and the set of held modifiers (Ctrl, Shift, Alt, Meta) is empty |
| DialogInput.Trim | packages/flat-pages/src/HomePage/MainRoomMenu/JoinRoomBox.tsx:68 | `trim` yields a contiguous slice of the input with only whitespace before and after it and whitespace at neither of its own ends; empty exactly when the input is whitespace only |
| DialogInput.RulesHold | packages/flat-pages/src/HomePage/MainRoomMenu/JoinRoomBox.tsx:95 | a field's rule list is satisfied exactly when each of its rules holds |
| JoinRoomBox.RoomUuidRuleOk | packages/flat-pages/src/HomePage/MainRoomMenu/JoinRoomBox.tsx:95 | the identifier's rule list, `required` alone, accepts exactly the non-empty strings, and so every string of the pattern |
| JoinRoomBox.ClipboardPrefill | packages/flat-pages/src/HomePage/MainRoomMenu/JoinRoomBox.tsx:122-131 | a failed read pre-fills nothing; otherwise the pre-fill is the extracted identifier, which passes the field's rule |
| JoinRoomBox.SubmitDisabled | packages/flat-pages/src/HomePage/MainRoomMenu/JoinRoomBox.tsx:68 | the join button is disabled exactly when the form is not marked validated or the identifier is whitespace only |
| JoinRoomBox.PrefillEnablesButton | packages/flat-pages/src/HomePage/MainRoomMenu/JoinRoomBox.tsx:122-131 | an identifier pre-filled from the clipboard, once marked validated, leaves the join button enabled, since no character of it is whitespace |
| JoinRoomBox.EnabledPassesRule | packages/flat-pages/src/HomePage/MainRoomMenu/JoinRoomBox.tsx:95 | an enabled button implies the `required` rule holds; a whitespace-only identifier passes the rule but disables the button |
| JoinRoomBox.JoinRoomDialog.constructor | packages/flat-pages/src/HomePage/MainRoomMenu/JoinRoomBox.tsx:30-55 | the dialog starts closed, not loading, not validated, with an empty identifier and the stored defaults |
| JoinRoomBox.JoinRoomDialog.HandleShowModal | packages/flat-pages/src/HomePage/MainRoomMenu/JoinRoomBox.tsx:122-133 | with a pre-fill, the field is set to it and the form is marked validated; otherwise both are unchanged; the dialog is open in every case |
| JoinRoomBox.JoinRoomDialog.FormValidateStatus | packages/flat-pages/src/HomePage/MainRoomMenu/JoinRoomBox.tsx:169-174 | the validated flag becomes "no field has errors", and the microphone then the camera default are written to the store |
| JoinRoomBox.JoinRoomDialog.ChangeField | packages/flat-pages/src/HomePage/MainRoomMenu/JoinRoomBox.tsx:84-110 | the edited field takes its new value, the others keep theirs, and the change is reported to `formValidateStatus` |
| JoinRoomBox.JoinRoomDialog.HandleOk | packages/flat-pages/src/HomePage/MainRoomMenu/JoinRoomBox.tsx:142-156 | if the identifier fails `required`, nothing changes and no join is requested; otherwise loading is shown and microphone, camera and `onJoinRoom(roomUUID)` are called in that order |
| JoinRoomBox.JoinRoomDialog.JoinSettled | packages/flat-pages/src/HomePage/MainRoomMenu/JoinRoomBox.tsx:156-162 | loading is cleared; a success closes the dialog and a failure leaves it as it was |
| JoinRoomBox.JoinRoomDialog.SubmitOnEnter | packages/flat-pages/src/HomePage/MainRoomMenu/JoinRoomBox.tsx:135-140 | a bare Enter acts as `handleOk`: it joins exactly when the identifier passes `required`, writes the form's microphone and camera values to the store before `onJoinRoom`, and leaves the form and the validated flag alone; any other key changes nothing |
| JoinRoomBox.JoinRoomDialog.HandleCancel | packages/flat-pages/src/HomePage/MainRoomMenu/JoinRoomBox.tsx:165-167 | the dialog is closed and nothing else changes |
| CreateRoomBox.DefaultValues | packages/flat-pages/src/HomePage/MainRoomMenu/CreateRoomBox.tsx:40-47 | the default title is the translated template for a present, non-empty user name and empty otherwise; the type is BigClass; microphone and camera come from the store |
| CreateRoomBox.NamelessDefaultsRejected | packages/flat-pages/src/HomePage/MainRoomMenu/CreateRoomBox.tsx:41-43 | without a user name the default title fails the title rules |
| CreateRoomBox.TitleRulesOk | packages/flat-pages/src/HomePage/MainRoomMenu/CreateRoomBox.tsx:109-112 | the title's rule list, `required` then `max: 50`, accepts exactly the titles of 1 to 50 characters |
| CreateRoomBox.CreateRoomDialog.constructor | packages/flat-pages/src/HomePage/MainRoomMenu/CreateRoomBox.tsx:30-47 | the dialog starts closed, not loading, not validated, with the default values, and the region is read from the store once |
| CreateRoomBox.BeginButtonIgnoresTitle | packages/flat-pages/src/HomePage/MainRoomMenu/CreateRoomBox.tsx:83 | unlike the join button, the begin button does not consult the title: a validated form enables it even over an empty title, which the title rules reject |
| CreateRoomBox.CreateRoomDialog.Open | packages/flat-pages/src/HomePage/MainRoomMenu/CreateRoomBox.tsx:69-73 | the form is reset to the defaults, the dialog opens, validity is recomputed, and the store's defaults keep their values |
| CreateRoomBox.CreateRoomDialog.FormValidateStatus | packages/flat-pages/src/HomePage/MainRoomMenu/CreateRoomBox.tsx:169-174 | the validated flag becomes "no field has errors", and the microphone then the camera default are written to the store |
| CreateRoomBox.CreateRoomDialog.ChangeField | packages/flat-pages/src/HomePage/MainRoomMenu/CreateRoomBox.tsx:98-131 | the edited field takes its new value, the others keep theirs, and the change is reported to `formValidateStatus` |
| CreateRoomBox.CreateRoomDialog.HandleOk | packages/flat-pages/src/HomePage/MainRoomMenu/CreateRoomBox.tsx:143-156 | if the title rules fail, nothing changes and no room is requested; otherwise loading is shown, only the camera default is written, then `onCreateRoom(title, type, region at mount)` is called |
| CreateRoomBox.CreateRoomDialog.CreateSettled | packages/flat-pages/src/HomePage/MainRoomMenu/CreateRoomBox.tsx:156-162 | loading is cleared; a success closes the dialog and a failure leaves it as it was |
| CreateRoomBox.CreateRoomDialog.SubmitOnEnter | packages/flat-pages/src/HomePage/MainRoomMenu/CreateRoomBox.tsx:136-141 | a bare Enter acts as `handleOk`: it creates exactly when the title rules pass, writes only the camera default to the store (the microphone default is untouched) before `onCreateRoom`, and leaves the form and the validated flag alone; any other key changes nothing |
| CreateRoomBox.CreateRoomDialog.HandleCancel | packages/flat-pages/src/HomePage/MainRoomMenu/CreateRoomBox.tsx:165-167 | the dialog is closed and nothing else changes; the form keeps the edits |

## Left out

- Rendering, styling and the `observer` wrapper. These are presentation only.
- The deferred focus-and-select timer and its clearing. This is timer and DOM
  plumbing with no effect on the state modelled here.
- `navigator.clipboard.readText()`. It is a parameter of `HandleShowModal`:
  either the text or a failed read.
- The `await` between `handleShowModal` and the clipboard read. It is collapsed
  into one step, so no other event interleaves with it in the model.
- `useSafePromise`'s teardown guard. After unmount a pending validation or
  callback never resumes; the model has no unmount.
- The outcome of `onJoinRoom` and `onCreateRoom`. It is a parameter of
  `JoinSettled` and `CreateSettled`. Logging the error is left out.
- The translator `t`. The default title's template is a function parameter
  (`defaultTitle`). All other translated strings are labels.
- `formValidateStatus`'s reading of the form library's error state. It is a
  parameter (`noFieldErrors`), because that state comes from the library's own
  validation runs, which the model does not reproduce.
- The validation that `handleOk` awaits is modelled by the field rules
  themselves (`required`, and `max: 50` for the title).
- The create dialog's local `classType` state. It only feeds the type picker's
  display; the form's `roomType` field is what is submitted.
- `ev.preventDefault()` in `submitOnEnter`. It is a DOM effect.
- The environment constants (`constants/process.ts`, both copies) and the
  login-page cover image selector. They hold no logic.
- RoomUuid.ExtractRoomUuid: indices count Unicode scalar values, not UTF-16
  code units. Every character the pattern matches is ASCII
  (`RoomUuid.PatternChars`), so the matched text is the same; only `index` can
  differ after astral characters.
- JoinRoomBox.JoinRoomDialog.constructor: takes the microphone and camera
  defaults from the store when the dialog is mounted. The join dialog's modal
  is not force-rendered, so the form library probably applies these initial
  values only when the dialog first opens, from the store's values at that
  moment.
- JoinRoomBox.JoinRoomDialog.HandleOk, CreateRoomBox.CreateRoomDialog.HandleOk:
  leave out any `formValidateStatus` run that the form library may trigger
  from `validateFields` itself. The text of `handleOk` does not call it; if the
  library's field-change callback fires when validation finishes, the flag and
  both defaults would also be written on both paths.
- DialogInput.Trim: uses the whitespace set of current Unicode (category Zs plus
  the ECMAScript line terminators and format characters). An engine built on an
  older Unicode version may differ.
