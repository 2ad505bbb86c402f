/** What both room dialogs read from the user's input: the key event that
    submits, and JavaScript's `String.prototype.trim`. */
module DialogInput {

  /** The fields of a keyboard event that the dialogs look at. */
  datatype KeyEvent = KeyEvent(key: string, ctrlKey: bool, shiftKey: bool, altKey: bool, metaKey: bool)

  datatype Modifier = Ctrl | Shift | Alt | Meta

  /** The modifier keys held during the event. */
  function HeldModifiers(ev: KeyEvent): set<Modifier> {
    (if ev.ctrlKey then {Ctrl} else {}) + (if ev.shiftKey then {Shift} else {})
    + (if ev.altKey then {Alt} else {}) + (if ev.metaKey then {Meta} else {})
  }

  /** `submitOnEnter`'s test: the Enter key with no modifier held. */
  function IsSubmitKey(ev: KeyEvent): (r: bool)
    ensures r <==> ev.key == "Enter" && HeldModifiers(ev) == {}
  {
    var held := HeldModifiers(ev);
    assert ev.ctrlKey ==> Ctrl in held;
    assert ev.shiftKey ==> Shift in held;
    assert ev.altKey ==> Alt in held;
    assert ev.metaKey ==> Meta in held;
    ev.key == "Enter" && !ev.ctrlKey && !ev.shiftKey && !ev.altKey && !ev.metaKey
  }

  /** The characters `trim` removes: the ECMAScript WhiteSpace and LineTerminator
      code points (Unicode category Zs, tab, vertical tab, form feed, the byte
      order mark, and the four line terminators). */
  predicate IsJsWhitespace(c: char) {
    c == '\t' || c == '\n' || c == '\U{000B}' || c == '\U{000C}' || c == '\r' || c == ' '
    || c == '\U{00A0}' || c == '\U{1680}' || '\U{2000}' <= c <= '\U{200A}'
    || c == '\U{2028}' || c == '\U{2029}' || c == '\U{202F}' || c == '\U{205F}'
    || c == '\U{3000}' || c == '\U{FEFF}'
  }

  /** Drops the leading whitespace: the result is a suffix of `s` that does not
      start with whitespace, and everything dropped is whitespace. */
  function TrimStart(s: string): (r: string)
    ensures |r| <= |s| && r == s[|s| - |r|..]
    ensures forall k :: 0 <= k < |s| - |r| ==> IsJsWhitespace(s[k])
    ensures r != [] ==> !IsJsWhitespace(r[0])
  {
    if s != [] && IsJsWhitespace(s[0]) then TrimStart(s[1..]) else s
  }

  /** Drops the trailing whitespace: the result is a prefix of `s` that does not
      end with whitespace, and everything dropped is whitespace. */
  function TrimEnd(s: string): (r: string)
    ensures |r| <= |s| && r == s[..|r|]
    ensures forall k :: |r| <= k < |s| ==> IsJsWhitespace(s[k])
    ensures r != [] ==> !IsJsWhitespace(r[|r| - 1])
  {
    if s != [] && IsJsWhitespace(s[|s| - 1]) then TrimEnd(s[..|s| - 1]) else s
  }

  /** `r` occurs in `s` at offset `i`, with only whitespace before and after it. */
  predicate SliceWithin(s: string, r: string, i: nat) {
    i + |r| <= |s| && r == s[i..i + |r|]
    && (forall k :: 0 <= k < i ==> IsJsWhitespace(s[k]))
    && (forall k :: i + |r| <= k < |s| ==> IsJsWhitespace(s[k]))
  }

  /** `s.trim()`: a contiguous slice of `s` with whitespace at neither end and
      only whitespace around it, empty exactly when `s` is whitespace only. */
  function Trim(s: string): (r: string)
    ensures |r| <= |s|
    ensures exists i :: SliceWithin(s, r, i)
    ensures r != [] ==> !IsJsWhitespace(r[0]) && !IsJsWhitespace(r[|r| - 1])
    ensures r == [] <==> forall k :: 0 <= k < |s| ==> IsJsWhitespace(s[k])
  {
    var t := TrimStart(s);
    var r := TrimEnd(t);
    assert r != [] ==> r[0] == t[0];
    SliceOfSlices(s, t, r);
    r
  }

  /** A prefix `r` of a suffix `t` of `s`, with only whitespace dropped on either
      side, is a slice of `s` surrounded by whitespace. */
  lemma SliceOfSlices(s: string, t: string, r: string)
    requires |t| <= |s| && t == s[|s| - |t|..] && |r| <= |t| && r == t[..|r|]
    requires forall k :: 0 <= k < |s| - |t| ==> IsJsWhitespace(s[k])
    requires forall k :: |r| <= k < |t| ==> IsJsWhitespace(t[k])
    ensures SliceWithin(s, r, |s| - |t|)
  {
    var i := |s| - |t|;
    assert s[i..][..|r|] == s[i..i + |r|];
    forall k | i + |r| <= k < |s|
      ensures IsJsWhitespace(s[k])
    {
      assert s[k] == t[k - i];
    }
  }

  // ---------------------------------------------------------------------------
  // Field rules
  // ---------------------------------------------------------------------------

  /** A rule of a form field, as the dialogs declare them. */
  datatype FieldRule = Required | Max(n: nat)

  /** One rule on a string value. `required` refuses only the empty string (the
      rules do not set the `whitespace` option); `max` refuses strings longer
      than its bound. */
  predicate RuleHolds(rule: FieldRule, value: string) {
    match rule
    case Required => value != []
    case Max(n) => |value| <= n
  }

  /** `validateFields` on one field: it succeeds when every rule holds. */
  function RulesHold(rules: seq<FieldRule>, value: string): (r: bool)
    ensures r <==> forall i :: 0 <= i < |rules| ==> RuleHolds(rules[i], value)
  {
    if rules == [] then true else RuleHolds(rules[0], value) && RulesHold(rules[1..], value)
  }
}
