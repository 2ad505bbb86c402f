/** Room-identifier extraction: the case-insensitive pattern ROOM_UUID_RE of the
    join dialog and `RegExp.prototype.exec` over it, as a hand-written scanner.

    The pattern is `(?:[A-Z]{2}-)?(?:UUID|NIL)` with the `i` flag and without
    the `u` flag, so that `[A-Z]` admits only the 52 ASCII letters and
    `[0-9a-f]` only `0-9a-fA-F`. There are no anchors and no word boundaries. */
module RoomUuid {
  import opened Wrappers

  /** What a successful `exec` yields and the source reads: `m.index` and `m[0]`. */
  datatype RegExpMatch = RegExpMatch(index: nat, text: string)

  /** The nil UUID of section 4.1.7 of RFC 4122. */
  const NilUuid: string := "00000000-0000-0000-0000-000000000000"

  // ---------------------------------------------------------------------------
  // Character classes under the `i` flag
  // ---------------------------------------------------------------------------

  /** `[A-Z]` under `/i` without `/u`: only ASCII letters canonicalise into A-Z. */
  predicate IsAsciiLetter(c: char) {
    'A' <= c <= 'Z' || 'a' <= c <= 'z'
  }

  /** `[0-9a-f]` under `/i`. */
  predicate IsHexDigit(c: char) {
    '0' <= c <= '9' || 'a' <= c <= 'f' || 'A' <= c <= 'F'
  }

  /** `[1-5]`: the version nibble of section 4.1.3 of RFC 4122. */
  predicate IsVersionDigit(c: char) {
    '1' <= c <= '5'
  }

  /** `[89ab]` under `/i`: the variant nibble of section 4.1.1 of RFC 4122. */
  predicate IsVariantDigit(c: char) {
    c == '8' || c == '9' || c == 'a' || c == 'A' || c == 'b' || c == 'B'
  }

  predicate AllHex(s: string) {
    forall k :: 0 <= k < |s| ==> IsHexDigit(s[k])
  }

  // ---------------------------------------------------------------------------
  // The language of the pattern
  // ---------------------------------------------------------------------------

  /** The first alternative: 8-4-4-4-12 hex digits with version 1-5 and variant
      8, 9, a or b. The version nibble keeps the nil UUID out. */
  function IsVersionedUuid(u: string): (r: bool)
    ensures r ==> |u| == 36 && u != NilUuid
  {
    assert NilUuid[14] == '0';
    |u| == 36
    && AllHex(u[..8]) && u[8] == '-'
    && AllHex(u[9..13]) && u[13] == '-'
    && IsVersionDigit(u[14]) && AllHex(u[15..18]) && u[18] == '-'
    && IsVariantDigit(u[19]) && AllHex(u[20..23]) && u[23] == '-'
    && AllHex(u[24..])
  }

  /** The alternation `(?:UUID|NIL)`. */
  function IsUuidForm(u: string): (r: bool)
    ensures r ==> |u| == 36
  {
    assert |NilUuid| == 36;
    IsVersionedUuid(u) || u == NilUuid
  }

  /** The optional group `[A-Z]{2}-`: under the `i` flag a character matches
      `[A-Z]` when its canonical (upper-case) form lies in `A-Z`. */
  function IsRegionPrefix(p: string): (r: bool)
    ensures r <==> |p| == 3 && p[2] == '-'
                   && 'A' <= UpperAscii(p[0]) <= 'Z' && 'A' <= UpperAscii(p[1]) <= 'Z'
  {
    |p| == 3 && IsAsciiLetter(p[0]) && IsAsciiLetter(p[1]) && p[2] == '-'
  }

  /** The strings the whole pattern matches: a UUID form, with or without a region
      prefix; 36 or 39 characters long. */
  function InPattern(m: string): (r: bool)
    ensures r ==> |m| == 36 || |m| == 39
  {
    assert |NilUuid| == 36;
    IsUuidForm(m) || (|m| >= 3 && IsRegionPrefix(m[..3]) && IsUuidForm(m[3..]))
  }

  /** Some string of the pattern's language begins at position `j` of `s`. */
  ghost predicate StartsMatch(s: string, j: nat)
    requires j <= |s|
  {
    exists m :: InPattern(m) && m <= s[j..]
  }

  /** `part` occurs contiguously in `s`. */
  ghost predicate IsSubstring(part: string, s: string) {
    exists i, j :: 0 <= i <= j <= |s| && s[i..j] == part
  }

  lemma PatternShape(m: string)
    requires InPattern(m)
    ensures |m| == 36 || |m| == 39
    ensures |m| == 36 ==> IsUuidForm(m)
    ensures |m| == 39 ==> IsRegionPrefix(m[..3]) && IsUuidForm(m[3..])
  {
    assert |NilUuid| == 36;
  }

  /** The characters of a hex run. */
  lemma HexRunChars(u: string, lo: nat, hi: nat)
    requires lo <= hi <= |u| && AllHex(u[lo..hi])
    ensures forall k :: lo <= k < hi ==> IsHexDigit(u[k])
  {
    forall k | lo <= k < hi
      ensures IsHexDigit(u[k])
    {
      assert u[lo..hi][k - lo] == u[k];
    }
  }

  /** Every character of a versioned UUID is a hex digit or a dash. */
  lemma VersionedChars(u: string)
    requires IsVersionedUuid(u)
    ensures forall k :: 0 <= k < 36 ==> IsHexDigit(u[k]) || u[k] == '-'
  {
    assert u[..8] == u[0..8] && u[24..] == u[24..36];
    HexRunChars(u, 0, 8);
    HexRunChars(u, 9, 13);
    HexRunChars(u, 15, 18);
    HexRunChars(u, 20, 23);
    HexRunChars(u, 24, 36);
  }

  /** Every character of a UUID form is a hex digit or a dash. */
  lemma UuidFormChars(u: string)
    requires IsUuidForm(u)
    ensures forall k :: 0 <= k < 36 ==> IsHexDigit(u[k]) || u[k] == '-'
  {
    if IsVersionedUuid(u) {
      VersionedChars(u);
    } else {
      assert forall k :: 0 <= k < 36 ==> NilUuid[k] == '0' || NilUuid[k] == '-';
    }
  }

  /** Every character a match can contain is an ASCII letter, digit or dash; so
      the match's text is the same whether positions count code points or UTF-16
      code units. */
  lemma PatternChars(m: string)
    requires InPattern(m)
    ensures forall k :: 0 <= k < |m| ==> IsAsciiLetter(m[k]) || '0' <= m[k] <= '9' || m[k] == '-'
  {
    if IsUuidForm(m) {
      UuidFormChars(m);
    } else {
      var u := m[3..];
      UuidFormChars(u);
      assert forall k :: 3 <= k < |m| ==> m[k] == u[k - 3];
      assert m[..3][0] == m[0] && m[..3][1] == m[1] && m[..3][2] == m[2];
    }
  }

  // ---------------------------------------------------------------------------
  // The backtracking matcher at one position, and the leftmost scan
  // ---------------------------------------------------------------------------

  /** The optional group succeeds at `j` and the alternation succeeds after it. */
  predicate PrefixedAt(s: string, j: nat) {
    j + 39 <= |s| && IsRegionPrefix(s[j..j + 3]) && IsUuidForm(s[j + 3..j + 39])
  }

  /** The alternation succeeds at `j` itself. */
  predicate BareAt(s: string, j: nat) {
    j + 36 <= |s| && IsUuidForm(s[j..j + 36])
  }

  /** The length of the match that the backtracking matcher finds at position `j`:
      the greedy optional group is tried first, then the pattern without it. */
  function MatchAt(s: string, j: nat): (r: Option<nat>)
    requires j <= |s|
    ensures r.Some? ==> (r.value == 36 || r.value == 39) && j + r.value <= |s|
    ensures r.Some? ==> InPattern(s[j..j + r.value])
  {
    if PrefixedAt(s, j) then
      var w := s[j..j + 39];
      assert w[..3] == s[j..j + 3] && w[3..] == s[j + 3..j + 39];
      Some(39)
    else if BareAt(s, j) then
      Some(36)
    else
      None
  }

  /** Every string of the pattern that begins at `j` is one of the two that the
      matcher tries there. */
  lemma CandidateCases(m: string, s: string, j: nat)
    requires j <= |s| && InPattern(m) && m <= s[j..]
    ensures (|m| == 39 && PrefixedAt(s, j) && m == s[j..j + 39])
         || (|m| == 36 && BareAt(s, j) && m == s[j..j + 36])
  {
    PatternShape(m);
    assert m == s[j..][..|m|] == s[j..j + |m|];
    if |m| == 39 {
      assert m[..3] == s[j..j + 3] && m[3..] == s[j + 3..j + 39];
    }
  }

  /** The matcher fails at `j` exactly when no string of the pattern begins there. */
  lemma MatchAtComplete(s: string, j: nat)
    requires j <= |s|
    ensures MatchAt(s, j).None? <==> !StartsMatch(s, j)
  {
    if StartsMatch(s, j) {
      var m :| InPattern(m) && m <= s[j..];
      CandidateCases(m, s, j);
    }
    if MatchAt(s, j).Some? {
      var m := s[j..j + MatchAt(s, j).value];
      assert InPattern(m) && m <= s[j..];
    }
  }

  /** Where the matcher succeeds, no string of the pattern beginning there is longer. */
  lemma MatchAtLongest(s: string, j: nat)
    requires j <= |s| && MatchAt(s, j).Some?
    ensures forall m :: InPattern(m) && m <= s[j..] ==> |m| <= MatchAt(s, j).value
  {
    forall m | InPattern(m) && m <= s[j..] ensures |m| <= MatchAt(s, j).value {
      CandidateCases(m, s, j);
    }
  }

  /** The matcher fails at every position from `lo` up to, but excluding, `hi`. */
  ghost predicate NoMatchIn(s: string, lo: nat, hi: nat)
    requires lo <= hi <= |s| + 1
    decreases hi - lo
  {
    lo == hi || (MatchAt(s, lo).None? && NoMatchIn(s, lo + 1, hi))
  }

  lemma {:induction false} NoMatchInAll(s: string, lo: nat, hi: nat)
    requires lo <= hi <= |s| + 1 && NoMatchIn(s, lo, hi)
    ensures forall j :: lo <= j < hi ==> MatchAt(s, j).None?
    decreases hi - lo
  {
    if lo < hi {
      NoMatchInAll(s, lo + 1, hi);
    }
  }

  /** The `exec` loop from position `from`: the first position where the matcher
      succeeds, with the text it matched. */
  function Scan(s: string, from: nat): (r: Option<RegExpMatch>)
    requires from <= |s|
    decreases |s| - from
    ensures r.Some? ==> from <= r.value.index && r.value.index + |r.value.text| <= |s|
    ensures r.Some? ==> MatchAt(s, r.value.index) == Some(|r.value.text|)
    ensures r.Some? ==> r.value.text == s[r.value.index..r.value.index + |r.value.text|]
    ensures r.Some? ==> NoMatchIn(s, from, r.value.index)
    ensures r.None? ==> NoMatchIn(s, from, |s| + 1)
  {
    var here := MatchAt(s, from);
    if here.Some? then
      Some(RegExpMatch(from, s[from..from + here.value]))
    else if from == |s| then
      None
    else
      Scan(s, from + 1)
  }

  /** `ROOM_UUID_RE.exec(text)`: the text is searched from position 0. */
  function Exec(text: string): (r: Option<RegExpMatch>)
    ensures r.Some? ==> r.value.index + |r.value.text| <= |text|
    ensures r.Some? ==> text[r.value.index..r.value.index + |r.value.text|] == r.value.text
    ensures r.Some? ==> InPattern(r.value.text)
  {
    Scan(text, 0)
  }

  /** `exec` stops at the first position where the matcher succeeds, and returns
      null only when the matcher fails everywhere. */
  lemma ExecIsFirst(text: string)
    ensures Exec(text).Some? ==> MatchAt(text, Exec(text).value.index) == Some(|Exec(text).value.text|)
    ensures Exec(text).Some? ==> forall j :: 0 <= j < Exec(text).value.index ==> MatchAt(text, j).None?
    ensures Exec(text).None? ==> forall j :: 0 <= j <= |text| ==> MatchAt(text, j).None?
  {
    var r := Scan(text, 0);
    if r.Some? {
      NoMatchInAll(text, 0, r.value.index);
    } else {
      NoMatchInAll(text, 0, |text| + 1);
    }
  }

  /** `exec` returns the leftmost position that starts a match and, there, the
      longest string of the pattern, which is the prefixed one when present. */
  lemma ExecLeftmostLongest(text: string)
    requires Exec(text).Some?
    ensures forall j :: 0 <= j < Exec(text).value.index ==> !StartsMatch(text, j)
    ensures forall m :: InPattern(m) && m <= text[Exec(text).value.index..] ==> |m| <= |Exec(text).value.text|
  {
    ExecIsFirst(text);
    var r := Exec(text).value;
    forall j | 0 <= j < r.index ensures !StartsMatch(text, j) {
      MatchAtComplete(text, j);
    }
    MatchAtLongest(text, r.index);
  }

  /** `exec` returns null exactly when no position of the text starts a match. */
  lemma ExecNoneIff(text: string)
    ensures Exec(text).None? <==> forall j :: 0 <= j <= |text| ==> !StartsMatch(text, j)
  {
    ExecIsFirst(text);
    if Exec(text).None? {
      forall j | 0 <= j <= |text| ensures !StartsMatch(text, j) {
        MatchAtComplete(text, j);
      }
    } else {
      var r := Exec(text).value;
      MatchAtComplete(text, r.index);
    }
  }

  /** `extractUUIDFromClipboard` after the clipboard read: `ROOM_UUID_RE.exec(text)?.[0]`. */
  function ExtractRoomUuid(text: string): (r: Option<string>)
    ensures r.Some? ==> InPattern(r.value) && IsSubstring(r.value, text)
    ensures r.Some? ==> |r.value| == 36 || |r.value| == 39
    ensures r.None? <==> forall j :: 0 <= j <= |text| ==> !StartsMatch(text, j)
  {
    ExecNoneIff(text);
    match Exec(text)
    case None => None
    case Some(m) =>
      PatternShape(m.text);
      assert text[m.index..m.index + |m.text|] == m.text;
      Some(m.text)
  }

  // ---------------------------------------------------------------------------
  // Properties of the extraction
  // ---------------------------------------------------------------------------

  /** What a returned identifier looks like: a bare 36-character UUID form, or two
      ASCII letters, a dash and a UUID form. */
  lemma ExtractedShape(text: string)
    requires ExtractRoomUuid(text).Some?
    ensures var u := ExtractRoomUuid(text).value;
      (|u| == 36 && (IsVersionedUuid(u) || u == NilUuid))
      || (|u| == 39 && IsAsciiLetter(u[0]) && IsAsciiLetter(u[1]) && u[2] == '-'
          && (IsVersionedUuid(u[3..]) || u[3..] == NilUuid))
  {
    PatternShape(ExtractRoomUuid(text).value);
  }

  /** A match position is found whenever some position starts a match, and never
      after the first such position. */
  lemma LeftmostWins(text: string, i: nat)
    requires i <= |text| && StartsMatch(text, i)
    ensures Exec(text).Some? && Exec(text).value.index <= i
  {
    MatchAtComplete(text, i);
    ExecIsFirst(text);
  }

  /** A versioned UUID inside a longer run of hex digits is still found: the
      pattern has no word boundaries. */
  lemma EmbeddedInHexRun(before: string, u: string, after: string)
    requires AllHex(before) && AllHex(after) && IsVersionedUuid(u)
    ensures Exec(before + u + after).Some?
    ensures Exec(before + u + after).value.index <= |before|
  {
    var text := before + u + after;
    assert text[|before|..][..36] == u;
    assert InPattern(u) && u <= text[|before|..];
    LeftmostWins(text, |before|);
  }

  /** At the chosen position the optional region prefix is taken whenever a UUID
      form follows it. */
  lemma PrefixIncluded(text: string, j: nat)
    requires j + 39 <= |text|
    requires IsRegionPrefix(text[j..j + 3]) && IsUuidForm(text[j + 3..j + 39])
    requires forall i :: 0 <= i < j ==> !StartsMatch(text, i)
    ensures Exec(text) == Some(RegExpMatch(j, text[j..j + 39]))
  {
    assert PrefixedAt(text, j);
    assert MatchAt(text, j) == Some(39);
    ExecIsFirst(text);
    var r := Exec(text);
    assert r.Some?;
    var m := r.value;
    if m.index < j {
      MatchAtComplete(text, m.index);
      assert false;
    } else if m.index > j {
      assert false;
    }
    assert |m.text| == 39;
  }

  /** The nil UUID has version nibble 0, so only the second alternative admits it. */
  lemma NilUuidAccepted()
    ensures !IsVersionedUuid(NilUuid)
    ensures ExtractRoomUuid(NilUuid) == Some(NilUuid)
  {
    assert NilUuid[14] == '0';
    assert MatchAt(NilUuid, 0) == Some(36);
  }

  /** A region prefix is any two ASCII letters of either case: it is not checked
      against a list of regions. */
  lemma AnyLetterPairIsPrefix(a: char, b: char, u: string)
    requires IsAsciiLetter(a) && IsAsciiLetter(b) && IsUuidForm(u)
    ensures ExtractRoomUuid([a, b, '-'] + u) == Some([a, b, '-'] + u)
  {
    var text := [a, b, '-'] + u;
    assert |NilUuid| == 36 && |text| == 39 && text[0..39] == text;
    assert text[0..3] == [a, b, '-'] && text[3..39] == u;
    assert MatchAt(text, 0) == Some(39);
  }

  /** A UUID form, the nil UUID included, begins with two hex digits. */
  lemma BareAtHexHead(s: string, i: nat)
    requires BareAt(s, i)
    ensures IsHexDigit(s[i]) && IsHexDigit(s[i + 1])
  {
    var u := s[i..i + 36];
    assert u[..8][0] == s[i] && u[..8][1] == s[i + 1];
    if u == NilUuid {
      assert NilUuid[0] == '0' && NilUuid[1] == '0';
    }
  }

  /** No match begins where neither the optional group nor a UUID form can start. */
  lemma NoMatchStartsAt(s: string, i: nat)
    requires i + 2 < |s|
    requires !IsHexDigit(s[i]) || !IsHexDigit(s[i + 1])
    requires s[i + 2] != '-'
    ensures !StartsMatch(s, i)
  {
    if BareAt(s, i) {
      BareAtHexHead(s, i);
    }
    assert s[i..i + 3][2] == s[i + 2];
    MatchAtComplete(s, i);
  }

  /** The 8-4-4-4-12 layout: five groups of hex digits joined by dashes, with the
      version and variant nibbles leading the third and fourth groups. */
  lemma VersionedFromGroups(a: string, b: string, c: string, d: string, e: string)
    requires |a| == 8 && |b| == 4 && |c| == 4 && |d| == 4 && |e| == 12
    requires AllHex(a) && AllHex(b) && AllHex(e)
    requires IsVersionDigit(c[0]) && AllHex(c[1..]) && IsVariantDigit(d[0]) && AllHex(d[1..])
    ensures IsVersionedUuid(a + "-" + b + "-" + c + "-" + d + "-" + e)
  {
    var u := a + "-" + b + "-" + c + "-" + d + "-" + e;
    assert u[..8] == a && u[9..13] == b && u[14] == c[0] && u[15..18] == c[1..];
    assert u[19] == d[0] && u[20..23] == d[1..] && u[24..] == e;
  }

  /** The identifier of the example below is a version-1 UUID. */
  lemma ExampleUuid(u: string)
    requires u == "123e4567" + "-" + "e89b" + "-" + "12d3" + "-" + "a456" + "-" + "426614174000"
    ensures IsVersionedUuid(u) && |u| == 36
  {
    assert AllHex("123e4567") && AllHex("e89b") && AllHex("2d3") && AllHex("456") && AllHex("426614174000");
    VersionedFromGroups("123e4567", "e89b", "12d3", "a456", "426614174000");
  }

  /** No match starts at four consecutive positions when no two neighbouring
      characters there are both hex digits and no dash follows two places on. */
  lemma NoMatchInWords(s: string, lo: nat)
    requires lo + 6 <= |s|
    requires !IsHexDigit(s[lo]) || !IsHexDigit(s[lo + 1])
    requires !IsHexDigit(s[lo + 1]) || !IsHexDigit(s[lo + 2])
    requires !IsHexDigit(s[lo + 2]) || !IsHexDigit(s[lo + 3])
    requires !IsHexDigit(s[lo + 3]) || !IsHexDigit(s[lo + 4])
    requires s[lo + 2] != '-' && s[lo + 3] != '-' && s[lo + 4] != '-' && s[lo + 5] != '-'
    ensures forall i :: lo <= i < lo + 4 ==> !StartsMatch(s, i)
  {
    NoMatchStartsAt(s, lo);
    NoMatchStartsAt(s, lo + 1);
    NoMatchStartsAt(s, lo + 2);
    NoMatchStartsAt(s, lo + 3);
  }

  /** No match starts in the words before the identifier. */
  lemma SentenceLead(text: string, id: string)
    requires |id| == 39 && id[..3] == "ab-"
    requires text == "join at " + id + " now"
    ensures forall i :: 0 <= i < 8 ==> !StartsMatch(text, i)
  {
    assert text[0] == 'j' && text[1] == 'o' && text[2] == 'i' && text[3] == 'n' && text[4] == ' ';
    assert text[5] == 'a' && text[6] == 't' && text[7] == ' ' && text[8] == 'a' && text[9] == 'b';
    NoMatchInWords(text, 0);
    NoMatchInWords(text, 4);
  }

  /** A sentence around a prefixed identifier yields the identifier with its prefix. */
  lemma PrefixedInSentence(u: string, id: string)
    requires IsUuidForm(u) && id == "ab-" + u
    ensures ExtractRoomUuid("join at " + id + " now") == Some(id)
  {
    var text := "join at " + id + " now";
    assert |u| == 36 && id[..3] == "ab-";
    SentenceLead(text, id);
    assert text[8..11] == "ab-" && text[11..47] == u && text[8..47] == id;
    PrefixIncluded(text, 8);
  }

  /** The same for one concrete version-1 UUID. */
  lemma SentenceExample(u: string, id: string)
    requires u == "123e4567" + "-" + "e89b" + "-" + "12d3" + "-" + "a456" + "-" + "426614174000"
    requires id == "ab-" + u
    ensures ExtractRoomUuid("join at " + id + " now") == Some(id)
  {
    ExampleUuid(u);
    PrefixedInSentence(u, id);
  }

  /** An identifier that is found is never the empty string, so the truthiness
      test on it in the join dialog succeeds exactly when a match was found. */
  lemma ExtractedNonEmpty(text: string)
    ensures ExtractRoomUuid(text).Some? ==> ExtractRoomUuid(text).value != []
  {
  }

  // ---------------------------------------------------------------------------
  // Case-insensitivity
  // ---------------------------------------------------------------------------

  function UpperAscii(c: char): (r: char)
    ensures IsAsciiLetter(r) <==> IsAsciiLetter(c)
    ensures IsHexDigit(r) <==> IsHexDigit(c)
    ensures IsVariantDigit(r) <==> IsVariantDigit(c)
    ensures !IsAsciiLetter(c) ==> r == c
    ensures IsAsciiLetter(c) ==> 'A' <= r <= 'Z'
  {
    if 'a' <= c <= 'z' then (c as int - 32) as char else c
  }

  function UpperAsciiString(s: string): (r: string)
    ensures |r| == |s| && forall k :: 0 <= k < |s| ==> r[k] == UpperAscii(s[k])
  {
    seq(|s|, k requires 0 <= k < |s| => UpperAscii(s[k]))
  }

  lemma AllHexUpper(s: string)
    ensures AllHex(UpperAsciiString(s)) <==> AllHex(s)
  {
    var u := UpperAsciiString(s);
    if AllHex(s) {
      forall k | 0 <= k < |u| ensures IsHexDigit(u[k]) { assert IsHexDigit(s[k]); }
    }
    if AllHex(u) {
      forall k | 0 <= k < |s| ensures IsHexDigit(s[k]) { assert IsHexDigit(u[k]); }
    }
  }

  lemma AllHexUpperSlice(s: string, a: nat, b: nat)
    requires a <= b <= |s|
    ensures AllHex(UpperAsciiString(s)[a..b]) <==> AllHex(s[a..b])
  {
    assert UpperAsciiString(s)[a..b] == UpperAsciiString(s[a..b]);
    AllHexUpper(s[a..b]);
  }

  lemma VersionedUuidUpper(u: string)
    ensures IsVersionedUuid(UpperAsciiString(u)) <==> IsVersionedUuid(u)
  {
    if |u| == 36 {
      var v := UpperAsciiString(u);
      AllHexUpperSlice(u, 0, 8);
      AllHexUpperSlice(u, 9, 13);
      AllHexUpperSlice(u, 15, 18);
      AllHexUpperSlice(u, 20, 23);
      AllHexUpperSlice(u, 24, 36);
      assert v[..8] == v[0..8] && u[..8] == u[0..8];
      assert v[24..] == v[24..36] && u[24..] == u[24..36];
    }
  }

  lemma NilUuidUpper(u: string)
    ensures UpperAsciiString(u) == NilUuid <==> u == NilUuid
  {
    var v := UpperAsciiString(u);
    if v == NilUuid {
      forall k | 0 <= k < |u| ensures u[k] == NilUuid[k] {
        assert v[k] == UpperAscii(u[k]);
      }
    }
    if u == NilUuid {
      forall k | 0 <= k < |u| ensures v[k] == NilUuid[k] {
        assert v[k] == UpperAscii(u[k]);
      }
    }
  }

  /** Matching ignores the case of ASCII letters: a string and its upper-case
      rendering are in the pattern together or not at all. */
  lemma CaseInsensitive(m: string)
    ensures InPattern(UpperAsciiString(m)) <==> InPattern(m)
  {
    var v := UpperAsciiString(m);
    VersionedUuidUpper(m);
    NilUuidUpper(m);
    if |m| >= 3 {
      assert v[..3] == UpperAsciiString(m[..3]);
      assert v[3..] == UpperAsciiString(m[3..]);
      VersionedUuidUpper(m[3..]);
      NilUuidUpper(m[3..]);
      assert IsRegionPrefix(v[..3]) <==> IsRegionPrefix(m[..3]);
    }
  }
}
