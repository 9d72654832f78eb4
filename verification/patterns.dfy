/**
 * The client-side format checks of the SMSPilot sender: the anchored
 * phone, sender-name and callback-URL patterns, the unanchored timestamp
 * prefix check, and the packet-id digit check.
 *
 * Python's `$` (without MULTILINE) matches at the end of the string and
 * also just before a final newline, so each anchored check accepts its
 * pattern with or without one trailing '\n'.
 */
module Patterns {
  import opened Wrappers

  /** `[0-9]`; also `\d` and `str.isdigit`, restricted to ASCII digits. */
  predicate IsDigit(c: char) {
    '0' <= c <= '9'
  }

  /** Python's `\s` on str patterns: exactly the characters `str.isspace` accepts. */
  predicate IsSpace(c: char) {
    var n := c as int;
    || 0x09 <= n <= 0x0D
    || 0x1C <= n <= 0x20
    || n == 0x85 || n == 0xA0 || n == 0x1680
    || 0x2000 <= n <= 0x200A
    || n == 0x2028 || n == 0x2029 || n == 0x202F || n == 0x205F || n == 0x3000
  }

  /** The class `[a-zA-Z.\-\d]` of the sender-name pattern. */
  predicate IsSenderChar(c: char) {
    ('a' <= c <= 'z') || ('A' <= c <= 'Z') || c == '.' || c == '-' || IsDigit(c)
  }

  predicate AllDigits(s: string) {
    forall i :: 0 <= i < |s| ==> IsDigit(s[i])
  }

  predicate EndsWithNewline(s: string) {
    |s| > 0 && s[|s| - 1] == '\n'
  }

  // ---------------------------------------------------------------------
  // Anchored checks

  /** `7[0-9]+` over the whole of `t`. */
  predicate PhoneBody(t: string) {
    |t| >= 2 && t[0] == '7' && forall i :: 1 <= i < |t| ==> IsDigit(t[i])
  }

  /** `_checkPhone`: the pattern `(^7[0-9]+)$`. */
  predicate PhoneOk(s: string) {
    PhoneBody(s) || (EndsWithNewline(s) && PhoneBody(s[..|s| - 1]))
  }

  /** `[a-zA-Z.\-\d]{3,11}` over the whole of `t`. */
  predicate SenderBody(t: string) {
    3 <= |t| <= 11 && forall i :: 0 <= i < |t| ==> IsSenderChar(t[i])
  }

  /** `_checkSender`: the pattern `^[a-zA-Z.\-\d]{3,11}$`. */
  predicate SenderOk(s: string) {
    SenderBody(s) || (EndsWithNewline(s) && SenderBody(s[..|s| - 1]))
  }

  const HttpScheme: string := "http://"

  /** `[^\s]*` over the whole of `t`. */
  predicate NoSpace(t: string) {
    forall i :: 0 <= i < |t| ==> !IsSpace(t[i])
  }

  /** `http\://[^\s]*` over the whole of `t`. */
  predicate CallbackBody(t: string) {
    |t| >= |HttpScheme| && t[..|HttpScheme|] == HttpScheme && NoSpace(t[|HttpScheme|..])
  }

  /** `_checkCallback`: the pattern `^http\://[^\s]*$`. */
  predicate CallbackOk(s: string) {
    CallbackBody(s) || (EndsWithNewline(s) && CallbackBody(s[..|s| - 1]))
  }

  /** `str.isdigit`: non-empty and made of digits only. */
  predicate IsDigitString(s: string) {
    |s| > 0 && AllDigits(s)
  }

  // ---------------------------------------------------------------------
  // The timestamp prefix check `\d{4}-\d{2}-\d{2}\s+\d{2}:\d{2}:\d{2}`

  predicate DigitsAt(s: string, p: nat, n: nat) {
    p + n <= |s| && forall i :: p <= i < p + n ==> IsDigit(s[i])
  }

  predicate SpacesAt(s: string, p: nat, n: nat) {
    p + n <= |s| && forall i :: p <= i < p + n ==> IsSpace(s[i])
  }

  /** `\d{4}-\d{2}-\d{2}` at the start of `s`. */
  predicate DateHead(s: string) {
    |s| >= 10 && DigitsAt(s, 0, 4) && s[4] == '-' && DigitsAt(s, 5, 2) && s[7] == '-' && DigitsAt(s, 8, 2)
  }

  /** `\d{2}:\d{2}:\d{2}` starting at position `p`. */
  predicate TimeAt(s: string, p: nat) {
    p + 8 <= |s| && DigitsAt(s, p, 2) && s[p + 2] == ':' && DigitsAt(s, p + 3, 2)
    && s[p + 5] == ':' && DigitsAt(s, p + 6, 2)
  }

  /**
   * What `re.match` of the timestamp pattern means: the string STARTS with a
   * date, some positive number of whitespace characters, and a time; any
   * text may follow.
   */
  ghost predicate DateMatches(s: string) {
    DateHead(s) && exists k: nat :: 1 <= k && SpacesAt(s, 10, k) && TimeAt(s, 10 + k)
  }

  /** The length of the longest run of whitespace starting at `p`. */
  function SpaceRun(s: string, p: nat): (n: nat)
    requires p <= |s|
    ensures SpacesAt(s, p, n)
    ensures p + n == |s| || !IsSpace(s[p + n])
    decreases |s| - p
  {
    if p < |s| && IsSpace(s[p]) then 1 + SpaceRun(s, p + 1) else 0
  }

  /**
   * `_checkDate`: returns its argument when it begins with a timestamp,
   * and nothing otherwise.
   */
  function CheckDate(s: string): (r: Option<string>)
    ensures r.Some? ==> r.value == s
  {
    if DateHead(s) && SpaceRun(s, 10) >= 1 && TimeAt(s, 10 + SpaceRun(s, 10)) then Some(s) else None
  }

  /** A whitespace run of length `k` followed by a non-space (or the end) is the longest one. */
  lemma {:induction false} SpaceRunIsMaximal(s: string, p: nat, k: nat)
    requires SpacesAt(s, p, k)
    requires p + k == |s| || !IsSpace(s[p + k])
    ensures SpaceRun(s, p) == k
    decreases k
  {
    if k > 0 {
      assert IsSpace(s[p]);
      SpaceRunIsMaximal(s, p + 1, k - 1);
    }
  }

  /** Taking the whole whitespace run is the only way the pattern can match. */
  lemma CheckDateIsPrefixMatch(s: string)
    ensures CheckDate(s).Some? <==> DateMatches(s)
  {
    if DateMatches(s) {
      var k: nat :| 1 <= k && SpacesAt(s, 10, k) && TimeAt(s, 10 + k);
      assert IsDigit(s[10 + k]);
      SpaceRunIsMaximal(s, 10, k);
    }
    if CheckDate(s).Some? {
      assert SpacesAt(s, 10, SpaceRun(s, 10));
    }
  }

  /** The check is a prefix check: appending text never turns a match into a mismatch. */
  lemma CheckDateIgnoresSuffix(s: string, tail: string)
    requires CheckDate(s).Some?
    ensures CheckDate(s + tail) == Some(s + tail)
  {
    CheckDateIsPrefixMatch(s);
    var k: nat :| 1 <= k && SpacesAt(s, 10, k) && TimeAt(s, 10 + k);
    var t := s + tail;
    assert forall i :: 0 <= i < |s| ==> t[i] == s[i];
    assert SpacesAt(t, 10, k) && TimeAt(t, 10 + k);
    CheckDateIsPrefixMatch(t);
  }

  // ---------------------------------------------------------------------
  // What each anchored pattern accepts, in terms of its parts

  /** The phone check accepts "7", one or more digits (no upper bound) and an optional final newline. */
  lemma PhoneShape(s: string)
    ensures PhoneOk(s) <==>
      exists d: string :: |d| >= 1 && AllDigits(d) && (s == "7" + d || s == "7" + d + "\n")
  {
    if PhoneOk(s) {
      var t := if PhoneBody(s) then s else s[..|s| - 1];
      var d := t[1..];
      assert t == "7" + d;
      assert AllDigits(d) by {
        forall i | 0 <= i < |d| ensures IsDigit(d[i]) {
          assert d[i] == t[i + 1];
        }
      }
      if !PhoneBody(s) {
        assert s == t + "\n";
      }
    }
    if exists d: string :: |d| >= 1 && AllDigits(d) && (s == "7" + d || s == "7" + d + "\n") {
      var d: string :| |d| >= 1 && AllDigits(d) && (s == "7" + d || s == "7" + d + "\n");
      var t := "7" + d;
      assert PhoneBody(t) by {
        forall i | 1 <= i < |t| ensures IsDigit(t[i]) {
          assert t[i] == d[i - 1];
        }
      }
      if s != t {
        assert s[..|s| - 1] == t;
      }
    }
  }

  /** The sender check accepts 3 to 11 characters of `[A-Za-z0-9.-]` and an optional final newline. */
  lemma SenderShape(s: string)
    ensures SenderOk(s) <==>
      exists t: string :: SenderBody(t) && (s == t || s == t + "\n")
  {
    if SenderOk(s) && !SenderBody(s) {
      assert s == s[..|s| - 1] + "\n";
    }
  }

  /** The callback check accepts "http://" and any non-whitespace text, plus an optional final newline. */
  lemma CallbackShape(s: string)
    ensures CallbackOk(s) <==>
      exists t: string :: NoSpace(t) && (s == HttpScheme + t || s == HttpScheme + t + "\n")
  {
    if CallbackOk(s) {
      var u := if CallbackBody(s) then s else s[..|s| - 1];
      var t := u[|HttpScheme|..];
      assert u == HttpScheme + t;
      if !CallbackBody(s) {
        assert s == u + "\n";
      }
    }
    if exists t: string :: NoSpace(t) && (s == HttpScheme + t || s == HttpScheme + t + "\n") {
      var t: string :| NoSpace(t) && (s == HttpScheme + t || s == HttpScheme + t + "\n");
      var u := HttpScheme + t;
      assert u[..|HttpScheme|] == HttpScheme && u[|HttpScheme|..] == t;
      if s != u {
        assert s[..|s| - 1] == u;
      }
    }
  }

  /** Only the plain http scheme passes: an https URL is always rejected. */
  lemma HttpsRejected(rest: string)
    ensures !CallbackOk("https://" + rest)
  {
    var s := "https://" + rest;
    assert s[4] == 's';
    if EndsWithNewline(s) {
      assert s[..|s| - 1][4] == 's';
    }
  }

  /** A phone number may be arbitrarily long. */
  lemma PhoneHasNoLengthBound(n: nat)
    requires n >= 1
    ensures PhoneOk("7" + seq(n, _ => '0'))
  {
    var s := "7" + seq(n, _ => '0');
    assert forall i :: 1 <= i < |s| ==> s[i] == '0';
  }
}
