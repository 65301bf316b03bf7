/**
 * The one regular expression of the migration, `/^otpauth.+secret=(?<secret>.+)/`, which
 * pulls the TOTP seed out of an `otpauth://` URI. Without the `m` and `s` flags, `^` anchors
 * at the start of the string and `.` matches any character but a line terminator, so a match
 * lies within the first line. The first `.+` is greedy: the `secret=` chosen is the last one
 * on that line that is preceded by at least one character after `otpauth` and followed by at
 * least one character, and the captured group runs from there to the end of the line.
 */
module OtpAuth {
  import opened Wrappers

  const Scheme: string := "otpauth"
  const Key: string := "secret="

  /** The characters JavaScript's `.` does not match. */
  predicate IsLineTerminator(c: char) {
    c == '\n' || c == '\r' || c == '\U{2028}' || c == '\U{2029}'
  }

  /** The text before the first line terminator. */
  function FirstLine(s: string): (t: string)
    ensures |t| <= |s| && t == s[..|t|]
    ensures forall k :: 0 <= k < |t| ==> !IsLineTerminator(t[k])
    ensures |t| < |s| ==> IsLineTerminator(s[|t|])
  {
    if s == [] || IsLineTerminator(s[0]) then [] else [s[0]] + FirstLine(s[1..])
  }

  /**
   * The pattern matches `s` with `secret=` at position `i`: the first line starts with
   * `otpauth`, at least one character separates it from `secret=`, and at least one character
   * follows.
   */
  predicate MatchesAt(s: string, i: nat) {
    var t := FirstLine(s);
    |t| >= |Scheme| && t[..|Scheme|] == Scheme && KeyAt(t, i)
  }

  /** `secret=` starts at position `k` of `s`. */
  predicate KeyOccursAt(s: string, k: nat) {
    k + |Key| <= |s| && s[k..k + |Key|] == Key
  }

  predicate KeyAt(t: string, i: nat) {
    |Scheme| < i && i + |Key| < |t| && t[i..i + |Key|] == Key
  }

  /** The last position below `n` where `secret=` can start a match in line `t`. */
  function LastKey(t: string, n: nat): (r: Option<nat>)
    ensures r.Some? ==> r.value < n && KeyAt(t, r.value)
    ensures r.Some? ==> forall j: nat :: r.value < j < n ==> !KeyAt(t, j)
    ensures r.None? ==> forall j: nat :: j < n ==> !KeyAt(t, j)
    decreases n
  {
    if n == 0 then None
    else if KeyAt(t, n - 1) then Some(n - 1)
    else LastKey(t, n - 1)
  }

  /**
   * The `secret` group of the match, or `None` when the pattern does not match.
   * A match exists exactly when some position qualifies; the group is what follows the last
   * qualifying `secret=`, up to the end of the first line.
   */
  function Secret(s: string): (r: Option<string>)
    ensures r.None? <==> forall i: nat :: !MatchesAt(s, i)
    ensures r.Some? ==> exists i: nat :: MatchesAt(s, i) && r.value == FirstLine(s)[i + |Key|..]
                                   && forall j: nat :: MatchesAt(s, j) ==> j <= i
  {
    var t := FirstLine(s);
    if |t| >= |Scheme| && t[..|Scheme|] == Scheme then
      match LastKey(t, |t|)
      case Some(i) =>
        assert MatchesAt(s, i);
        Some(t[i + |Key|..])
      case None => None
    else
      None
  }

  /**
   * For a one-line `otpauth` URI whose value after `secret=` contains no further `secret=`,
   * the captured seed is that whole value, trailing parameters such as `&issuer=` included.
   */
  lemma SecretIsRestOfLine(account: string, value: string)
    requires |account| >= 1 && |value| >= 1
    requires OneLineText(account) && OneLineText(value)
    requires forall k: nat :: !KeyOccursAt(value, k)
    ensures Secret(Scheme + account + Key + value) == Some(value)
  {
    var head := Scheme + account;
    var s := head + Key + value;
    var p := |head|;
    assert Scheme + account + Key + value == s;
    OneLine(account, value);
    NoLaterKey(head, value);
    assert s[..|Scheme|] == Scheme;
    assert KeyAt(s, p);
    LastKeyIs(s, p);
    assert s[p + |Key|..] == value;
  }

  predicate OneLineText(s: string) {
    forall k :: 0 <= k < |s| ==> !IsLineTerminator(s[k])
  }

  lemma OneLineConcat(a: string, b: string)
    requires OneLineText(a) && OneLineText(b)
    ensures OneLineText(a + b)
  {
    forall k | 0 <= k < |a + b| ensures !IsLineTerminator((a + b)[k]) {
      if k >= |a| {
        assert (a + b)[k] == b[k - |a|];
      }
    }
  }

  lemma OneLine(account: string, value: string)
    requires OneLineText(account) && OneLineText(value)
    ensures FirstLine(Scheme + account + Key + value) == Scheme + account + Key + value
  {
    assert OneLineText(Scheme) && OneLineText(Key);
    OneLineConcat(Scheme, account);
    OneLineConcat(Scheme + account, Key);
    OneLineConcat(Scheme + account + Key, value);
    NoTerminator(Scheme + account + Key + value);
  }

  lemma NoLaterKey(head: string, value: string)
    requires forall k: nat :: !KeyOccursAt(value, k)
    ensures forall j: nat :: |head| < j ==> !KeyAt(head + Key + value, j)
  {
    var s := head + Key + value;
    var p := |head|;
    forall j: nat | p < j ensures !KeyAt(s, j) {
      if j + |Key| >= |s| {
      } else if j < p + |Key| {
        assert s[j] == Key[j - p];
        assert s[j..j + |Key|][0] == s[j];
      } else {
        assert s[j..j + |Key|] == value[j - p - |Key|..j - p];
        assert !KeyOccursAt(value, j - p - |Key|);
      }
    }
  }

  lemma LastKeyIs(t: string, p: nat)
    requires KeyAt(t, p)
    requires forall j: nat :: p < j ==> !KeyAt(t, j)
    ensures LastKey(t, |t|) == Some(p)
  {
    assert p < |t|;
  }

  lemma NoTerminator(s: string)
    requires OneLineText(s)
    ensures FirstLine(s) == s
  {
  }
}
