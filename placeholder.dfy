/** The launcher-script patch of src/cli.ts and src/tdeps.ts (`readWriteAsync`):
    `data.replace(/PREFIX/gim, replacement)`, every occurrence of "PREFIX" in any letter
    case replaced, scanning left to right. */
module Placeholder {

  /** The text the installers put in place of every placeholder. It contains no "$&",
      "$1" or other special replacement pattern, so `String.prototype.replace` inserts it
      verbatim. */
  const InstallDirRef: string := "\"$CLOJURE_INSTALL_DIR\""

  const Token: string := "PREFIX"

  predicate IsAsciiLetter(c: char)
  {
    'A' <= c <= 'Z' || 'a' <= c <= 'z'
  }

  /** Case folding as an `i` regular expression performs it, restricted to what can
      equal an upper-case ASCII letter: a character other than an ASCII letter never
      folds onto one (a non-ASCII character whose upper case is ASCII keeps its own
      value). */
  function Fold(c: char): char
  {
    if 'a' <= c <= 'z' then (c as int - 32) as char else c
  }

  /** `w` matches /PREFIX/i. */
  predicate IsToken(w: string)
  {
    |w| == 6 && forall k :: 0 <= k < 6 ==> Fold(w[k]) == Token[k]
  }

  /** An occurrence of the placeholder, in any letter case, starts at position `i`. */
  predicate TokenAt(s: string, i: nat)
  {
    i + 6 <= |s| && IsToken(s[i..i + 6])
  }

  /** No occurrence of the placeholder anywhere in `s`. */
  predicate NoToken(s: string)
  {
    forall i: nat :: i < |s| ==> !TokenAt(s, i)
  }

  /** Global replacement: a match at the scan position is replaced and the scan resumes
      after it; otherwise one character is kept. */
  function ReplaceAll(s: string, repl: string): string
    decreases |s|
  {
    if TokenAt(s, 0) then repl + ReplaceAll(s[6..], repl)
    else if s == [] then []
    else [s[0]] + ReplaceAll(s[1..], repl)
  }

  /** A replacement that cannot recreate the placeholder: it starts with a character
      that is not a letter and has no "P" in either case. */
  predicate Safe(repl: string)
  {
    |repl| > 0 && !IsAsciiLetter(repl[0]) && forall k :: 0 <= k < |repl| ==> Fold(repl[k]) != 'P'
  }

  lemma InstallDirRefIsSafe()
    ensures Safe(InstallDirRef)
  {
  }

  /** Text without the placeholder is left unchanged. */
  lemma {:induction false} ReplaceAllIdentity(s: string, repl: string)
    requires NoToken(s)
    ensures ReplaceAll(s, repl) == s
  {
    assert !TokenAt(s, 0);
    if s != [] {
      assert NoToken(s[1..]) by {
        forall i: nat | i < |s[1..]|
          ensures !TokenAt(s[1..], i)
        {
          assert !TokenAt(s, i + 1);
          if i + 6 <= |s[1..]| {
            assert s[1..][i..i + 6] == s[i + 1..i + 1 + 6];
          }
        }
      }
      ReplaceAllIdentity(s[1..], repl);
      assert [s[0]] + s[1..] == s;
    }
  }

  /** As long as the patched text begins with letters only, it agrees with the
      original text: with a safe replacement, a replaced occurrence is visible at its
      first character. */
  lemma {:induction false} LetterPrefix(t: string, repl: string, n: nat)
    requires Safe(repl)
    ensures var out := ReplaceAll(t, repl);
            n <= |out| && (forall k :: 0 <= k < n ==> IsAsciiLetter(out[k])) ==>
              n <= |t| && forall k :: 0 <= k < n ==> out[k] == t[k]
  {
    var out := ReplaceAll(t, repl);
    if n > 0 && n <= |out| {
      if TokenAt(t, 0) {
        assert out[0] == repl[0];
      } else {
        assert t != [] && out == [t[0]] + ReplaceAll(t[1..], repl);
        var rest := ReplaceAll(t[1..], repl);
        LetterPrefix(t[1..], repl, n - 1);
        if forall k :: 0 <= k < n ==> IsAsciiLetter(out[k]) {
          forall k | 0 <= k < n - 1
            ensures IsAsciiLetter(rest[k])
          {
            assert rest[k] == out[k + 1];
          }
          assert forall k :: 0 < k < n ==> out[k] == rest[k - 1] == t[1..][k - 1] == t[k];
        }
      }
    }
  }

  /** A match consists of six letters, the first one a "P". */
  lemma TokenShape(s: string, i: nat)
    ensures TokenAt(s, i) ==> Fold(s[i]) == 'P'
    ensures TokenAt(s, i) ==> forall k :: i <= k < i + 6 ==> IsAsciiLetter(s[k])
  {
    if TokenAt(s, i) {
      var w := s[i..i + 6];
      forall k | i <= k < i + 6
        ensures IsAsciiLetter(s[k])
      {
        assert s[k] == w[k - i];
        assert Fold(w[k - i]) == Token[k - i];
      }
      assert s[i] == w[0];
    }
  }

  /** After the patch, no placeholder remains in any letter case. */
  lemma {:induction false} NoTokenAfterReplace(s: string, repl: string)
    requires Safe(repl)
    ensures NoToken(ReplaceAll(s, repl))
    decreases |s|
  {
    var out := ReplaceAll(s, repl);
    if TokenAt(s, 0) {
      var rest := ReplaceAll(s[6..], repl);
      NoTokenAfterReplace(s[6..], repl);
      assert out == repl + rest;
      forall i: nat | i < |out|
        ensures !TokenAt(out, i)
      {
        if i < |repl| {
          TokenShape(out, i);
          assert out[i] == repl[i];
        } else {
          assert !TokenAt(rest, i - |repl|);
          if i + 6 <= |out| {
            assert out[i..i + 6] == rest[i - |repl|..i - |repl| + 6];
          }
        }
      }
    } else if s != [] {
      var rest := ReplaceAll(s[1..], repl);
      NoTokenAfterReplace(s[1..], repl);
      assert out == [s[0]] + rest;
      forall i: nat | i < |out|
        ensures !TokenAt(out, i)
      {
        if i == 0 {
          TokenShape(out, 0);
          LetterPrefix(s[1..], repl, 5);
          if 6 <= |out| {
            assert out[..6] == [s[0]] + rest[..5];
            assert forall k :: 0 <= k < 5 ==> rest[k] == out[k + 1];
            assert forall k :: 0 <= k < 5 && k < |s[1..]| ==> s[1..][k] == s[k + 1];
          }
        } else {
          assert !TokenAt(rest, i - 1);
          if i + 6 <= |out| {
            assert out[i..i + 6] == rest[i - 1..i - 1 + 6];
          }
        }
      }
    }
  }

  /** With a safe replacement the patch changes the text exactly when the text
      contains the placeholder. */
  lemma ReplaceAllUnchangedIff(s: string, repl: string)
    requires Safe(repl)
    ensures ReplaceAll(s, repl) == s <==> NoToken(s)
  {
    NoTokenAfterReplace(s, repl);
    if NoToken(s) {
      ReplaceAllIdentity(s, repl);
    }
  }
}
