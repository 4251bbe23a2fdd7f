/** The string operations the controllers use, on sequences of characters. */
module Text {
  /** strings.Index for one character, |s| when it does not occur. */
  function IndexOf(s: string, c: char): (i: nat)
    ensures i <= |s|
    ensures forall k :: 0 <= k < i ==> s[k] != c
    ensures i < |s| ==> s[i] == c
  {
    if |s| == 0 then 0 else if s[0] == c then 0 else 1 + IndexOf(s[1..], c)
  }

  /** One past the last occurrence of a character, 0 when it does not occur. */
  function AfterLast(s: string, c: char): (i: nat)
    ensures i <= |s|
    ensures forall k :: i <= k < |s| ==> s[k] != c
    ensures i > 0 ==> s[i - 1] == c
  {
    if |s| == 0 then 0 else if s[|s| - 1] == c then |s| else AfterLast(s[..|s| - 1], c)
  }

  predicate HasPrefix(s: string, prefix: string) {
    prefix <= s
  }

  predicate HasSuffix(s: string, suffix: string) {
    |suffix| <= |s| && s[|s| - |suffix|..] == suffix
  }

  function TrimPrefix(s: string, prefix: string): string {
    if HasPrefix(s, prefix) then s[|prefix|..] else s
  }

  /** The index of a character is found by exhibiting it. */
  lemma IndexIs(s: string, c: char, i: nat)
    requires i < |s| && s[i] == c && forall k :: 0 <= k < i ==> s[k] != c
    ensures IndexOf(s, c) == i
  {
  }

  lemma AfterLastIs(s: string, c: char, i: nat)
    requires 0 < i <= |s| && s[i - 1] == c && forall k :: i <= k < |s| ==> s[k] != c
    ensures AfterLast(s, c) == i
  {
  }
}
