/** Strings of C, in buffers of characters. */
module CStrings {

  /** isspace in the C locale. */
  predicate IsSpace(c: char) {
    c == ' ' || '\t' <= c <= '\r'
  }

  /** Tab, newline, vertical tab, form feed, carriage return and the space. */
  lemma SpacesAre(c: char)
    ensures IsSpace(c) <==> c as int in {9, 10, 11, 12, 13, 32}
  {
  }

  predicate NoNul(s: string) {
    forall i :: 0 <= i < |s| ==> s[i] != '\0'
  }

  /** The text of a C string: all before the first NUL. */
  function CString(s: string): (t: string)
    ensures t <= s && NoNul(t)
    ensures |t| < |s| ==> s[|t|] == '\0'
  {
    if s == "" || s[0] == '\0' then "" else [s[0]] + CString(s[1..])
  }

  /** strdup: the text and its terminator. */
  function StrDup(s: string): string {
    CString(s) + "\0"
  }

  /** A C string ends at its first NUL. */
  lemma CStringIs(s: string, n: nat)
    requires n <= |s| && NoNul(s[..n]) && (n < |s| ==> s[n] == '\0')
    ensures CString(s) == s[..n]
  {
    var t := CString(s);
    assert forall i :: 0 <= i < n ==> s[i] == s[..n][i];
    assert |t| == n;
  }

  lemma WholeCString(s: string)
    requires NoNul(s)
    ensures CString(s) == s
  {
    assert s[..|s|] == s;
    CStringIs(s, |s|);
  }

  lemma CStringEndsAtNul(s: string, n: nat)
    requires n < |s| && s[n] == '\0'
    ensures CString(s) == CString(s[..n])
  {
    var t := CString(s[..n]);
    assert s[..|t|] == t;
    CStringIs(s, |t|);
  }

  lemma StrDupTwice(s: string)
    ensures StrDup(StrDup(s)) == StrDup(s)
  {
    CStringIs(StrDup(s), |CString(s)|);
  }
}
