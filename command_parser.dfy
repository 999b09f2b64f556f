/**
 * Command parser: validation of a text command received over the wireless
 * link. A command is accepted exactly when it starts with one of the two
 * keywords of the vocabulary; the parser keeps no state.
 */
module CommandParser {

  /** The characters of a NUL-terminated C string, up to its terminator. */
  type CString = s: string | '\0' !in s

  /** A `const char *` argument: a null pointer or a pointer to a string. */
  datatype CharPtr = Null | Str(text: CString)

  const SetFreq: CString := "SET_FREQ"
  const GetStatus: CString := "GET_STATUS"

  /**
   * The C library's `strncmp`: compare at most `n` characters, reading the
   * terminator (code 0) past the end of either string, and stop at the first
   * difference or at a common terminator. Zero means "equal so far".
   */
  function StrNCmp(a: CString, b: CString, n: nat): int
  {
    if n == 0 then 0
    else
      var ca := if a == [] then 0 else a[0] as int;
      var cb := if b == [] then 0 else b[0] as int;
      if ca != cb then ca - cb
      else if ca == 0 then 0
      else StrNCmp(a[1..], b[1..], n - 1)
  }

  /** Comparing the first |b| characters of `a` with `b` gives zero exactly when `b` is a prefix of `a`. */
  lemma {:induction false} StrNCmpIsPrefix(a: CString, b: CString)
    ensures StrNCmp(a, b, |b|) == 0 <==> b <= a
  {
    if b != [] {
      assert b[0] in b;
      if a != [] && a[0] == b[0] {
        assert a[0] in a;
        StrNCmpIsPrefix(a[1..], b[1..]);
        assert b <= a <==> b[1..] <= a[1..];
      }
    }
  }

  /**
   * Accept a command that starts with SET_FREQ or GET_STATUS, whatever
   * follows; reject the null pointer, the empty string and everything else.
   */
  function Parse(command: CharPtr): (valid: bool)
    ensures valid <==> command.Str? && (SetFreq <= command.text || GetStatus <= command.text)
  {
    if command.Null? || |command.text| == 0 then false
    else
      StrNCmpIsPrefix(command.text, SetFreq);
      StrNCmpIsPrefix(command.text, GetStatus);
      if StrNCmp(command.text, SetFreq, 8) == 0 then true
      else if StrNCmp(command.text, GetStatus, 10) == 0 then true
      else false
  }

  /** A keyword followed by any arguments is accepted, for either keyword. */
  lemma ParseAcceptsArguments(args: CString)
    ensures Parse(Str(SetFreq + args))
    ensures Parse(Str(GetStatus + args))
  {
    assert (SetFreq + args)[..|SetFreq|] == SetFreq;
    assert (GetStatus + args)[..|GetStatus|] == GetStatus;
  }

  /** A keyword cut short, down to the empty string, is rejected, for either keyword. */
  lemma ParseRejectsTruncated(n: nat)
    requires n < |GetStatus|
    ensures n < |SetFreq| ==> !Parse(Str(SetFreq[..n]))
    ensures !Parse(Str(GetStatus[..n]))
  {
    if n > 0 {
      assert GetStatus[..n][0] != SetFreq[0];
    }
  }
}
