/**
 * C strings held in character buffers: the text is everything before the
 * first NUL. The menu copies its label and value strings into fixed-size
 * buffers with strncpy and then forces a terminator into the last slot.
 */
module CStrings {
  import opened CInts

  const NUL: char := '\0'

  /** strlen: the index of the first NUL, or the whole sequence when there is none. */
  function CLen(s: seq<char>): (n: nat)
    ensures n <= |s|
    ensures forall k :: 0 <= k < n ==> s[k] != NUL
    ensures n < |s| ==> s[n] == NUL
  {
    if s == [] || s[0] == NUL then 0 else 1 + CLen(s[1..])
  }

  /** The two properties of CLen pin it down. */
  lemma CLenUnique(s: seq<char>, n: nat)
    requires n <= |s|
    requires forall k :: 0 <= k < n ==> s[k] != NUL
    requires n < |s| ==> s[n] == NUL
    ensures CLen(s) == n
  {
  }

  /** Text without a NUL is read whole. */
  lemma PlainText(s: seq<char>)
    requires NUL !in s
    ensures CLen(s) == |s| && s[..CLen(s)] == s
  {
    CLenUnique(s, |s|);
  }

  /** The text a C reader sees in `s`. */
  function CText(s: seq<char>): seq<char>
  {
    s[..CLen(s)]
  }

  /** The contents of an n-slot buffer after `strncpy(buf, src, n); buf[n-1] = 0;`. */
  function TerminatedCopy(src: seq<char>, n: nat): (r: seq<char>)
    requires n >= 1
    ensures |r| == n && r[n - 1] == NUL
  {
    seq(n, k requires 0 <= k < n => if k < n - 1 && k < CLen(src) then src[k] else NUL)
  }

  /** What a reader of the buffer sees: the source text cut to n-1 characters. */
  lemma TerminatedCopyText(src: seq<char>, n: nat)
    requires n >= 1
    ensures CLen(TerminatedCopy(src, n)) == Min(CLen(src), n - 1)
    ensures CText(TerminatedCopy(src, n)) == CText(src)[..Min(CLen(src), n - 1)]
  {
    var r := TerminatedCopy(src, n);
    var m := Min(CLen(src), n - 1);
    CLenUnique(r, m);
  }

  /** strncpy(buf, src, buf.Length) followed by buf[buf.Length - 1] = 0. */
  method CopyTerminated(buf: array<char>, src: seq<char>)
    requires buf.Length >= 1
    modifies buf
    ensures buf[..] == TerminatedCopy(src, buf.Length)
  {
    var n := buf.Length;
    var i := 0;
    // copy the characters before the source's terminator, at most n of them
    while i < n && i < |src| && src[i] != NUL
      invariant 0 <= i <= n && i <= CLen(src)
      invariant forall k :: 0 <= k < i ==> buf[k] == src[k]
    {
      buf[i] := src[i];
      i := i + 1;
    }
    // pad the rest of the n slots with NULs
    while i < n
      invariant 0 <= i <= n
      invariant forall k :: 0 <= k < i ==> buf[k] == if k < CLen(src) then src[k] else NUL
    {
      buf[i] := NUL;
      i := i + 1;
    }
    buf[n - 1] := NUL;
  }
}
