/** Text as the services see it: a sequence of runes, with Go's notion of white space.
    A nullable text column is a string whose empty value stands for NULL, because every
    write goes through a helper that stores "" as NULL. */
module Text {

  /** unicode.IsSpace. */
  predicate IsSpace(c: char) {
    || '\t' <= c <= '\r' || c == ' '
    || c == '\U{85}' || c == '\U{A0}' || c == '\U{1680}'
    || '\U{2000}' <= c <= '\U{200A}'
    || c == '\U{2028}' || c == '\U{2029}' || c == '\U{202F}' || c == '\U{205F}' || c == '\U{3000}'
  }

  function TrimLeft(s: string): (r: string)
    ensures |r| <= |s|
    ensures r != "" ==> !IsSpace(r[0])
  {
    if s != "" && IsSpace(s[0]) then TrimLeft(s[1..]) else s
  }

  function TrimRight(s: string): (r: string)
    ensures |r| <= |s|
    ensures r != "" ==> !IsSpace(r[|r| - 1]) && r[0] == s[0]
  {
    if s != "" && IsSpace(s[|s| - 1]) then TrimRight(s[..|s| - 1]) else s
  }

  /** strings.TrimSpace. */
  function Trim(s: string): (r: string)
    ensures |r| <= |s|
    ensures r != "" ==> !IsSpace(r[0]) && !IsSpace(r[|r| - 1])
  {
    TrimRight(TrimLeft(s))
  }

  lemma {:induction false} TrimLeftIsSuffix(s: string)
    ensures TrimLeft(s) == s[|s| - |TrimLeft(s)|..]
    ensures forall i :: 0 <= i < |s| - |TrimLeft(s)| ==> IsSpace(s[i])
  {
    if s != "" && IsSpace(s[0]) {
      TrimLeftIsSuffix(s[1..]);
      forall i | 0 <= i < |s| - |TrimLeft(s)| ensures IsSpace(s[i]) {
        if i > 0 { assert s[1..][i - 1] == s[i]; }
      }
    }
  }

  lemma {:induction false} TrimRightIsPrefix(s: string)
    ensures TrimRight(s) == s[..|TrimRight(s)|]
    ensures forall i :: |TrimRight(s)| <= i < |s| ==> IsSpace(s[i])
  {
    if s != "" && IsSpace(s[|s| - 1]) {
      var shorter := s[..|s| - 1];
      TrimRightIsPrefix(shorter);
      forall i | |TrimRight(s)| <= i < |s| ensures IsSpace(s[i]) {
        if i < |s| - 1 { assert shorter[i] == s[i]; }
      }
    }
  }

  lemma SliceOfSlice<T>(s: seq<T>, lo: nat, hi: nat, a: nat, b: nat)
    requires lo <= a <= b <= hi <= |s|
    ensures s[lo..hi][a - lo..b - lo] == s[a..b]
  {
    var t := s[lo..hi][a - lo..b - lo];
    assert forall i {:trigger t[i]} :: 0 <= i < |t| ==> t[i] == s[lo..hi][a - lo + i] == s[a + i];
  }

  /** Trim cuts one slice out of its argument, and the slice reaches from before the first to
      after the last rune that is not space. */
  lemma TrimIsSlice(s: string) returns (lo: nat, hi: nat)
    ensures lo <= hi <= |s| && Trim(s) == s[lo..hi]
    ensures forall i :: 0 <= i < lo || hi <= i < |s| ==> IsSpace(s[i])
  {
    var left := TrimLeft(s);
    TrimLeftIsSuffix(s);
    TrimRightIsPrefix(left);
    lo := |s| - |left|;
    hi := lo + |TrimRight(left)|;
    SliceOfSlice(s, lo, |s|, lo, hi);
    forall i | hi <= i < |s| ensures IsSpace(s[i]) {
      assert left[i - lo] == s[i];
    }
  }

  /** Trimming text that already has no space at either end changes nothing. */
  lemma TrimIdempotent(s: string)
    ensures Trim(Trim(s)) == Trim(s)
  {
  }

  /** The 25 code points that Unicode calls White_Space. */
  const WHITE_SPACE: set<char> := {
    '\t', '\n', '\U{0B}', '\U{0C}', '\r', ' ', '\U{85}', '\U{A0}', '\U{1680}',
    '\U{2000}', '\U{2001}', '\U{2002}', '\U{2003}', '\U{2004}', '\U{2005}', '\U{2006}', '\U{2007}', '\U{2008}',
    '\U{2009}', '\U{200A}', '\U{2028}', '\U{2029}', '\U{202F}', '\U{205F}', '\U{3000}'}

  lemma SpacesExactly(c: char)
    ensures IsSpace(c) <==> c in WHITE_SPACE
  {
  }

  /** What trimming leaves is the one slice without white space at its ends that drops nothing else. */
  lemma TrimExactly(s: string, lo: nat, hi: nat)
    requires lo <= hi <= |s| && forall i :: 0 <= i < lo || hi <= i < |s| ==> s[i] in WHITE_SPACE
    requires lo < hi ==> s[lo] !in WHITE_SPACE && s[hi - 1] !in WHITE_SPACE
    ensures Trim(s) == s[lo..hi]
  {
    forall c ensures IsSpace(c) <==> c in WHITE_SPACE {
      SpacesExactly(c);
    }
    var a, b := TrimIsSlice(s);
    if lo < hi {
      assert a <= lo && hi <= b;
      assert Trim(s)[0] == s[a] && Trim(s)[|Trim(s)| - 1] == s[b - 1];
    } else if a < b {
      assert false;
    }
  }

  function RuneBytes(c: char): nat {
    if c < '\U{80}' then 1 else if c < '\U{800}' then 2 else if c < '\U{10000}' then 3 else 4
  }

  /** The bytes of a rune in UTF-8, by its code point. */
  lemma BytesByCodePoint(c: char)
    ensures 1 <= RuneBytes(c) <= 4
    ensures RuneBytes(c) == 1 <==> c as int <= 127
    ensures RuneBytes(c) <= 2 <==> c as int <= 2047
    ensures RuneBytes(c) <= 3 <==> c as int <= 65535
  {
  }

  /** len of a Go string: its length in UTF-8 bytes. */
  function ByteLength(s: string): nat {
    if s == [] then 0 else ByteLength(s[..|s| - 1]) + RuneBytes(s[|s| - 1])
  }

  lemma {:induction false} BytesAddUp(a: string, b: string)
    ensures ByteLength(a + b) == ByteLength(a) + ByteLength(b)
    ensures |a| == 1 ==> ByteLength(a) == RuneBytes(a[0])
  {
    if |a| == 1 {
      assert a[..0] == "";
    }
    if b == "" {
      assert a + b == a;
    } else {
      var n := |b| - 1;
      BytesAddUp(a, b[..n]);
      assert (a + b)[..|a + b| - 1] == a + b[..n];
    }
  }
}
