/** The two string operations of Go's library that the services rely on. */
module Text {
  // The characters of unicode.IsSpace.
  predicate IsSpace(c: char) {
    || '\t' <= c <= '\r' || c == ' ' || c == '\U{85}' || c == '\U{A0}' || c == '\U{1680}'
    || '\U{2000}' <= c <= '\U{200A}'
    || c == '\U{2028}' || c == '\U{2029}' || c == '\U{202F}' || c == '\U{205F}' || c == '\U{3000}'
  }

  function TrimLeft(s: string): string {
    if s != [] && IsSpace(s[0]) then TrimLeft(s[1..]) else s
  }

  function TrimRight(s: string): string {
    if s != [] && IsSpace(s[|s| - 1]) then TrimRight(s[..|s| - 1]) else s
  }

  function TrimSpace(s: string): string {
    TrimRight(TrimLeft(s))
  }

  // Go's len counts the bytes of the UTF-8 form.
  function ByteLength(s: string): nat {
    if s == [] then 0
    else
      var c := s[0];
      (if c < '\U{80}' then 1 else if c < '\U{800}' then 2 else if c < '\U{10000}' then 3 else 4) + ByteLength(s[1..])
  }

  /** The white space of Unicode, character by character. */
  lemma SpacesAre(c: char)
    ensures IsSpace(c) <==>
            c in ['\t', '\n', '\U{0B}', '\U{0C}', '\r', ' ', '\U{85}', '\U{A0}', '\U{1680}', '\U{2000}', '\U{2001}', '\U{2002}',
                  '\U{2003}', '\U{2004}', '\U{2005}', '\U{2006}', '\U{2007}', '\U{2008}', '\U{2009}', '\U{200A}', '\U{2028}',
                  '\U{2029}', '\U{202F}', '\U{205F}', '\U{3000}']
  {
  }

  /** The length in bytes adds up over the characters: one byte for ASCII, up to four beyond. */
  lemma {:induction false} ByteLengthAdds(s: string, c: char)
    ensures ByteLength("") == 0
    ensures ByteLength(s + [c]) == ByteLength(s) +
              if c <= '\U{7F}' then 1 else if c <= '\U{7FF}' then 2 else if c <= '\U{FFFF}' then 3 else 4
  {
    if s == [] {
      assert [] + [c] == [c] && [c][1..] == [];
    } else {
      assert (s + [c])[1..] == s[1..] + [c];
      ByteLengthAdds(s[1..], c);
    }
  }

  ghost predicate Blank(s: string) {
    forall i :: 0 <= i < |s| ==> IsSpace(s[i])
  }

  lemma {:induction false} TrimLeftExact(s: string)
    ensures var t := TrimLeft(s);
      && |t| <= |s| && s[|s| - |t|..] == t && Blank(s[..|s| - |t|])
      && (t != [] ==> !IsSpace(t[0]))
  {
    if s != [] && IsSpace(s[0]) {
      TrimLeftExact(s[1..]);
      var cut := |s| - |TrimLeft(s)|;
      assert s[..cut] == [s[0]] + s[1..][..cut - 1];
    }
  }

  lemma {:induction false} TrimRightExact(s: string)
    ensures var t := TrimRight(s);
      && t <= s && Blank(s[|t|..])
      && (t != [] ==> !IsSpace(t[|t| - 1]))
  {
    if s != [] && IsSpace(s[|s| - 1]) {
      var front := s[..|s| - 1];
      TrimRightExact(front);
      var t := TrimRight(front);
      BlankSnoc(front[|t|..], s[|s| - 1]);
      assert s[|t|..] == front[|t|..] + [s[|s| - 1]];
    }
  }

  lemma BlankSnoc(s: string, c: char)
    ensures Blank(s + [c]) <==> Blank(s) && IsSpace(c)
  {
    if Blank(s + [c]) {
      assert (s + [c])[|s|] == c;
      assert forall i :: 0 <= i < |s| ==> (s + [c])[i] == s[i];
    }
  }

  /** Trimming cuts blanks off both ends and stops at the first character that is none. */
  lemma TrimSpaceExact(s: string)
    ensures var t := TrimSpace(s);
      && (exists i, j :: 0 <= i <= j <= |s| && t == s[i..j] && Blank(s[..i]) && Blank(s[j..]))
      && (t != [] ==> !IsSpace(t[0]) && !IsSpace(t[|t| - 1]))
      && (t == [] <==> Blank(s))
  {
    var l := TrimLeft(s);
    var t := TrimSpace(s);
    TrimLeftExact(s);
    TrimRightExact(l);
    var i, j := |s| - |l|, |s| - |l| + |t|;
    assert l[..|t|] == t && t == s[i..j];
    assert s[j..] == l[|t|..];
    if t == [] {
      assert s == s[..i] + s[i..];
    } else {
      assert s[i] == t[0];
    }
  }
}
