/** JavaScript's `String.prototype.trim`: strips leading and trailing white space and line
    terminators, as ECMAScript (ECMA-262, sections 12.2 "White Space" and 12.3 "Line Terminators")
    defines them. */
module Text {

  /** The code points `trim` removes: TAB, VT, FF, SP, NBSP, ZWNBSP, every other space
      separator (category Zs) and the line terminators LF, CR, LS and PS. */
  const WhitespaceChars: set<char> := {
    '\t', '\U{000B}', '\U{000C}', ' ', '\U{00A0}', '\U{FEFF}', '\U{1680}',
    '\U{2000}', '\U{2001}', '\U{2002}', '\U{2003}', '\U{2004}', '\U{2005}',
    '\U{2006}', '\U{2007}', '\U{2008}', '\U{2009}', '\U{200A}',
    '\U{202F}', '\U{205F}', '\U{3000}',
    '\n', '\r', '\U{2028}', '\U{2029}'
  }

  predicate IsWhitespace(c: char)
  {
    c in WhitespaceChars
  }

  predicate AllWhitespace(s: string)
  {
    forall i :: 0 <= i < |s| ==> IsWhitespace(s[i])
  }

  /** Drops the white space at the front (`TrimStartShape` says what is left). */
  function TrimStart(s: string): (r: string)
    ensures |r| <= |s|
  {
    if |s| > 0 && IsWhitespace(s[0]) then TrimStart(s[1..]) else s
  }

  /** Drops the white space at the back (`TrimEndShape` says what is left). */
  function TrimEnd(s: string): (r: string)
    ensures |r| <= |s|
  {
    if |s| > 0 && IsWhitespace(s[|s| - 1]) then TrimEnd(s[..|s| - 1]) else s
  }

  /** `s.trim()`. */
  function Trim(s: string): (r: string)
  {
    TrimEnd(TrimStart(s))
  }

  /** `TrimStart` leaves a suffix that does not start with white space, and all it drops is
      white space. */
  lemma {:induction false} TrimStartShape(s: string)
    ensures var r := TrimStart(s); var n := |s| - |r|;
      && r == s[n..] && AllWhitespace(s[..n]) && (r == [] || !IsWhitespace(r[0]))
  {
    if |s| > 0 && IsWhitespace(s[0]) {
      var tail := s[1..];
      TrimStartShape(tail);
      var r := TrimStart(tail);
      var m := |tail| - |r|;
      assert r == s[m + 1..] by {
        assert tail[m..] == s[m + 1..];
      }
      forall i | 0 <= i < m + 1
        ensures IsWhitespace(s[i])
      {
        if i > 0 {
          assert s[i] == tail[..m][i - 1];
        }
      }
    }
  }

  /** `TrimEnd` leaves a prefix that does not end with white space, and all it drops is
      white space. */
  lemma {:induction false} TrimEndShape(s: string)
    ensures var r := TrimEnd(s);
      && r == s[..|r|] && AllWhitespace(s[|r|..]) && (r == [] || !IsWhitespace(r[|r| - 1]))
  {
    if |s| > 0 && IsWhitespace(s[|s| - 1]) {
      var init := s[..|s| - 1];
      TrimEndShape(init);
      var r := TrimEnd(init);
      var m := |r|;
      assert r == s[..m] by {
        assert init[..m] == s[..m];
      }
      forall i | m <= i < |s|
        ensures IsWhitespace(s[i])
      {
        if i < |s| - 1 {
          assert s[i] == init[m..][i - m];
        }
      }
    }
  }

  /** What `trim` keeps is the piece of `s` that starts after the leading white space, with
      only white space on either side of it; the piece neither starts nor ends with white
      space. */
  lemma TrimIsCore(s: string)
    ensures var r := Trim(s); var i := |s| - |TrimStart(s)|;
      && i + |r| <= |s| && s[i..i + |r|] == r
      && AllWhitespace(s[..i]) && AllWhitespace(s[i + |r|..])
      && (r == [] || (!IsWhitespace(r[0]) && !IsWhitespace(r[|r| - 1])))
  {
    var t := TrimStart(s);
    var r := TrimEnd(t);
    var i := |s| - |t|;
    TrimStartShape(s);
    TrimEndShape(t);
    assert s[i..i + |r|] == t[..|r|];
    assert s[i + |r|..] == t[|r|..];
    if r != [] {
      assert r[0] == t[0];
    }
  }

  lemma {:induction false} BlankTrimsToEmpty(s: string)
    requires AllWhitespace(s)
    ensures TrimStart(s) == []
  {
    if s != [] {
      BlankTrimsToEmpty(s[1..]);
    }
  }

  /** The name guard: `trim` yields the empty string exactly when `s` is all white space. */
  lemma TrimEmptyIff(s: string)
    ensures Trim(s) == [] <==> AllWhitespace(s)
  {
    if AllWhitespace(s) {
      BlankTrimsToEmpty(s);
    }
    if Trim(s) == [] {
      TrimIsCore(s);
      var i := |s| - |TrimStart(s)|;
      forall k | 0 <= k < |s|
        ensures IsWhitespace(s[k])
      {
        if k < i {
          assert s[k] == s[..i][k];
        } else {
          assert s[k] == s[i..][k - i];
        }
      }
    }
  }

  /** Trimming twice is trimming once. */
  lemma TrimIdempotent(s: string)
    ensures Trim(Trim(s)) == Trim(s)
  {
    var r := Trim(s);
    TrimIsCore(s);
    assert TrimStart(r) == r;
    assert TrimEnd(r) == r;
  }
}
