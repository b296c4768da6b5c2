/**
 * The position of the end-of-buffer marker (app/page.tsx:78-106).
 *
 * The editor hands the component its buffer as a list of lines. The marker
 * is a zero-width decoration on the last line: at column 1 when that line
 * holds nothing but white space, otherwise one column past its last
 * character. Lines and columns are 1-based, and columns count UTF-16 code
 * units, as the editor and JavaScript's `length` do.
 */
module LastLineMarker {

  /** A 1-based (line, column) position in the editor's buffer. */
  datatype Anchor = Anchor(line: nat, column: nat)

  /** The characters JavaScript's `String.prototype.trim` removes:
      the WhiteSpace and LineTerminator code points of ECMAScript. */
  predicate IsJsWhitespace(c: char) {
    c == '\t' || c == '\n' || c == '\U{000B}' || c == '\U{000C}' || c == '\r'
    || c == ' ' || c == '\U{00A0}' || c == '\U{1680}'
    || ('\U{2000}' <= c <= '\U{200A}')
    || c == '\U{2028}' || c == '\U{2029}' || c == '\U{202F}' || c == '\U{205F}'
    || c == '\U{3000}' || c == '\U{FEFF}'
  }

  /** Every character of `s` is white space (vacuously so for ""). */
  predicate IsBlank(s: string) {
    forall i | 0 <= i < |s| :: IsJsWhitespace(s[i])
  }

  /** Leading white space removed: what is left does not start with white
      space. */
  function TrimStart(s: string): (r: string)
    ensures |r| <= |s|
    ensures r != [] ==> !IsJsWhitespace(r[0])
  {
    if |s| > 0 && IsJsWhitespace(s[0]) then TrimStart(s[1..]) else s
  }

  /** Trailing white space removed: what is left starts where `s` does and
      does not end with white space. */
  function TrimEnd(s: string): (r: string)
    ensures |r| <= |s|
    ensures r != [] ==> r[0] == s[0]
    ensures r != [] ==> !IsJsWhitespace(r[|r| - 1])
  {
    if |s| > 0 && IsJsWhitespace(s[|s| - 1]) then TrimEnd(s[..|s| - 1]) else s
  }

  /** JavaScript's `s.trim()`: what is left neither starts nor ends with
      white space. */
  function Trim(s: string): (r: string)
    ensures |r| <= |s|
    ensures r != [] ==> !IsJsWhitespace(r[0]) && !IsJsWhitespace(r[|r| - 1])
  {
    TrimEnd(TrimStart(s))
  }

  lemma {:induction false} TrimStartEmptyIffBlank(s: string)
    ensures TrimStart(s) == [] <==> IsBlank(s)
    ensures TrimStart(s) != [] ==> !IsJsWhitespace(TrimStart(s)[0])
    decreases |s|
  {
    if |s| > 0 && IsJsWhitespace(s[0]) {
      TrimStartEmptyIffBlank(s[1..]);
      if IsBlank(s[1..]) {
        forall i | 0 <= i < |s| ensures IsJsWhitespace(s[i]) {
          if i > 0 { assert s[i] == s[1..][i - 1]; }
        }
      } else {
        var j :| 0 <= j < |s[1..]| && !IsJsWhitespace(s[1..][j]);
        assert s[j + 1] == s[1..][j];
      }
    }
  }

  lemma {:induction false} TrimEndEmptyIffBlank(s: string)
    ensures TrimEnd(s) == [] <==> IsBlank(s)
    decreases |s|
  {
    if |s| > 0 && IsJsWhitespace(s[|s| - 1]) {
      var front := s[..|s| - 1];
      TrimEndEmptyIffBlank(front);
      if IsBlank(front) {
        forall i | 0 <= i < |s| ensures IsJsWhitespace(s[i]) {
          if i < |s| - 1 { assert s[i] == front[i]; }
        }
      } else {
        var j :| 0 <= j < |front| && !IsJsWhitespace(front[j]);
        assert s[j] == front[j];
      }
    } else if |s| > 0 {
      assert !IsJsWhitespace(s[|s| - 1]);
    }
  }

  /** `s.trim() === ""` holds exactly when `s` is blank. */
  lemma TrimEmptyIffBlank(s: string)
    ensures Trim(s) == [] <==> IsBlank(s)
  {
    TrimStartEmptyIffBlank(s);
    var t := TrimStart(s);
    TrimEndEmptyIffBlank(t);
    if t != [] {
      assert !IsJsWhitespace(t[0]);
    }
  }

  /** `TrimStart` keeps a suffix of `s` and drops only white space: what
      comes before the suffix is blank. */
  lemma {:induction false} TrimStartDropsLeadingRun(s: string)
    ensures var k := |s| - |TrimStart(s)|;
            TrimStart(s) == s[k..] && IsBlank(s[..k])
    decreases |s|
  {
    if |s| > 0 && IsJsWhitespace(s[0]) {
      var tail := s[1..];
      TrimStartDropsLeadingRun(tail);
      var k := |s| - |TrimStart(s)|;
      assert tail[k - 1..] == s[k..];
      forall i | 0 <= i < k ensures IsJsWhitespace(s[..k][i]) {
        if i > 0 { assert s[..k][i] == tail[..k - 1][i - 1]; }
      }
    }
  }

  /** `TrimEnd` keeps a prefix of `s` and drops only white space: what
      comes after the prefix is blank. */
  lemma {:induction false} TrimEndDropsTrailingRun(s: string)
    ensures var k := |TrimEnd(s)|;
            TrimEnd(s) == s[..k] && IsBlank(s[k..])
    decreases |s|
  {
    if |s| > 0 && IsJsWhitespace(s[|s| - 1]) {
      var front := s[..|s| - 1];
      TrimEndDropsTrailingRun(front);
      var k := |TrimEnd(s)|;
      assert front[..k] == s[..k];
      forall m | 0 <= m < |s| - k ensures IsJsWhitespace(s[k..][m]) {
        if k + m < |s| - 1 { assert s[k..][m] == front[k..][m]; }
        else { assert s[k..][m] == s[|s| - 1]; }
      }
    }
  }

  /** `s.trim()` is the piece of `s` between a blank prefix and a blank
      suffix. */
  lemma TrimKeepsMiddle(s: string)
    ensures var i := |s| - |TrimStart(s)|; var j := i + |Trim(s)|;
            j <= |s| && Trim(s) == s[i..j] && IsBlank(s[..i]) && IsBlank(s[j..])
  {
    TrimStartDropsLeadingRun(s);
    var t := TrimStart(s);
    TrimEndDropsTrailingRun(t);
    var i := |s| - |t|;
    var j := i + |Trim(s)|;
    assert t[..|Trim(s)|] == s[i..j];
    assert t[|Trim(s)|..] == s[j..];
  }

  /** JavaScript's `s.length`: characters outside the Basic Multilingual
      Plane take two UTF-16 code units. */
  function Utf16Length(s: string): (n: nat)
    ensures |s| <= n <= 2 * |s|
  {
    if s == [] then 0
    else (if s[0] > '\U{FFFF}' then 2 else 1) + Utf16Length(s[1..])
  }

  /** The length of a concatenation is the sum of the lengths. */
  lemma {:induction false} Utf16LengthAppend(a: string, b: string)
    ensures Utf16Length(a + b) == Utf16Length(a) + Utf16Length(b)
    decreases |a|
  {
    if a == [] {
      assert a + b == b;
    } else {
      Utf16LengthAppend(a[1..], b);
      assert (a + b)[0] == a[0] && (a + b)[1..] == a[1..] + b;
    }
  }

  /** A line with no character outside the Basic Multilingual Plane has
      one code unit per character. */
  lemma {:induction false} Utf16LengthOfBmp(s: string)
    requires forall i | 0 <= i < |s| :: s[i] <= '\U{FFFF}'
    ensures Utf16Length(s) == |s|
    decreases |s|
  {
    if s != [] {
      assert forall i | 0 <= i < |s| - 1 :: s[1..][i] == s[i + 1];
      Utf16LengthOfBmp(s[1..]);
    }
  }

  /** `lines[lines.length - 1] || ""`: the line that ends the buffer, or ""
      for no lines. */
  function LastLine(lines: seq<string>): (r: string)
    ensures |lines| > 0 ==> lines == lines[..|lines| - 1] + [r]
    ensures |lines| == 0 ==> r == ""
  {
    if |lines| == 0 then "" else lines[|lines| - 1]
  }

  /** The anchor of the marker for a buffer (app/page.tsx:84-92). */
  function MarkerAnchor(lines: seq<string>): (a: Anchor)
    ensures a.line == |lines|
    ensures a.column == 1 <==> IsBlank(LastLine(lines))
    ensures !IsBlank(LastLine(lines)) ==> a.column == Utf16Length(LastLine(lines)) + 1
  {
    var last := LastLine(lines);
    TrimEmptyIffBlank(last);
    if Trim(last) == "" then Anchor(|lines|, 1)
    else Anchor(|lines|, Utf16Length(last) + 1)
  }

  /** A last line "abc" puts the marker at column 4. */
  lemma MarkerAfterAbc()
    ensures MarkerAnchor(["let x;", "abc"]) == Anchor(2, 4)
  {
    assert !IsJsWhitespace('a');
  }

  /** A last line of spaces and a tab puts the marker at column 1. */
  lemma MarkerOnBlankLastLine()
    ensures MarkerAnchor(["abc", " \t "]) == Anchor(2, 1)
  {
    assert IsBlank(" \t ");
  }
}
