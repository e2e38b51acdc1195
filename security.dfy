/** Input sanitising (utils/security.ts): trim surrounding whitespace, then
    drop control characters other than tab, line feed and carriage return,
    then cut to a maximum length. */
module Security {
  import opened Common

  /** What `String.prototype.trim` removes: the ECMAScript WhiteSpace and
      LineTerminator code points. */
  predicate IsTrimmed(c: char) {
    c == '\t' || c == '\n' || c == '\U{000B}' || c == '\U{000C}' || c == '\r' || c == ' '
    || c == '\U{00A0}' || c == '\U{1680}' || ('\U{2000}' <= c <= '\U{200A}')
    || c == '\U{2028}' || c == '\U{2029}' || c == '\U{202F}' || c == '\U{205F}'
    || c == '\U{3000}' || c == '\U{FEFF}'
  }

  /** The class `[\x00-\x08\x0B\x0C\x0E-\x1F\x7F]`. */
  predicate IsStripped(c: char) {
    ('\U{0000}' <= c <= '\U{0008}') || c == '\U{000B}' || c == '\U{000C}'
    || ('\U{000E}' <= c <= '\U{001F}') || c == '\U{007F}'
  }

  function TrimStart(s: string): (r: string)
    ensures |r| <= |s| && r == s[|s| - |r|..]
    ensures r != [] ==> !IsTrimmed(r[0])
    ensures forall i :: 0 <= i < |s| - |r| ==> IsTrimmed(s[i])
  {
    if s != [] && IsTrimmed(s[0]) then TrimStart(s[1..]) else s
  }

  function TrimEnd(s: string): (r: string)
    ensures |r| <= |s| && r == s[..|r|]
    ensures r != [] ==> !IsTrimmed(r[|r| - 1])
    ensures forall i :: |r| <= i < |s| ==> IsTrimmed(s[i])
  {
    if s != [] && IsTrimmed(s[|s| - 1]) then TrimEnd(s[..|s| - 1]) else s
  }

  /** `trim()`: the longest run of the input with no trimmed character at
      either end; only trimmed characters are dropped. */
  function Trim(s: string): (r: string)
    ensures |r| <= |s|
    ensures r != [] ==> !IsTrimmed(r[0]) && !IsTrimmed(r[|r| - 1])
    ensures |s| - |TrimStart(s)| + |r| <= |s| && r == s[|s| - |TrimStart(s)|..|s| - |TrimStart(s)| + |r|]
  {
    var t := TrimStart(s);
    var r := TrimEnd(t);
    assert t == s[|s| - |t|..] && r == t[..|r|];
    assert r == s[|s| - |t|..|s| - |t| + |r|];
    r
  }

  /** `replace(/[\x00-\x08\x0B\x0C\x0E-\x1F\x7F]/g, '')`: every stripped
      character goes, every other character stays, as often as it occurred. */
  function StripControl(s: string): (r: string)
    ensures |r| <= |s|
    ensures forall i :: 0 <= i < |r| ==> !IsStripped(r[i])
  {
    if s == [] then []
    else
      var n := |s| - 1;
      StripControl(s[..n]) + (if IsStripped(s[n]) then [] else [s[n]])
  }

  /** Every other character stays, as often as it occurred. */
  lemma {:induction false} StripControlCounts(s: string, c: char)
    requires !IsStripped(c)
    ensures multiset(StripControl(s))[c] == multiset(s)[c]
    decreases |s|
  {
    if s != [] {
      var n := |s| - 1;
      StripControlCounts(s[..n], c);
      assert s == s[..n] + [s[n]];
      assert multiset(s) == multiset(s[..n]) + multiset{s[n]};
      var tail := if IsStripped(s[n]) then [] else [s[n]];
      assert StripControl(s) == StripControl(s[..n]) + tail;
      assert multiset(StripControl(s)) == multiset(StripControl(s[..n])) + multiset(tail);
    }
  }

  /** Characters are removed where they stand; the rest keep their order. */
  lemma {:induction false} StripControlAppend(a: string, b: string)
    ensures StripControl(a + b) == StripControl(a) + StripControl(b)
    decreases |b|
  {
    if b == [] {
      assert a + b == a;
    } else {
      StripControlAppend(a, b[..|b| - 1]);
      assert (a + b)[..|a + b| - 1] == a + b[..|b| - 1];
    }
  }

  /** `sanitizeString`: empty for an empty input; otherwise a prefix of the
      trimmed and stripped input that is as long as both it and `maxLength`
      allow (a negative limit gives the empty string, as `substring(0, n)`
      does), and never holds a stripped control character. */
  function Sanitize(input: string, maxLength: int): (r: string)
    ensures var clean := StripControl(Trim(input));
      |r| == Min(|clean|, Max(0, maxLength)) && r == clean[..|r|]
    ensures forall i :: 0 <= i < |r| ==> !IsStripped(r[i])
  {
    if input == "" then ""
    else
      var sanitized := StripControl(Trim(input));
      if |sanitized| > maxLength then sanitized[..Max(0, maxLength)] else sanitized
  }

  /** Tab, line feed and carriage return inside the trimmed text survive
      whenever nothing is cut off. */
  lemma {:induction false} KeepsLayoutCharacters(input: string, maxLength: int, c: char)
    requires c == '\t' || c == '\n' || c == '\r'
    requires |StripControl(Trim(input))| <= maxLength
    ensures multiset(Sanitize(input, maxLength))[c] == multiset(Trim(input))[c]
  {
    var clean := StripControl(Trim(input));
    assert Sanitize(input, maxLength) == clean[..|clean|];
    assert clean[..|clean|] == clean;
    StripControlCounts(Trim(input), c);
  }

  /** Trimming runs before stripping, so a control character at the edge can
      shield whitespace from the trim: "\U{0001} a" comes out as " a", and
      sanitising twice (see `PlainSpace`) is not the same as sanitising
      once. */
  lemma ShieldedSpace()
    ensures Sanitize("\U{0001} a", 10) == " a"
  {
    var s := "\U{0001} a";
    assert !IsTrimmed(s[0]) && !IsTrimmed(s[2]);
    assert Trim(s) == s;
    assert s[..2] == "\U{0001} " && s[..2][..1] == "\U{0001}" && s[..2][..1][..0] == [];
    assert StripControl(s[..2][..1]) == [];
    assert StripControl(s[..2]) == " ";
    assert StripControl(s) == " a";
  }

  /** A leading space is trimmed away. */
  lemma PlainSpace()
    ensures Sanitize(" a", 10) == "a"
  {
    var t := " a";
    assert IsTrimmed(t[0]) && t[1..] == "a";
    assert !IsTrimmed('a') && !IsStripped('a');
    assert TrimStart("a") == "a";
    assert TrimStart(t) == "a";
    assert TrimEnd("a") == "a";
    assert Trim(t) == "a";
    assert "a"[..0] == [];
    assert StripControl("a") == "a";
  }
}
