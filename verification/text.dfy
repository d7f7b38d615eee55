/** The parts of Python's str the models need. */
module Text {

  /** str.isspace for one character: what strip() removes. */
  predicate IsSpace(c: char) {
    '\t' <= c <= '\r' || '\U{1C}' <= c <= ' ' || c == '\U{85}' || c == '\U{A0}' || c == '\U{1680}' ||
    '\U{2000}' <= c <= '\U{200A}' || c == '\U{2028}' || c == '\U{2029}' || c == '\U{202F}' ||
    c == '\U{205F}' || c == '\U{3000}'
  }

  /** The same by code point: what Unicode calls white space, and four control characters. */
  lemma SpaceByCode(c: char)
    ensures var n := c as int;
            IsSpace(c) <==>
            9 <= n <= 13 || 28 <= n <= 32 || n == 0x85 || n == 0xA0 || n == 0x1680 || 0x2000 <= n <= 0x200A ||
            n == 0x2028 || n == 0x2029 || n == 0x202F || n == 0x205F || n == 0x3000
  {
  }

  function StripLeft(s: string): (r: string)
    ensures r != [] ==> !IsSpace(r[0])
  {
    if s != [] && IsSpace(s[0]) then StripLeft(s[1..]) else s
  }

  function StripRight(s: string): (r: string)
    ensures r != [] ==> !IsSpace(r[|r| - 1])
    ensures r <= s
  {
    if s != [] && IsSpace(s[|s| - 1]) then StripRight(s[..|s| - 1]) else s
  }

  /** str.strip() */
  function Strip(s: string): (r: string)
    ensures r != [] ==> !IsSpace(r[0]) && !IsSpace(r[|r| - 1])
  {
    StripRight(StripLeft(s))
  }

  /** What strip() takes away is white space at both ends. */
  lemma StripTakesSpace(s: string) returns (lead: string, tail: string)
    ensures s == lead + Strip(s) + tail
    ensures (forall i | 0 <= i < |lead| :: IsSpace(lead[i])) && forall i | 0 <= i < |tail| :: IsSpace(tail[i])
  {
    lead := LeadOf(s);
    tail := TailOf(StripLeft(s));
    assert lead + (Strip(s) + tail) == lead + Strip(s) + tail;
  }

  lemma {:induction false} LeadOf(s: string) returns (lead: string)
    ensures s == lead + StripLeft(s) && forall i | 0 <= i < |lead| :: IsSpace(lead[i])
  {
    lead := "";
    if s != [] && IsSpace(s[0]) {
      lead := LeadOf(s[1..]);
      lead := [s[0]] + lead;
    }
  }

  lemma {:induction false} TailOf(s: string) returns (tail: string)
    ensures s == StripRight(s) + tail && forall i | 0 <= i < |tail| :: IsSpace(tail[i])
  {
    tail := "";
    if s != [] && IsSpace(s[|s| - 1]) {
      tail := TailOf(s[..|s| - 1]);
      tail := tail + [s[|s| - 1]];
    }
  }

  /** Stripping leaves a string with clean ends alone. */
  lemma StripOfClean(s: string)
    requires s != [] ==> !IsSpace(s[0]) && !IsSpace(s[|s| - 1])
    ensures Strip(s) == s
  {
  }

  /** A - Z to a - z; other characters unchanged. */
  function LowerChar(c: char): char { if 'A' <= c <= 'Z' then c + ' ' else c }

  function Lower(s: string): (r: string)
    ensures |r| == |s| && forall i | 0 <= i < |s| :: r[i] == LowerChar(s[i])
  {
    seq(|s|, i requires 0 <= i < |s| => LowerChar(s[i]))
  }

  lemma LowerOfLower(s: string)
    requires forall i | 0 <= i < |s| :: !('A' <= s[i] <= 'Z')
    ensures Lower(s) == s
  {
  }
}
