/** The observation note and its validation (`validateObservacao` in
    ModernTimerModal.tsx): the note is judged on its trimmed form, which must
    be non-empty and at least ten UTF-16 code units long, as JavaScript's
    `.length` counts. */
module Observation {

  const MinNoteLength: nat := 10
  /** The textarea's `maxLength`. */
  const MaxNoteLength: nat := 1000

  /** The characters `String.prototype.trim` removes: ECMAScript's WhiteSpace
      (tab, vertical tab, form feed, the byte order mark and the space
      separators of Unicode category Zs) and LineTerminator (line feed,
      carriage return, line and paragraph separators). */
  predicate IsWhitespace(c: char) {
    || c == '\t' || c == '\n' || c == '\U{000B}' || c == '\U{000C}' || c == '\r'
    || c == ' ' || c == '\U{00A0}' || c == '\U{1680}'
    || ('\U{2000}' <= c <= '\U{200A}')
    || c == '\U{2028}' || c == '\U{2029}' || c == '\U{202F}' || c == '\U{205F}'
    || c == '\U{3000}' || c == '\U{FEFF}'
  }

  predicate AllWhitespace(s: string) {
    forall i :: 0 <= i < |s| ==> IsWhitespace(s[i])
  }

  /** The number of whitespace characters s starts with. */
  function LeadingSpace(s: string): (k: nat)
    ensures k <= |s|
  {
    if s != [] && IsWhitespace(s[0]) then 1 + LeadingSpace(s[1..]) else 0
  }

  /** The number of whitespace characters s ends with. */
  function TrailingSpace(s: string): (k: nat)
    ensures k <= |s|
  {
    if s != [] && IsWhitespace(s[|s| - 1]) then 1 + TrailingSpace(s[..|s| - 1]) else 0
  }

  /** The leading run is all whitespace and is followed by a character that
      is not. */
  lemma {:induction false} LeadingSpaceSpec(s: string)
    ensures forall j :: 0 <= j < LeadingSpace(s) ==> IsWhitespace(s[j])
    ensures LeadingSpace(s) < |s| ==> !IsWhitespace(s[LeadingSpace(s)])
    decreases |s|
  {
    if s != [] && IsWhitespace(s[0]) {
      var r := s[1..];
      LeadingSpaceSpec(r);
      forall j | 0 < j < LeadingSpace(s)
        ensures IsWhitespace(s[j])
      {
        assert s[j] == r[j - 1];
      }
    }
  }

  /** The trailing run is all whitespace and is preceded by a character that
      is not. */
  lemma {:induction false} TrailingSpaceSpec(s: string)
    ensures forall j :: |s| - TrailingSpace(s) <= j < |s| ==> IsWhitespace(s[j])
    ensures TrailingSpace(s) < |s| ==> !IsWhitespace(s[|s| - 1 - TrailingSpace(s)])
    decreases |s|
  {
    if s != [] && IsWhitespace(s[|s| - 1]) {
      var p := s[..|s| - 1];
      TrailingSpaceSpec(p);
      forall j | |s| - TrailingSpace(s) <= j < |s| - 1
        ensures IsWhitespace(s[j])
      {
        assert s[j] == p[j];
      }
    }
  }

  /** A whitespace-only string has nothing but leading whitespace. */
  lemma {:induction false} LeadingSpaceOfBlank(s: string)
    requires AllWhitespace(s)
    ensures LeadingSpace(s) == |s|
    decreases |s|
  {
    if s != [] {
      LeadingSpaceOfBlank(s[1..]);
    }
  }

  /** The leading run of a concatenation runs into the second part only when
      the first part is all whitespace. */
  lemma {:induction false} LeadingSpaceAppend(a: string, b: string)
    ensures LeadingSpace(a + b) == if LeadingSpace(a) < |a| then LeadingSpace(a) else |a| + LeadingSpace(b)
    decreases |a|
  {
    if a == [] {
      assert a + b == b;
    } else {
      assert (a + b)[0] == a[0];
      assert (a + b)[1..] == a[1..] + b;
      if IsWhitespace(a[0]) {
        LeadingSpaceAppend(a[1..], b);
      }
    }
  }

  /** The trailing run of a concatenation runs into the first part only when
      the second part is all whitespace. */
  lemma {:induction false} TrailingSpaceAppend(a: string, b: string)
    ensures TrailingSpace(a + b) == if TrailingSpace(b) < |b| then TrailingSpace(b) else |b| + TrailingSpace(a)
    decreases |b|
  {
    if b == [] {
      assert a + b == a;
    } else {
      var p := b[..|b| - 1];
      assert (a + b)[|a + b| - 1] == b[|b| - 1];
      assert (a + b)[..|a + b| - 1] == a + p;
      if IsWhitespace(b[|b| - 1]) {
        TrailingSpaceAppend(a, p);
      }
    }
  }

  /** Drops the leading whitespace. */
  function TrimStart(s: string): string {
    s[LeadingSpace(s)..]
  }

  /** Drops the trailing whitespace. */
  function TrimEnd(s: string): string {
    s[..|s| - TrailingSpace(s)]
  }

  /** `s.trim()` */
  function Trim(s: string): (t: string)
    ensures |t| <= |s|
  {
    TrimEnd(TrimStart(s))
  }

  /** The trimmed note is a slice of the note and everything cut off on
      either side is whitespace ... */
  lemma TrimIsCore(s: string)
    ensures var t := Trim(s);
      exists i :: (0 <= i <= |s| - |t| && t == s[i..i + |t|]
        && AllWhitespace(s[..i]) && AllWhitespace(s[i + |t|..]))
  {
    var i := LeadingSpace(s);
    var u := s[i..];
    var t := Trim(s);
    LeadingSpaceSpec(s);
    TrailingSpaceSpec(u);
    assert t == s[i..i + |t|];
    var front, back := s[..i], s[i + |t|..];
    forall j | 0 <= j < |front|
      ensures IsWhitespace(front[j])
    {
      assert front[j] == s[j];
    }
    forall j | 0 <= j < |back|
      ensures IsWhitespace(back[j])
    {
      assert back[j] == u[|t| + j];
    }
  }

  /** ... and the slice neither starts nor ends with whitespace. */
  lemma TrimEnds(s: string)
    ensures Trim(s) != [] ==> !IsWhitespace(Trim(s)[0]) && !IsWhitespace(Trim(s)[|Trim(s)| - 1])
  {
    var u := s[LeadingSpace(s)..];
    var t := Trim(s);
    LeadingSpaceSpec(s);
    TrailingSpaceSpec(u);
    if t != [] {
      assert t[0] == u[0];
      assert t[|t| - 1] == u[|u| - 1 - TrailingSpace(u)];
    }
  }

  /** The trimmed note is empty exactly when the note is all whitespace. */
  lemma TrimEmptyIffBlank(s: string)
    ensures Trim(s) == [] <==> AllWhitespace(s)
  {
    var i := LeadingSpace(s);
    var u := s[i..];
    if AllWhitespace(s) {
      LeadingSpaceOfBlank(s);
    } else {
      LeadingSpaceSpec(s);
      assert s[..|s|] == s;
      assert !IsWhitespace(u[0]);
      TrailingSpaceSpec(u);
      assert u[0..] == u;
    }
  }

  /** Trimming twice is trimming once. */
  lemma TrimIdempotent(s: string)
    ensures Trim(Trim(s)) == Trim(s)
  {
    var t := Trim(s);
    TrimEnds(s);
    if t != [] {
      assert LeadingSpace(t) == 0;
      assert TrimStart(t) == t;
      assert TrailingSpace(t) == 0;
    }
  }

  /** JavaScript's `.length`: the number of UTF-16 code units, one for a
      character of the Basic Multilingual Plane and two (a surrogate pair)
      for one beyond it. */
  function Utf16Length(s: string): (n: nat)
    ensures |s| <= n <= 2 * |s|
    ensures n == 0 <==> s == []
  {
    if s == [] then 0 else Utf16Length(s[..|s| - 1]) + CodeUnits(s[|s| - 1])
  }

  function CodeUnits(c: char): (n: nat)
    ensures 1 <= n <= 2
  {
    if c >= '\U{10000}' then 2 else 1
  }

  /** Code units add up over a concatenation. */
  lemma {:induction false} Utf16LengthAppend(a: string, b: string)
    ensures Utf16Length(a + b) == Utf16Length(a) + Utf16Length(b)
    decreases |b|
  {
    if b == [] {
      assert a + b == a;
    } else {
      assert (a + b)[..|a + b| - 1] == a + b[..|b| - 1];
      Utf16LengthAppend(a, b[..|b| - 1]);
    }
  }

  /** Within the Basic Multilingual Plane `.length` counts characters. */
  lemma {:induction false} Utf16LengthBmp(s: string)
    requires forall i :: 0 <= i < |s| ==> s[i] < '\U{10000}'
    ensures Utf16Length(s) == |s|
    decreases |s|
  {
    if s != [] {
      Utf16LengthBmp(s[..|s| - 1]);
    }
  }

  datatype Verdict = Accepted | Empty | TooShort

  /** `validateObservacao`: an all-whitespace note is refused as empty, one
      whose trimmed length (in UTF-16 code units) is below ten as too short. */
  function ValidateObservacao(note: string): (v: Verdict)
    ensures v == Empty <==> AllWhitespace(note)
    ensures v == TooShort <==> !AllWhitespace(note) && Utf16Length(Trim(note)) < MinNoteLength
    ensures v == Accepted <==> Utf16Length(Trim(note)) >= MinNoteLength
  {
    TrimEmptyIffBlank(note);
    var t := Trim(note);
    if t == [] then Empty
    else if Utf16Length(t) < MinNoteLength then TooShort
    else Accepted
  }

  /** Five characters beyond the Basic Multilingual Plane are ten code units:
      `.length` accepts them, though a count of characters would not. */
  lemma FiveAstralCharactersAccepted()
    ensures var note := "\U{1F600}\U{1F600}\U{1F600}\U{1F600}\U{1F600}";
      |note| == 5 && ValidateObservacao(note) == Accepted
  {
    var note := "\U{1F600}\U{1F600}\U{1F600}\U{1F600}\U{1F600}";
    assert LeadingSpace(note) == 0 && TrailingSpace(note) == 0;
    assert Trim(note) == note;
    assert note == "\U{1F600}\U{1F600}" + "\U{1F600}\U{1F600}\U{1F600}";
    Utf16LengthAppend("\U{1F600}\U{1F600}", "\U{1F600}\U{1F600}\U{1F600}");
  }

  /** Whitespace around the note never changes the verdict. */
  lemma VerdictIgnoresPadding(pre: string, note: string, post: string)
    requires AllWhitespace(pre) && AllWhitespace(post)
    ensures ValidateObservacao(pre + note + post) == ValidateObservacao(note)
  {
    TrimPadding(pre, note, post);
  }

  /** Whitespace around the note never changes its trimmed form. */
  lemma TrimPadding(pre: string, note: string, post: string)
    requires AllWhitespace(pre) && AllWhitespace(post)
    ensures Trim(pre + note + post) == Trim(note)
  {
    assert pre + note + post == pre + (note + post);
    TrimStartPadding(pre, note + post);
    TrimTailPadding(note, post);
  }

  /** Leading whitespace is dropped whatever follows it. */
  lemma TrimStartPadding(pre: string, s: string)
    requires AllWhitespace(pre)
    ensures TrimStart(pre + s) == TrimStart(s)
  {
    LeadingSpaceOfBlank(pre);
    LeadingSpaceAppend(pre, s);
  }

  /** A whitespace tail never survives trimming. */
  lemma TrimTailPadding(note: string, post: string)
    requires AllWhitespace(post)
    ensures Trim(note + post) == Trim(note)
  {
    var k := LeadingSpace(note);
    LeadingSpaceOfBlank(post);
    TrailingSpaceOfBlank(post);
    LeadingSpaceAppend(note, post);
    if k < |note| {
      var u := note[k..];
      assert TrimStart(note + post) == u + post;
      TrailingSpaceAppend(u, post);
    } else {
      assert TrimStart(note + post) == [];
      assert TrimStart(note) == [];
    }
  }

  /** A whitespace-only string has nothing but trailing whitespace. */
  lemma {:induction false} TrailingSpaceOfBlank(s: string)
    requires AllWhitespace(s)
    ensures TrailingSpace(s) == |s|
    decreases |s|
  {
    if s != [] {
      TrailingSpaceOfBlank(s[..|s| - 1]);
    }
  }
}
