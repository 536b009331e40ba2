/** Python's `str.title()` over ASCII: a letter that opens a run of letters
    becomes upper case, every other letter lower case, and all other
    characters are kept. */
module TitleCase {

  predicate IsUpper(c: char) { 'A' <= c <= 'Z' }
  predicate IsLower(c: char) { 'a' <= c <= 'z' }
  predicate IsLetter(c: char) { IsUpper(c) || IsLower(c) }

  function ToUpper(c: char): char {
    if IsLower(c) then (c as int - 32) as char else c
  }

  function ToLower(c: char): char {
    if IsUpper(c) then (c as int + 32) as char else c
  }

  /** Reference definition of the character at position `i` of the title-cased string. */
  function TitledAt(s: string, i: nat): char
    requires i < |s|
  {
    if !IsLetter(s[i]) then s[i]
    else if i > 0 && IsLetter(s[i - 1]) then ToLower(s[i])
    else ToUpper(s[i])
  }

  /** The scan `str.title()` performs, remembering whether the previous
      character was a letter. */
  function TitleFrom(afterLetter: bool, s: string): (t: string)
    ensures |t| == |s|
    ensures forall i :: 0 < i < |s| ==> t[i] == TitledAt(s, i)
    ensures |s| > 0 ==> t[0] == if !IsLetter(s[0]) then s[0] else if afterLetter then ToLower(s[0]) else ToUpper(s[0])
    decreases |s|
  {
    if |s| == 0 then []
    else
      var c := s[0];
      var first := if !IsLetter(c) then c else if afterLetter then ToLower(c) else ToUpper(c);
      var rest := TitleFrom(IsLetter(c), s[1..]);
      assert forall i :: 1 < i < |s| ==> TitledAt(s, i) == TitledAt(s[1..], i - 1);
      [first] + rest
  }

  /** `key.title()`. */
  function Title(s: string): (t: string)
    ensures |t| == |s|
    ensures forall i :: 0 <= i < |s| ==> t[i] == TitledAt(s, i)
  {
    TitleFrom(false, s)
  }

  /** A string already in title case is left unchanged by title-casing. */
  predicate IsTitled(s: string) {
    forall i :: 0 <= i < |s| ==> s[i] == TitledAt(s, i)
  }

  /** Title-casing is idempotent: its result is in title case, so a second
      application changes nothing. */
  lemma TitleIdempotent(s: string)
    ensures IsTitled(Title(s))
    ensures Title(Title(s)) == Title(s)
  {
    var t := Title(s);
    forall i | 0 <= i < |s|
      ensures IsLetter(t[i]) == IsLetter(s[i])
    {
    }
    forall i | 0 <= i < |s|
      ensures t[i] == TitledAt(t, i)
    {
    }
  }
}
