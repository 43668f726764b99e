/**
 * The project-name check of the scaffolder (`validateProjectName`): the name must
 * match the regular expression `/^[a-zA-Z0-9-_]+$/`.
 *
 * The pattern is modelled as a regular expression, not as a hand-written set of
 * characters: its bracket expression is parsed into character ranges, and the
 * anchored `+` is a left-to-right matcher. The lemmas then show which strings
 * it accepts: exactly the non-empty strings over ASCII letters, digits, `-`
 * and `_`.
 */
module ProjectName {

  /** One item of a bracket expression: every character from `lo` to `hi` (a single character has `lo == hi`). */
  datatype ClassRange = ClassRange(lo: char, hi: char)

  /** The text between the brackets of the name pattern. */
  const NamePatternClass: string := "a-zA-Z0-9-_"

  /**
   * Reads a bracket expression without escapes the way ECMAScript's ClassRanges
   * production does: `x-y` is the range from `x` to `y`, and a `-` that stands
   * first, last or right after a range is the hyphen itself.
   */
  function ParseClass(body: string): (r: seq<ClassRange>)
    decreases |body|
  {
    if body == [] then []
    else if |body| >= 3 && body[1] == '-' then [ClassRange(body[0], body[2])] + ParseClass(body[3..])
    else [ClassRange(body[0], body[0])] + ParseClass(body[1..])
  }

  /** Whether `c` is one of the characters a bracket expression stands for. */
  predicate InClass(c: char, cls: seq<ClassRange>)
  {
    exists k :: 0 <= k < |cls| && cls[k].lo <= c <= cls[k].hi
  }

  /** `^[cls]+$`: the whole of `s` is one or more characters of the class, consumed left to right. */
  predicate MatchesWhole(cls: seq<ClassRange>, s: string)
    decreases |s|
  {
    |s| > 0 && InClass(s[0], cls) && (|s| == 1 || MatchesWhole(cls, s[1..]))
  }

  /** `validateProjectName`: the regular-expression test of the name. */
  predicate ValidateProjectName(name: string)
  {
    MatchesWhole(ParseClass(NamePatternClass), name)
  }

  /** The characters the name pattern admits, written out. */
  predicate IsNameChar(c: char)
  {
    ('a' <= c <= 'z') || ('A' <= c <= 'Z') || ('0' <= c <= '9') || c == '-' || c == '_'
  }

  /** The bracket expression has five items; the `-` after `0-9` is a literal hyphen, not a range. */
  lemma NameClassRanges()
    ensures ParseClass(NamePatternClass)
         == [ClassRange('a', 'z'), ClassRange('A', 'Z'), ClassRange('0', '9'),
             ClassRange('-', '-'), ClassRange('_', '_')]
  {
  }

  /** A character is in the name pattern's class exactly when it is an ASCII letter, digit, `-` or `_`. */
  lemma InNameClass(c: char)
    ensures InClass(c, ParseClass(NamePatternClass)) <==> IsNameChar(c)
  {
    NameClassRanges();
    var cls := ParseClass(NamePatternClass);
    if IsNameChar(c) {
      if 'a' <= c <= 'z' { assert cls[0].lo <= c <= cls[0].hi; }
      else if 'A' <= c <= 'Z' { assert cls[1].lo <= c <= cls[1].hi; }
      else if '0' <= c <= '9' { assert cls[2].lo <= c <= cls[2].hi; }
      else if c == '-' { assert cls[3].lo <= c <= cls[3].hi; }
      else { assert cls[4].lo <= c <= cls[4].hi; }
    }
  }

  /** The anchored `+` accepts exactly the non-empty strings all of whose characters are in the class. */
  lemma {:induction false} MatchesWholeIff(cls: seq<ClassRange>, s: string)
    ensures MatchesWhole(cls, s) <==> |s| > 0 && forall i :: 0 <= i < |s| ==> InClass(s[i], cls)
    decreases |s|
  {
    if |s| > 1 {
      MatchesWholeIff(cls, s[1..]);
      if forall i :: 0 <= i < |s| ==> InClass(s[i], cls) {
        forall i | 0 <= i < |s| - 1 ensures InClass(s[1..][i], cls) {
          assert s[1..][i] == s[i + 1];
        }
      }
      if MatchesWhole(cls, s) {
        forall i | 0 <= i < |s| ensures InClass(s[i], cls) {
          if i > 0 { assert s[i] == s[1..][i - 1]; }
        }
      }
    }
  }

  /** `validateProjectName(name)` holds exactly when `name` is non-empty and every character is an ASCII letter, digit, `-` or `_`. */
  lemma ValidateProjectNameIff(name: string)
    ensures ValidateProjectName(name) <==> |name| > 0 && forall i :: 0 <= i < |name| ==> IsNameChar(name[i])
  {
    var cls := ParseClass(NamePatternClass);
    MatchesWholeIff(cls, name);
    forall i | 0 <= i < |name| ensures InClass(name[i], cls) <==> IsNameChar(name[i]) {
      InNameClass(name[i]);
    }
  }

  /**
   * What the pattern keeps out: the empty string, whitespace, path separators,
   * dots and every character beyond ASCII. So a valid name is one path
   * component, neither `.` nor `..`, and names a direct child of the working directory.
   */
  lemma ValidNameIsOneComponent(name: string)
    requires ValidateProjectName(name)
    ensures name != "" && name != "." && name != ".."
    ensures ' ' !in name && '/' !in name && '\\' !in name && '.' !in name
    ensures forall c :: c in name ==> c < 128 as char
  {
    ValidateProjectNameIff(name);
    forall c | c in name ensures IsNameChar(c) {
      var i :| 0 <= i < |name| && name[i] == c;
    }
  }

  /** Sample names: `my-app` is accepted; `bad name!` and the empty name are refused. */
  lemma NameExamples()
    ensures ValidateProjectName("my-app")
    ensures !ValidateProjectName("bad name!")
    ensures !ValidateProjectName("")
  {
    ValidateProjectNameIff("my-app");
    ValidateProjectNameIff("bad name!");
    assert !IsNameChar("bad name!"[3]);
  }
}
