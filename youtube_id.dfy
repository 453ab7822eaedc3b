/** `validateYouTubeId(id)`: the test of `id` against the regular expression
    `/^[a-zA-Z0-9_-]{11}$/`, modelled as the regex engine runs it (try each
    start position; `^` holds only at the start, `$` only at the end of the
    input, as neither the `m` flag nor any other is set), and proved equal
    to the plain reading "eleven characters from the class". */
module YouTubeId {
  import opened Wrappers

  const IdLength: nat := 11

  /** The character class `[a-zA-Z0-9_-]`. */
  predicate IsIdChar(c: char) {
    ('a' <= c <= 'z') || ('A' <= c <= 'Z') || ('0' <= c <= '9') || c == '_' || c == '-'
  }

  /** The reference reading of the pattern. */
  predicate WellFormedId(id: string) {
    |id| == IdLength && forall i :: 0 <= i < |id| ==> IsIdChar(id[i])
  }

  /** `[a-zA-Z0-9_-]{n}` matched at `pos`: the position after the run. */
  function ClassRun(s: string, pos: nat, n: nat): (r: Option<nat>)
    requires pos <= |s|
    decreases n
    ensures r.Some? <==> pos + n <= |s| && forall i :: pos <= i < pos + n ==> IsIdChar(s[i])
    ensures r.Some? ==> r.value == pos + n
  {
    if n == 0 then Some(pos)
    else if pos < |s| && IsIdChar(s[pos]) then ClassRun(s, pos + 1, n - 1)
    else None
  }

  /** The whole pattern matched at `pos`: `^`, the run, then `$`. */
  predicate MatchAt(s: string, pos: nat)
    requires pos <= |s|
  {
    pos == 0 && ClassRun(s, pos, IdLength) == Some(|s|)
  }

  /** `RegExp.prototype.test` without the `g` flag: some start position at or
      after `pos` matches. */
  predicate SearchFrom(s: string, pos: nat)
    requires pos <= |s|
    decreases |s| - pos
  {
    MatchAt(s, pos) || (pos < |s| && SearchFrom(s, pos + 1))
  }

  /** `validateYouTubeId(id)`: `regex.test(id)`. It accepts exactly the
      eleven-character strings over the class. */
  function ValidateYouTubeId(id: string): (r: bool)
    ensures r <==> WellFormedId(id)
  {
    SearchMatchesReading(id);
    SearchFrom(id, 0)
  }

  /** Past the first position the anchored pattern can never match. */
  lemma {:induction false} NoMatchAfterStart(s: string, pos: nat)
    requires 0 < pos <= |s|
    ensures !SearchFrom(s, pos)
    decreases |s| - pos
  {
    if pos < |s| {
      NoMatchAfterStart(s, pos + 1);
    }
  }

  /** The engine's search from the first position accepts exactly the
      eleven-character strings over the class: anything of another length is
      refused, and so is anything with a character outside the class. */
  lemma SearchMatchesReading(id: string)
    ensures SearchFrom(id, 0) <==> WellFormedId(id)
  {
    if 0 < |id| {
      NoMatchAfterStart(id, 1);
    }
  }

  /** The match is anchored at the end: a well-formed id followed by any
      further character, a newline included, is refused. */
  lemma TrailingCharacterIsRefused(id: string, c: char)
    requires WellFormedId(id)
    ensures !ValidateYouTubeId(id + [c])
    ensures !ValidateYouTubeId(id + "\n")
  {
  }

  /** The empty string is refused. */
  lemma EmptyIsRefused()
    ensures !ValidateYouTubeId("")
  {
  }

  lemma Examples()
    ensures ValidateYouTubeId("dQw4w9WgXcQ")
    ensures ValidateYouTubeId("___________") && ValidateYouTubeId("-----------")
    ensures !ValidateYouTubeId("dQw4w9WgXc") && !ValidateYouTubeId("dQw4w9WgXc!")
  {
  }
}
