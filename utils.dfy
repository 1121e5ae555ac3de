/**
 * Shortening a text to a length limit (src/app/common/utils.py:22-43): whole lines
 * are dropped from the middle, one at a time, and replaced by a single "..." line;
 * if that is not enough, the text is cut and ends in "...".
 */
module Utils {
  import opened Text

  /** `len("...\n")`: the room the loop keeps free for the elision marker. */
  const MARKER_ROOM: nat := 4

  /** The lines of `text` with the block `lines[a..b]` replaced by one "..." line. */
  function Elide(lines: seq<string>, a: nat, b: nat): string
    requires a <= b <= |lines|
  {
    Join("\n", lines[..a] + ["..."] + lines[b..])
  }

  /**
   * The final cut of remove_lines_to_fit_len: a text over the limit keeps its
   * first `maxLen - 3` characters (Python slice semantics, so a negative bound
   * counts from the end) followed by "...".
   */
  function Truncate(t: string, maxLen: int): (r: string)
    ensures |t| <= maxLen ==> r == t
    ensures maxLen >= 3 ==> |r| <= maxLen
    ensures |t| > maxLen >= 3 ==> |r| == maxLen && r[..maxLen - 3] == t[..maxLen - 3]
    ensures |t| > maxLen ==> |r| >= 3 && r[|r| - 3..] == "..."
  {
    if |t| > maxLen then PyPrefix(t, maxLen - 3) + "..." else t
  }

  /** `splitted` is `lines` without the block `a .. b-1`, and `a` is where the loop will cut next. */
  ghost predicate Gap(lines: seq<string>, splitted: seq<string>, a: nat, b: nat) {
    && a <= b <= |lines|
    && splitted == lines[..a] + lines[b..]
    && a == (|splitted| + 1) / 2
  }

  /**
   * One round of the loop drops the middle line of `splitted`: for an even count
   * the line just after the gap, for an odd count the one just before it. The gap
   * grows by one line and never reaches the first or the last line.
   */
  lemma GapStep(lines: seq<string>, splitted: seq<string>, a: nat, b: nat) returns (a2: nat, b2: nat)
    requires Gap(lines, splitted, a, b) && |splitted| > 2
    ensures a2 == (if |splitted| % 2 == 0 then a else a - 1)
    ensures b2 == (if |splitted| % 2 == 0 then b + 1 else b)
    ensures 1 <= a2 < b2 < |lines|
    ensures Gap(lines, splitted[..|splitted| / 2] + splitted[|splitted| / 2 + 1..], a2, b2)
    ensures splitted[..|splitted| / 2] + ["..."] + splitted[|splitted| / 2 + 1..] == lines[..a2] + ["..."] + lines[b2..]
  {
    var half := |splitted| / 2;
    assert |splitted| == a + (|lines| - b);
    if |splitted| % 2 == 0 {
      assert half == a;
      a2, b2 := a, b + 1;
    } else {
      assert half == a - 1;
      a2, b2 := a - 1, b;
    }
    assert splitted[..half] == lines[..a2] && splitted[half + 1..] == lines[b2..];
  }

  /**
   * remove_lines_to_fit_len. The ghost results name the block of lines the loop
   * dropped: `a == b` when it dropped none, and otherwise the lines `a .. b-1`, a
   * block that never includes the first or the last line.
   */
  method RemoveLinesToFitLen(text: string, maxLen: int) returns (r: string, ghost a: nat, ghost b: nat)
    ensures |text| <= maxLen - MARKER_ROOM ==> r == text
    ensures maxLen >= 3 ==> |r| <= maxLen
    ensures a <= b <= |SplitOn(text, '\n')|
    ensures a == b <==> (|text| <= maxLen - MARKER_ROOM || |SplitOn(text, '\n')| <= 2)
    ensures a < b ==> 1 <= a && b < |SplitOn(text, '\n')|
    ensures a < b ==> |Elide(SplitOn(text, '\n'), a, b)| <= maxLen - MARKER_ROOM
                      || |SplitOn(text, '\n')| - (b - a) <= 2
    ensures r == Truncate(if a == b then text else Elide(SplitOn(text, '\n'), a, b), maxLen)
  {
    var lines := SplitOn(text, '\n');
    var t := text;
    var splitted := lines;
    a := (|lines| + 1) / 2;
    b := a;
    while |t| > maxLen - MARKER_ROOM && |splitted| > 2
      invariant Gap(lines, splitted, a, b)
      invariant a == b ==> t == text && splitted == lines
      invariant a < b ==> |text| > maxLen - MARKER_ROOM && |lines| > 2
      invariant a < b ==> t == Elide(lines, a, b) && 1 <= a && b < |lines|
      decreases |splitted|
    {
      a, b := GapStep(lines, splitted, a, b);
      var half := |splitted| / 2;
      t := Join("\n", splitted[..half] + ["..."] + splitted[half + 1..]);
      splitted := splitted[..half] + splitted[half + 1..];
    }
    r := Truncate(t, maxLen);
  }
}
