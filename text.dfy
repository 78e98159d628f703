/** The few string operations of Rust's `str` the tool uses. */
module Text {

  /** `t` occurs at position `i` of `s`. */
  predicate OccursAt(s: string, t: string, i: int) {
    0 <= i <= |s| - |t| && s[i..i + |t|] == t
  }

  /** `str::contains`: `t` occurs in `s` as a contiguous substring. */
  predicate Contains(s: string, t: string) {
    exists i | 0 <= i <= |s| - |t| :: OccursAt(s, t, i)
  }

  lemma OccurrenceShowsContains(s: string, t: string, i: int)
    requires OccursAt(s, t, i)
    ensures Contains(s, t)
  {
  }

  /** `t` occurs in `a + t + b` right after `a`. */
  lemma OccursBetween(a: string, t: string, b: string)
    ensures OccursAt(a + t + b, t, |a|) && Contains(a + t + b, t)
  {
    var s := a + t + b;
    assert s[|a|..|a| + |t|] == t;
    assert OccursAt(s, t, |a|);
  }

  /** `text.split("\n").next().unwrap()`: everything before the first newline. */
  function FirstLine(text: string): (line: string)
    ensures line <= text
    ensures '\n' !in line
    ensures |line| == |text| || text[|line|] == '\n'
  {
    if |text| == 0 then ""
    else if text[0] == '\n' then ""
    else [text[0]] + FirstLine(text[1..])
  }

  /** `str::replace(pat, rep)`: every non-overlapping occurrence of `pat`, left to right, replaced. */
  function ReplaceAll(s: string, pat: string, rep: string): string
    requires |pat| > 0
    decreases |s|
  {
    if |s| < |pat| then s
    else if s[..|pat|] == pat then rep + ReplaceAll(s[|pat|..], pat, rep)
    else [s[0]] + ReplaceAll(s[1..], pat, rep)
  }

  /** Dropping a `.app` suffix from a dot-free name gives the name back. */
  lemma {:induction false} StripAppSuffix(name: string)
    requires '.' !in name
    ensures ReplaceAll(name + ".app", ".app", "") == name
  {
    var s := name + ".app";
    if |name| == 0 {
      assert s == ".app";
      assert s[..4] == ".app";
      assert s[4..] == "";
    } else {
      assert s[0] == name[0] != '.';
      assert s[..4] != ".app";
      assert s[1..] == name[1..] + ".app";
      assert '.' !in name[1..] by {
        forall c | c in name[1..] ensures c != '.' {
          assert c in name;
        }
      }
      StripAppSuffix(name[1..]);
      assert [name[0]] + name[1..] == name;
    }
  }
}
