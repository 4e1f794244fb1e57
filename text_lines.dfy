/**
 * Splitting a label text into its lines and joining lines back together.
 * The dialog's labels are assembled by appending "\n"-terminated pieces;
 * reading them back line by line is how their layout is stated.
 */
module TextLines {

  /** The text contains no line break. */
  predicate SingleLine(s: string)
  {
    '\n' !in s
  }

  /** The lines of `s`, split at every '\n'; an empty text is one empty line. */
  function Lines(s: string): (r: seq<string>)
    ensures |r| > 0
    ensures forall i :: 0 <= i < |r| ==> SingleLine(r[i])
    decreases |s|
  {
    if s == [] then [""]
    else
      var rest := Lines(s[1..]);
      if s[0] == '\n' then [""] + rest
      else [[s[0]] + rest[0]] + rest[1..]
  }

  /** The lines `parts`, separated by '\n' (no line break after the last one). */
  function JoinLines(parts: seq<string>): string
    requires |parts| > 0
    decreases |parts|
  {
    if |parts| == 1 then parts[0] else parts[0] + "\n" + JoinLines(parts[1..])
  }

  /** A text without a line break is a single line. */
  lemma {:induction false} LinesOfSingleLine(a: string)
    requires SingleLine(a)
    ensures Lines(a) == [a]
    decreases |a|
  {
    if a != [] {
      LinesOfSingleLine(a[1..]);
      assert [a[0]] + a[1..] == a;
    }
  }

  /** A line followed by '\n' contributes exactly that line. */
  lemma {:induction false} LinesAfterLine(a: string, b: string)
    requires SingleLine(a)
    ensures Lines(a + "\n" + b) == [a] + Lines(b)
    decreases |a|
  {
    var s := a + "\n" + b;
    if a == [] {
      assert s[0] == '\n' && s[1..] == b;
    } else {
      assert s[0] == a[0];
      assert s[1..] == a[1..] + "\n" + b;
      LinesAfterLine(a[1..], b);
      assert [a[0]] + a[1..] == a;
    }
  }

  /** Splitting undoes joining, provided no part contains a line break. */
  lemma {:induction false} LinesOfJoin(parts: seq<string>)
    requires |parts| > 0
    requires forall i :: 0 <= i < |parts| ==> SingleLine(parts[i])
    ensures Lines(JoinLines(parts)) == parts
    decreases |parts|
  {
    if |parts| == 1 {
      LinesOfSingleLine(parts[0]);
    } else {
      LinesOfJoin(parts[1..]);
      LinesAfterLine(parts[0], JoinLines(parts[1..]));
      assert [parts[0]] + parts[1..] == parts;
    }
  }
}
