/**
 Splitting a string on a single literal separator character, the way Java's
 `String.split(Pattern.quote(sep))` does, and joining strings with a delimiter.
 */
module Strings {

  /** The strings of `parts` with `delimiter` between neighbours (Java's `Collectors.joining`). */
  function Join(parts: seq<string>, delimiter: string): string
  {
    if parts == [] then ""
    else if |parts| == 1 then parts[0]
    else parts[0] + delimiter + Join(parts[1..], delimiter)
  }

  /** Number of occurrences of `c` in `s`. */
  function Occurrences(s: string, c: char): nat
  {
    if s == [] then 0 else (if s[0] == c then 1 else 0) + Occurrences(s[1..], c)
  }

  /**
   Every `sep`-delimited segment of `s`, empty ones included: the split
   before Java drops trailing empty strings.
   */
  function SplitAll(s: string, sep: char): (r: seq<string>)
    ensures |r| == Occurrences(s, sep) + 1
    ensures forall i :: 0 <= i < |r| ==> sep !in r[i]
  {
    if s == [] then [""]
    else
      var rest := SplitAll(s[1..], sep);
      if s[0] == sep then [""] + rest
      else [[s[0]] + rest[0]] + rest[1..]
  }

  /** Joining the segments again gives back the string. */
  lemma {:induction false} JoinSplitAll(s: string, sep: char)
    ensures Join(SplitAll(s, sep), [sep]) == s
    decreases |s|
  {
    if s != [] {
      var rest := SplitAll(s[1..], sep);
      JoinSplitAll(s[1..], sep);
      if s[0] == sep {
        assert ([""] + rest)[1..] == rest;
      } else {
        var r := [[s[0]] + rest[0]] + rest[1..];
        if |rest| > 1 {
          assert r[1..] == rest[1..];
          assert Join(rest, [sep]) == rest[0] + [sep] + Join(rest[1..], [sep]);
        }
      }
    }
  }

  /** Splitting a join of separator-free segments gives back exactly those segments. */
  lemma {:induction false} SplitAllJoin(parts: seq<string>, sep: char)
    requires |parts| > 0
    requires forall i :: 0 <= i < |parts| ==> sep !in parts[i]
    ensures SplitAll(Join(parts, [sep]), sep) == parts
    decreases |parts|, |parts[0]|
  {
    var head := parts[0];
    if head == [] {
      if |parts| > 1 {
        assert Join(parts, [sep]) == [sep] + Join(parts[1..], [sep]);
        SplitAllJoin(parts[1..], sep);
      }
    } else {
      var shorter := [head[1..]] + parts[1..];
      assert shorter[1..] == parts[1..];
      assert forall i :: 1 <= i < |shorter| ==> shorter[i] == parts[i];
      assert sep !in head[1..] by {
        assert forall k :: 0 <= k < |head[1..]| ==> head[1..][k] == head[k + 1];
      }
      SplitAllJoin(shorter, sep);
      if |parts| == 1 {
        assert Join(parts, [sep]) == head;
        assert Join(shorter, [sep]) == head[1..];
      } else {
        assert Join(parts, [sep]) == [head[0]] + Join(shorter, [sep]);
      }
      var joined := Join(parts, [sep]);
      assert joined[0] == head[0] && joined[1..] == Join(shorter, [sep]);
      assert head == [head[0]] + head[1..];
    }
  }

  /** `parts` without its trailing empty strings. */
  function DropTrailingEmpty(parts: seq<string>): (r: seq<string>)
    ensures |r| <= |parts| && r == parts[..|r|]
    ensures forall i :: |r| <= i < |parts| ==> parts[i] == ""
    ensures r == [] || r[|r| - 1] != ""
  {
    if parts == [] then []
    else if parts[|parts| - 1] == "" then DropTrailingEmpty(parts[..|parts| - 1])
    else parts
  }

  /**
   Java's `s.split(Pattern.quote(sep))`: the separator is matched literally; a
   string with no separator comes back whole (so "" gives [""]); otherwise
   every segment, with the trailing empty ones removed.
   */
  function JavaSplit(s: string, sep: char): (r: seq<string>)
    ensures sep !in s ==> r == [s]
    ensures sep in s ==> |r| <= Occurrences(s, sep) + 1 && (r == [] || r[|r| - 1] != "")
    ensures forall i :: 0 <= i < |r| ==> sep !in r[i]
  {
    if sep !in s then [s] else DropTrailingEmpty(SplitAll(s, sep))
  }

  /**
   What `JavaSplit` keeps: a prefix of the full split, losing only empty
   segments at the end, never ending in an empty segment unless it is the
   whole unseparated input, and with no separator inside any entry.
   */
  lemma JavaSplitSegments(s: string, sep: char)
    ensures var r := JavaSplit(s, sep);
      && r == SplitAll(s, sep)[..|r|]
      && (forall i :: |r| <= i < |SplitAll(s, sep)| ==> SplitAll(s, sep)[i] == "")
      && (sep in s ==> r == [] || r[|r| - 1] != "")
      && (forall i :: 0 <= i < |r| ==> sep !in r[i])
  {
    if sep !in s {
      SplitAllWithoutSeparator(s, sep);
    }
  }

  /** A string without the separator is a single segment. */
  lemma {:induction false} SplitAllWithoutSeparator(s: string, sep: char)
    requires sep !in s
    ensures SplitAll(s, sep) == [s]
  {
    if s != [] {
      assert sep !in s[1..] by { assert forall k :: 0 <= k < |s[1..]| ==> s[1..][k] == s[k + 1]; }
      SplitAllWithoutSeparator(s[1..], sep);
      assert [s[0]] + s[1..] == s;
    }
  }
}
