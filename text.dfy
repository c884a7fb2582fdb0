/** The string helpers the tool relies on: splitting a list at a separator and suffix handling. */
module Text {

  /**
   * The pieces of s between occurrences of sep, left to right. The empty
   * string gives one empty piece, and adjacent separators give empty pieces.
   */
  function Split(s: string, sep: char): (parts: seq<string>)
    ensures |parts| >= 1
    ensures forall i :: 0 <= i < |parts| ==> sep !in parts[i]
  {
    if |s| == 0 then [""]
    else
      var rest := Split(s[1..], sep);
      if s[0] == sep then [""] + rest
      else [[s[0]] + rest[0]] + rest[1..]
  }

  /** The pieces glued back together with sep between neighbours. */
  function Join(parts: seq<string>, sep: char): string
    requires |parts| >= 1
  {
    if |parts| == 1 then parts[0] else parts[0] + [sep] + Join(parts[1..], sep)
  }

  /** Joining the pieces of s gives s back: splitting loses nothing and reorders nothing. */
  lemma {:induction false} JoinSplit(s: string, sep: char)
    ensures Join(Split(s, sep), sep) == s
  {
    if |s| > 0 {
      JoinSplit(s[1..], sep);
      var rest := Split(s[1..], sep);
      if s[0] == sep {
        assert ([""] + rest)[1..] == rest;
      } else {
        var parts := [[s[0]] + rest[0]] + rest[1..];
        if |rest| > 1 {
          assert parts[1..] == rest[1..];
        }
        assert s == [s[0]] + s[1..];
      }
    }
  }

  /** A separator-free prefix is glued onto the first piece of what follows it. */
  lemma {:induction false} SplitPrefix(a: string, t: string, sep: char)
    requires sep !in a
    ensures Split(a + t, sep) == [a + Split(t, sep)[0]] + Split(t, sep)[1..]
  {
    if |a| == 0 {
      var ps := Split(t, sep);
      assert a + t == t && a + ps[0] == ps[0];
      assert ps == [ps[0]] + ps[1..];
    } else {
      assert (a + t)[1..] == a[1..] + t;
      SplitPrefix(a[1..], t, sep);
      assert [a[0]] + (a[1..] + Split(t, sep)[0]) == a + Split(t, sep)[0];
    }
  }

  /** Splitting pieces that hold no separator after joining them gives the same pieces. */
  lemma {:induction false} SplitJoin(parts: seq<string>, sep: char)
    requires |parts| >= 1
    requires forall i :: 0 <= i < |parts| ==> sep !in parts[i]
    ensures Split(Join(parts, sep), sep) == parts
  {
    if |parts| == 1 {
      SplitPrefix(parts[0], "", sep);
      assert parts[0] + "" == parts[0];
    } else {
      var tail := Join(parts[1..], sep);
      SplitJoin(parts[1..], sep);
      assert Split([sep] + tail, sep) == [""] + parts[1..] by {
        assert ([sep] + tail)[1..] == tail;
      }
      assert parts[0] + [sep] + tail == parts[0] + ([sep] + tail);
      SplitPrefix(parts[0], [sep] + tail, sep);
      var ps := Split([sep] + tail, sep);
      assert ps[0] == "" && ps[1..] == parts[1..];
      assert parts[0] + ps[0] == parts[0];
      assert parts == [parts[0]] + parts[1..];
    }
  }

  /** A string without the separator is a single piece. */
  lemma SplitWithoutSeparator(s: string, sep: char)
    requires sep !in s
    ensures Split(s, sep) == [s]
  {
    SplitJoin([s], sep);
  }

  predicate HasSuffix(s: string, suffix: string)
  {
    |suffix| <= |s| && s[|s| - |suffix|..] == suffix
  }

  /** s without the suffix when it ends with it, s itself otherwise. */
  function TrimSuffix(s: string, suffix: string): (r: string)
    ensures HasSuffix(s, suffix) ==> r + suffix == s
    ensures !HasSuffix(s, suffix) ==> r == s
  {
    if HasSuffix(s, suffix) then s[..|s| - |suffix|] else s
  }
}
