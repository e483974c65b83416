/**
 * Go's `strings.Split(s, "#")` and its inverse `strings.Join(parts, "#")`,
 * the pair that encodes and decodes a certificate source `nodeId#outputName`.
 */
module GoStrings {

  /** Number of `#` characters in `s` (`strings.Count(s, "#")`). */
  function Count(s: string): nat
  {
    if s == [] then 0 else (if s[0] == '#' then 1 else 0) + Count(s[1..])
  }

  /**
   * `strings.Split(s, "#")`: the pieces of `s` between successive `#`.
   * The empty string splits into one empty piece, as in Go.
   */
  function Split(s: string): (parts: seq<string>)
    ensures |parts| >= 1
    decreases |s|
  {
    if s == [] then [""]
    else if s[0] == '#' then [""] + Split(s[1..])
    else
      var rest := Split(s[1..]);
      [[s[0]] + rest[0]] + rest[1..]
  }

  /** `strings.Join(parts, "#")` for a non-empty list of pieces. */
  function Join(parts: seq<string>): string
    requires |parts| >= 1
  {
    if |parts| == 1 then parts[0] else parts[0] + "#" + Join(parts[1..])
  }

  /** No piece of `parts` contains the separator. */
  predicate SeparatorFree(parts: seq<string>)
  {
    forall i :: 0 <= i < |parts| ==> '#' !in parts[i]
  }

  /** Split yields one piece more than there are separators. */
  lemma {:induction false} SplitLength(s: string)
    ensures |Split(s)| == Count(s) + 1
    decreases |s|
  {
    if s != [] {
      SplitLength(s[1..]);
    }
  }

  /** No piece that Split returns contains the separator. */
  lemma {:induction false} SplitSeparatorFree(s: string)
    ensures SeparatorFree(Split(s))
    decreases |s|
  {
    if s != [] {
      SplitSeparatorFree(s[1..]);
      var rest := Split(s[1..]);
      if s[0] != '#' {
        assert '#' !in [s[0]] + rest[0];
        forall i | 0 <= i < |Split(s)| ensures '#' !in Split(s)[i] {
          if i > 0 {
            assert Split(s)[i] == rest[i];
          }
        }
      } else {
        forall i | 0 <= i < |Split(s)| ensures '#' !in Split(s)[i] {
          if i > 0 {
            assert Split(s)[i] == rest[i - 1];
          }
        }
      }
    }
  }

  /** Joining the pieces back with `#` gives the original string. */
  lemma {:induction false} JoinSplit(s: string)
    ensures Join(Split(s)) == s
    decreases |s|
  {
    if s != [] {
      JoinSplit(s[1..]);
      var rest := Split(s[1..]);
      assert s == [s[0]] + s[1..];
      if s[0] == '#' {
        assert Join(Split(s)) == s by {
          assert Split(s)[1..] == rest;
          assert Join(Split(s)) == "" + "#" + Join(rest);
        }
      } else if |rest| == 1 {
        assert Join(Split(s)) == s by {
          assert Split(s) == [[s[0]] + rest[0]];
        }
      } else {
        assert Join(Split(s)) == s by {
          assert Split(s)[1..] == rest[1..];
          assert Join(rest) == rest[0] + "#" + Join(rest[1..]);
          assert Join(Split(s)) == ([s[0]] + rest[0]) + "#" + Join(rest[1..]);
        }
      }
    }
  }

  /** Prefixing a separator-free string only extends the first piece. */
  lemma {:induction false} SplitPrefix(a: string, t: string)
    requires '#' !in a
    ensures Split(a + t) == [a + Split(t)[0]] + Split(t)[1..]
    decreases |a|
  {
    if a != [] {
      var s := a + t;
      assert s[0] == a[0] && s[1..] == a[1..] + t;
      SplitPrefix(a[1..], t);
      var rest := Split(s[1..]);
      assert rest == [a[1..] + Split(t)[0]] + Split(t)[1..];
      assert Split(s) == [[a[0]] + rest[0]] + rest[1..];
      assert [a[0]] + (a[1..] + Split(t)[0]) == a + Split(t)[0];
    } else {
      assert a + t == t && a + Split(t)[0] == Split(t)[0];
      assert Split(t) == [Split(t)[0]] + Split(t)[1..];
    }
  }

  /** Splitting separator-free pieces joined with `#` gives them back. */
  lemma {:induction false} SplitJoin(parts: seq<string>)
    requires |parts| >= 1 && SeparatorFree(parts)
    ensures Split(Join(parts)) == parts
    decreases |parts|
  {
    assert '#' !in parts[0];
    if |parts| == 1 {
      SplitPrefix(parts[0], "");
      assert parts[0] + "" == parts[0];
    } else {
      var tail := parts[1..];
      assert SeparatorFree(tail) by {
        forall i | 0 <= i < |tail| ensures '#' !in tail[i] {
          assert tail[i] == parts[i + 1];
        }
      }
      SplitJoin(tail);
      var t := "#" + Join(tail);
      assert Join(parts) == parts[0] + t;
      SplitPrefix(parts[0], t);
      assert t[1..] == Join(tail);
      assert Split(t) == [""] + Split(Join(tail));
      assert parts[0] + "" == parts[0];
    }
  }
}
