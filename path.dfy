/**
 * Dotted paths as `deepSet` reads them: the path string is cut at every '.',
 * exactly as JavaScript's `path.split('.')` does, and the pieces are the keys
 * walked from the target object.
 */
module Path {

  /** A key as `Split` produces it: it never contains the separator. */
  predicate DotFree(key: string) {
    '.' !in key
  }

  /** The number of separators in `s`. */
  function Dots(s: string): nat {
    if s == [] then 0 else (if s[0] == '.' then 1 else 0) + Dots(s[1..])
  }

  /**
   * `path.split('.')`: the dot-free pieces between consecutive separators, in
   * order. The empty path gives the single key "", and two adjacent dots give an
   * empty key between them; there is always one more key than there are dots.
   */
  function Split(path: string): (keys: seq<string>)
    ensures |keys| == Dots(path) + 1
    ensures forall i :: 0 <= i < |keys| ==> DotFree(keys[i])
  {
    if path == [] then [""]
    else
      var rest := Split(path[1..]);
      if path[0] == '.' then [""] + rest
      else [[path[0]] + rest[0]] + rest[1..]
  }

  /** `keys.join('.')`: the inverse of `Split`. */
  function Join(keys: seq<string>): string
    requires |keys| >= 1
  {
    if |keys| == 1 then keys[0] else keys[0] + "." + Join(keys[1..])
  }

  /** Splitting loses nothing: joining the keys again gives back the path. */
  lemma {:induction false} JoinSplit(path: string)
    ensures Join(Split(path)) == path
  {
    if path != [] {
      var rest := Split(path[1..]);
      JoinSplit(path[1..]);
      if path[0] == '.' {
        assert ([""] + rest)[1..] == rest;
      } else if |rest| > 1 {
        var keys := [[path[0]] + rest[0]] + rest[1..];
        assert keys[1..] == rest[1..];
        assert Join(rest) == rest[0] + "." + Join(rest[1..]);
      }
    }
  }

  /** A dot-free string is a single key. */
  lemma {:induction false} SplitDotFree(a: string)
    requires DotFree(a)
    ensures Split(a) == [a]
  {
    if a != [] {
      SplitDotFree(a[1..]);
      assert [a[0]] + a[1..] == a;
    }
  }

  /** A dot-free prefix followed by a separator becomes the first key. */
  lemma {:induction false} SplitAfterKey(a: string, b: string)
    requires DotFree(a)
    ensures Split(a + "." + b) == [a] + Split(b)
  {
    if a == [] {
      assert ("" + "." + b)[1..] == b;
    } else {
      assert (a + "." + b)[1..] == a[1..] + "." + b;
      SplitAfterKey(a[1..], b);
      assert [a[0]] + a[1..] == a;
    }
  }

  /** Joining dot-free keys and splitting again gives back the same keys. */
  lemma {:induction false} SplitJoin(keys: seq<string>)
    requires |keys| >= 1
    requires forall i :: 0 <= i < |keys| ==> DotFree(keys[i])
    ensures Split(Join(keys)) == keys
  {
    if |keys| == 1 {
      SplitDotFree(keys[0]);
    } else {
      SplitJoin(keys[1..]);
      SplitAfterKey(keys[0], Join(keys[1..]));
      assert [keys[0]] + keys[1..] == keys;
    }
  }
}
