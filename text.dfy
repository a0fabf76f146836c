/** Small facts about Java strings shared by the template and the service. */
module Text {
  import opened Wrappers

  /** A Java `String` reference: `None` is `null`. */
  type JavaString = Option<string>

  /** What Java's `+` appends for a `String` operand: the text, or `"null"`. */
  function Concatenated(s: JavaString): string
  {
    match s
    case Some(v) => v
    case None => "null"
  }

  /** The position of the first `c` in `s`, or `|s|` when `s` has none. */
  function IndexOf(s: string, c: char): (k: nat)
    ensures k <= |s|
    ensures forall i :: 0 <= i < k ==> s[i] != c
    ensures k < |s| ==> s[k] == c
  {
    if s == [] then 0
    else if s[0] == c then 0
    else 1 + IndexOf(s[1..], c)
  }

  /** Skipping a prefix without `c` shifts the first `c` by the prefix's length. */
  lemma {:induction false} IndexOfSkip(a: string, b: string, c: char)
    requires c !in a
    ensures IndexOf(a + b, c) == |a| + IndexOf(b, c)
  {
    if a != [] {
      assert (a + b)[0] == a[0];
      assert (a + b)[1..] == a[1..] + b;
      IndexOfSkip(a[1..], b, c);
    } else {
      assert a + b == b;
    }
  }

  /** A string that holds `c` keeps finding it inside itself when extended. */
  lemma {:induction false} IndexOfWithin(a: string, b: string, c: char)
    requires c in a
    ensures IndexOf(a, c) < |a|
    ensures IndexOf(a + b, c) == IndexOf(a, c)
  {
    assert (a + b)[0] == a[0];
    if a[0] != c {
      assert a[1..] + b == (a + b)[1..];
      IndexOfWithin(a[1..], b, c);
    }
  }
}
